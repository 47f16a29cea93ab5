/** PHP values and the handful of PHP built-ins the LiveWave package relies on:
    ordered arrays with `$a[k] = v` assignment, truthiness, `str_starts_with`,
    `str_contains`, `str_replace` and the `(string)` cast of an integer. */
module Php {

  datatype Option<T> = None | Some(value: T)

  /** An array key. PHP arrays are ordered maps from int or string keys. */
  datatype Key = IntKey(i: int) | StrKey(s: string)

  datatype Value =
    | Null
    | Bool(b: bool)
    | Int(i: int)
    | Str(s: string)
    | Arr(entries: seq<Entry>)

  datatype Entry = Entry(key: Key, val: Value)

  /** A PHP array: entries in insertion order, keys pairwise distinct. */
  type PhpArray = seq<Entry>

  /** The array literal `[v0, v1, ...]`: keys 0, 1, ... in order. */
  function List(vs: seq<string>): (a: PhpArray)
    ensures |a| == |vs|
    ensures forall i :: 0 <= i < |vs| ==> a[i] == Entry(IntKey(i), Str(vs[i]))
  {
    seq(|vs|, i requires 0 <= i < |vs| => Entry(IntKey(i), Str(vs[i])))
  }

  /** PHP's conversion to bool (`if ($x)`, `!$x`, `empty($x)` negated).
      Floats and objects are not modelled; every object is truthy. */
  predicate Truthy(v: Value) {
    match v
    case Null => false
    case Bool(b) => b
    case Int(i) => i != 0
    case Str(s) => s != "" && s != "0"
    case Arr(es) => |es| > 0
  }

  /** Truthiness of a nullable string, as for a header value or a `?string` field. */
  predicate TruthyStr(o: Option<string>) {
    o.Some? && Truthy(Str(o.value))
  }

  function NullableStr(o: Option<string>): Value {
    if o.Some? then Str(o.value) else Null
  }

  predicate HasKey(a: PhpArray, k: Key) {
    exists i :: 0 <= i < |a| && a[i].key == k
  }

  predicate DistinctKeys(a: PhpArray) {
    forall i, j :: 0 <= i < j < |a| ==> a[i].key != a[j].key
  }

  /** `$a[$k] ?? null`: the value stored under `k`, if any. */
  function Get(a: PhpArray, k: Key): (r: Option<Value>)
    ensures r.Some? <==> HasKey(a, k)
  {
    if |a| == 0 then None
    else if a[0].key == k then Some(a[0].val)
    else Get(a[1..], k)
  }

  /** An entry is found by its key when no earlier entry has that key. */
  lemma {:induction false} GetAt(a: PhpArray, i: int)
    requires 0 <= i < |a|
    requires forall j :: 0 <= j < i ==> a[j].key != a[i].key
    ensures Get(a, a[i].key) == Some(a[i].val)
  {
    if i > 0 {
      GetAt(a[1..], i - 1);
    }
  }

  /** Looking a key up in two arrays laid end to end: the first one wins. */
  lemma {:induction false} GetAppend(a: PhpArray, b: PhpArray, k: Key)
    ensures Get(a + b, k) == if HasKey(a, k) then Get(a, k) else Get(b, k)
    ensures HasKey(a + b, k) <==> HasKey(a, k) || HasKey(b, k)
  {
    if |a| > 0 {
      assert (a + b)[1..] == a[1..] + b;
      GetAppend(a[1..], b, k);
    } else {
      assert a + b == b;
    }
  }

  /** `$a[$k] = $v`: overwrite the value in place if `k` is present,
      append a new entry at the end otherwise. */
  function Put(a: PhpArray, k: Key, v: Value): (r: PhpArray)
    ensures HasKey(a, k) ==> |r| == |a|
    ensures !HasKey(a, k) ==> r == a + [Entry(k, v)]
    ensures forall i :: 0 <= i < |a| ==> r[i].key == a[i].key
  {
    if |a| == 0 then [Entry(k, v)]
    else if a[0].key == k then [Entry(k, v)] + a[1..]
    else [a[0]] + Put(a[1..], k, v)
  }

  lemma {:induction false} GetPut(a: PhpArray, k: Key, v: Value, k': Key)
    ensures Get(Put(a, k, v), k') == if k' == k then Some(v) else Get(a, k')
  {
    if |a| > 0 && a[0].key != k {
      GetPut(a[1..], k, v, k');
      assert Put(a, k, v)[1..] == Put(a[1..], k, v);
    }
  }

  /** A second assignment to the same key wins and leaves no trace of the first. */
  lemma {:induction false} PutPut(a: PhpArray, k: Key, v1: Value, v2: Value)
    ensures Put(Put(a, k, v1), k, v2) == Put(a, k, v2)
  {
    if |a| > 0 && a[0].key != k {
      PutPut(a[1..], k, v1, v2);
      assert Put(a, k, v1)[1..] == Put(a[1..], k, v1);
    }
  }

  lemma {:induction false} PutKeepsDistinct(a: PhpArray, k: Key, v: Value)
    requires DistinctKeys(a)
    ensures DistinctKeys(Put(a, k, v)) && HasKey(Put(a, k, v), k)
  {
    var r := Put(a, k, v);
    if !HasKey(a, k) {
      assert r[|a|].key == k;
    } else {
      var i :| 0 <= i < |a| && a[i].key == k;
      assert r[i].key == k;
    }
  }

  predicate StartsWith(s: string, prefix: string) {
    |prefix| <= |s| && s[..|prefix|] == prefix
  }

  /** `str_contains($s, $t)`. */
  predicate Contains(s: string, t: string) {
    exists i {:trigger s[i..]} :: 0 <= i <= |s| - |t| && StartsWith(s[i..], t)
  }

  lemma ContainsMiddle(a: string, t: string, b: string)
    ensures Contains(a + t + b, t)
  {
    var s := a + t + b;
    assert s[|a|..][..|t|] == t;
  }

  /** `str_replace($needle, $rep, $s)`: every non-overlapping occurrence of a
      non-empty needle, scanning left to right, is replaced. */
  function Replace(s: string, needle: string, rep: string): string
    requires needle != ""
    decreases |s|
  {
    if |s| < |needle| then s
    else if StartsWith(s, needle) then rep + Replace(s[|needle|..], needle, rep)
    else [s[0]] + Replace(s[1..], needle, rep)
  }

  lemma NotContainsTail(s: string, t: string)
    requires |s| > 0 && !Contains(s, t)
    ensures !Contains(s[1..], t)
  {
    forall i | 0 <= i <= |s[1..]| - |t|
      ensures !StartsWith(s[1..][i..], t)
    {
      assert s[1..][i..] == s[i + 1..];
    }
  }

  lemma {:induction false} ReplaceAbsent(s: string, needle: string, rep: string)
    requires needle != ""
    requires !Contains(s, needle)
    ensures Replace(s, needle, rep) == s
    decreases |s|
  {
    if |s| >= |needle| {
      assert s[0..] == s;
      NotContainsTail(s, needle);
      ReplaceAbsent(s[1..], needle, rep);
    }
  }

  lemma ContainsShift(c: char, s: string, t: string)
    requires Contains(s, t)
    ensures Contains([c] + s, t)
  {
    var i :| 0 <= i <= |s| - |t| && StartsWith(s[i..], t);
    assert ([c] + s)[i + 1..] == s[i..];
  }

  lemma ContainsPrefix(a: string, b: string, t: string)
    requires Contains(a, t)
    ensures Contains(a + b, t)
  {
    var i :| 0 <= i <= |a| - |t| && StartsWith(a[i..], t);
    assert (a + b)[i..][..|t|] == a[i..][..|t|];
  }

  lemma ContainsSuffix(a: string, b: string, t: string)
    requires Contains(b, t)
    ensures Contains(a + b, t)
  {
    var i :| 0 <= i <= |b| - |t| && StartsWith(b[i..], t);
    assert (a + b)[|a| + i..] == b[i..];
  }

  /** Once the needle occurs, whatever the replacement contains occurs in the result. */
  lemma {:induction false} ReplaceIntroduces(s: string, needle: string, rep: string, t: string)
    requires needle != ""
    requires Contains(s, needle) && Contains(rep, t)
    ensures Contains(Replace(s, needle, rep), t)
    decreases |s|
  {
    var i :| 0 <= i <= |s| - |needle| && StartsWith(s[i..], needle);
    if StartsWith(s, needle) {
      ContainsPrefix(rep, Replace(s[|needle|..], needle, rep), t);
    } else {
      assert i > 0 by { assert s[0..] == s; }
      assert s[1..][i - 1..] == s[i..];
      ReplaceIntroduces(s[1..], needle, rep, t);
      ContainsShift(s[0], Replace(s[1..], needle, rep), t);
    }
  }

  /** Decimal digits of a natural number. */
  function NatToString(n: nat): (r: string)
    ensures |r| > 0 && forall i :: 0 <= i < |r| ==> '0' <= r[i] <= '9'
    decreases n
  {
    if n < 10 then [Digit(n)] else NatToString(n / 10) + [Digit(n % 10)]
  }

  function Digit(d: nat): (c: char)
    requires d < 10
    ensures '0' <= c <= '9'
  {
    "0123456789"[d]
  }

  /** `(string) $i` for an integer. */
  function IntToString(i: int): (r: string)
    ensures |r| > 0 && (i < 0) == (r[0] == '-')
  {
    if i < 0 then "-" + NatToString(-i) else NatToString(i)
  }

  function DecimalValue(s: string): int
    requires forall i :: 0 <= i < |s| ==> '0' <= s[i] <= '9'
    decreases |s|
  {
    if s == [] then 0 else 10 * DecimalValue(s[..|s| - 1]) + (s[|s| - 1] - '0') as int
  }

  /** Reading the digits back gives the number: the cast loses nothing. */
  lemma {:induction false} NatToStringRoundTrip(n: nat)
    ensures DecimalValue(NatToString(n)) == n
    decreases n
  {
    if n >= 10 {
      NatToStringRoundTrip(n / 10);
      var r := NatToString(n);
      assert r[..|r| - 1] == NatToString(n / 10);
    }
  }
}
