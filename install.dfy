/** The installer's text edits (src/Console/InstallCommand.php) as content-to-content
    transforms: `updateEnvFile` sets `KEY=value` lines in a `.env` file and
    `updateBroadcastingConfig` registers the `livewave` connection in broadcasting.php.
    File reads and writes are replaced by an optional content (None: no such file). */
module Install {
  import opened Php

  /** The first position of `c` in `s`. */
  function IndexOf(s: string, c: char): (r: nat)
    requires c in s
    ensures r < |s| && s[r] == c
    ensures forall j :: 0 <= j < r ==> s[j] != c
  {
    if s[0] == c then 0 else 1 + IndexOf(s[1..], c)
  }

  /** The lines of a text: the pieces between newline characters. */
  function Lines(s: string): (ls: seq<string>)
    ensures |ls| > 0
    decreases |s|
  {
    if '\n' !in s then [s]
    else
      var i := IndexOf(s, '\n');
      [s[..i]] + Lines(s[i + 1..])
  }

  /** No line holds a newline. */
  lemma {:induction false} LinesNoNewline(s: string)
    ensures forall i :: 0 <= i < |Lines(s)| ==> NoNewline(Lines(s)[i])
    decreases |s|
  {
    if '\n' in s {
      var i := IndexOf(s, '\n');
      LinesNoNewline(s[i + 1..]);
      assert forall j :: 0 < j < |Lines(s)| ==> Lines(s)[j] == Lines(s[i + 1..])[j - 1];
    }
  }

  function Join(ls: seq<string>): string
    requires |ls| > 0
  {
    if |ls| == 1 then ls[0] else ls[0] + "\n" + Join(ls[1..])
  }

  predicate NoNewline(s: string) {
    '\n' !in s
  }

  lemma {:induction false} JoinLines(s: string)
    ensures Join(Lines(s)) == s
    decreases |s|
  {
    if '\n' in s {
      var i := IndexOf(s, '\n');
      var head, tail := s[..i], s[i + 1..];
      var ls := [head] + Lines(tail);
      assert Lines(s) == ls;
      assert ls[1..] == Lines(tail);
      assert Join(ls) == head + "\n" + Join(Lines(tail));
      JoinLines(tail);
      assert s == head + "\n" + tail;
    }
  }

  lemma LinesCons(a: string, s: string)
    requires NoNewline(a)
    ensures Lines(a + "\n" + s) == [a] + Lines(s)
  {
    var t := a + "\n" + s;
    assert t[|a|] == '\n';
    assert forall j :: 0 <= j < |a| ==> t[j] == a[j];
    assert IndexOf(t, '\n') == |a|;
    assert t[..|a|] == a && t[|a| + 1..] == s;
  }

  lemma {:induction false} LinesJoin(ls: seq<string>)
    requires |ls| > 0
    requires forall i :: 0 <= i < |ls| ==> NoNewline(ls[i])
    ensures Lines(Join(ls)) == ls
  {
    if |ls| > 1 {
      var tail := ls[1..];
      assert Join(ls) == ls[0] + "\n" + Join(tail);
      LinesCons(ls[0], Join(tail));
      LinesJoin(tail);
      assert ls == [ls[0]] + tail;
    }
  }

  lemma {:induction false} JoinSnoc(ls: seq<string>, x: string)
    requires |ls| > 0
    ensures Join(ls + [x]) == Join(ls) + "\n" + x
  {
    if |ls| > 1 {
      assert (ls + [x])[1..] == ls[1..] + [x];
      JoinSnoc(ls[1..], x);
    }
  }

  /** Appending `"\n" + x` adds exactly one line. */
  lemma AppendLine(s: string, x: string)
    requires NoNewline(x)
    ensures Lines(s + "\n" + x) == Lines(s) + [x]
  {
    JoinLines(s);
    LinesNoNewline(s);
    JoinSnoc(Lines(s), x);
    LinesJoin(Lines(s) + [x]);
  }

  /** An env key as the installer uses it: no `=` and no newline. */
  predicate ValidKey(k: string) {
    '=' !in k && '\n' !in k
  }

  /** A line "starts with KEY=": what `^KEY=.*` matches in multi-line mode when the key
      holds no regex metacharacter, so that it matches itself literally. */
  predicate IsKeyLine(line: string, k: string) {
    StartsWith(line, k + "=")
  }

  /** A line determines the one key it can start with. */
  lemma KeyLineUnique(line: string, k1: string, k2: string)
    requires ValidKey(k1) && ValidKey(k2)
    requires IsKeyLine(line, k1) && IsKeyLine(line, k2)
    ensures k1 == k2
  {
    assert line[|k1|] == '=' && forall j :: 0 <= j < |k1| ==> line[j] == k1[j];
    assert line[|k2|] == '=' && forall j :: 0 <= j < |k2| ==> line[j] == k2[j];
    assert IndexOf(line, '=') == |k1|;
    assert IndexOf(line, '=') == |k2|;
    assert k1 == line[..|k1|];
  }

  // preg_match of the pattern ^KEY=.* in multi-line mode: some line starts with KEY=.
  predicate HasKeyLine(content: string, k: string) {
    exists i :: 0 <= i < |Lines(content)| && IsKeyLine(Lines(content)[i], k)
  }

  function RewriteLines(ls: seq<string>, k: string, v: string): (r: seq<string>)
    ensures |r| == |ls|
    ensures forall i :: 0 <= i < |ls| ==> r[i] == if IsKeyLine(ls[i], k) then k + "=" + v else ls[i]
  {
    seq(|ls|, i requires 0 <= i < |ls| => if IsKeyLine(ls[i], k) then k + "=" + v else ls[i])
  }

  // preg_replace of ^KEY=.* in multi-line mode by KEY=value: each whole line that
  // starts with KEY= becomes KEY=value; a dot does not match a newline.
  function ReplaceKeyLines(content: string, k: string, v: string): string {
    Join(RewriteLines(Lines(content), k, v))
  }

  /** One iteration of the loop in `updateEnvFile`. */
  function SetEnv(content: string, k: string, v: string): string {
    if HasKeyLine(content, k) then ReplaceKeyLines(content, k, v)
    else content + "\n" + k + "=" + v
  }

  /** The whole loop: the pairs applied in order. */
  function UpdateEnv(content: string, values: seq<(string, string)>): string
    decreases |values|
  {
    if values == [] then content
    else
      var last := values[|values| - 1];
      SetEnv(UpdateEnv(content, values[..|values| - 1]), last.0, last.1)
  }

  /** `updateEnvFile($values)`: a missing file is left alone; otherwise each pair
      rewrites the content in turn. */
  method UpdateEnvFile(env: Option<string>, values: seq<(string, string)>) returns (written: Option<string>)
    ensures env.None? ==> written.None?
    ensures env.Some? ==> written == Some(UpdateEnv(env.value, values))
  {
    if env.None? {
      return None;
    }
    var content := env.value;
    var i := 0;
    while i < |values|
      invariant 0 <= i <= |values|
      invariant content == UpdateEnv(env.value, values[..i])
    {
      var (key, value) := values[i];
      if HasKeyLine(content, key) {
        content := ReplaceKeyLines(content, key, value);
      } else {
        content := content + "\n" + key + "=" + value;
      }
      assert values[..i + 1][..i] == values[..i];
      i := i + 1;
    }
    assert values[..i] == values;
    written := Some(content);
  }

  /** After setting, the key has a line, and every line of that key reads `KEY=value`. */
  predicate Normalized(content: string, k: string, v: string) {
    HasKeyLine(content, k)
    && forall i :: 0 <= i < |Lines(content)| && IsKeyLine(Lines(content)[i], k)
                   ==> Lines(content)[i] == k + "=" + v
  }

  /** What one step does to the lines: rewrites the key's lines in place and keeps every
      other line, or appends one line when the key had none. */
  lemma SetEnvLines(content: string, k: string, v: string)
    requires ValidKey(k) && NoNewline(v)
    ensures HasKeyLine(content, k) ==>
      Lines(SetEnv(content, k, v)) == RewriteLines(Lines(content), k, v)
    ensures !HasKeyLine(content, k) ==>
      Lines(SetEnv(content, k, v)) == Lines(content) + [k + "=" + v]
  {
    if HasKeyLine(content, k) {
      LinesNoNewline(content);
      var r := RewriteLines(Lines(content), k, v);
      assert forall i :: 0 <= i < |r| ==> NoNewline(r[i]);
      LinesJoin(r);
    } else {
      assert content + "\n" + k + "=" + v == content + "\n" + (k + "=" + v);
      AppendLine(content, k + "=" + v);
    }
  }

  lemma SetEnvNormalizes(content: string, k: string, v: string)
    requires ValidKey(k) && NoNewline(v)
    ensures Normalized(SetEnv(content, k, v), k, v)
  {
    SetEnvLines(content, k, v);
    var after := Lines(SetEnv(content, k, v));
    assert IsKeyLine(k + "=" + v, k) by { assert (k + "=" + v)[..|k| + 1] == k + "="; }
    if HasKeyLine(content, k) {
      var i :| 0 <= i < |Lines(content)| && IsKeyLine(Lines(content)[i], k);
      assert IsKeyLine(after[i], k);
    } else {
      assert IsKeyLine(after[|after| - 1], k);
      forall i | 0 <= i < |after| - 1
        ensures !IsKeyLine(after[i], k)
      {
        assert after[i] == Lines(content)[i];
      }
    }
  }

  /** Setting a key that already reads `KEY=value` everywhere changes nothing. */
  lemma SetEnvNormalizedNoop(content: string, k: string, v: string)
    requires Normalized(content, k, v)
    ensures SetEnv(content, k, v) == content
  {
    assert RewriteLines(Lines(content), k, v) == Lines(content);
    JoinLines(content);
  }

  /** Two different keys never start the same line. */
  lemma KeyLineDistinct(line: string, k1: string, k2: string)
    requires ValidKey(k1) && ValidKey(k2) && k1 != k2
    requires IsKeyLine(line, k1)
    ensures !IsKeyLine(line, k2)
  {
    if IsKeyLine(line, k2) {
      KeyLineUnique(line, k1, k2);
    }
  }

  /** Setting another key keeps this key's lines as they are. */
  lemma SetEnvKeepsOther(content: string, k: string, v: string, k': string, v': string)
    requires ValidKey(k) && ValidKey(k') && NoNewline(v') && k != k'
    requires Normalized(content, k, v)
    ensures Normalized(SetEnv(content, k', v'), k, v)
  {
    SetEnvLines(content, k', v');
    var before, after := Lines(content), Lines(SetEnv(content, k', v'));
    assert IsKeyLine(k' + "=" + v', k') by { assert (k' + "=" + v')[..|k'| + 1] == k' + "="; }
    KeyLineDistinct(k' + "=" + v', k', k);
    forall i | 0 <= i < |before|
      ensures IsKeyLine(before[i], k) ==> after[i] == before[i]
    {
      if IsKeyLine(before[i], k) {
        KeyLineDistinct(before[i], k, k');
      }
    }
    var i :| 0 <= i < |before| && IsKeyLine(before[i], k);
    assert IsKeyLine(after[i], k);
  }

  /** Every key valid and every value on one line. */
  predicate ValidPairs(values: seq<(string, string)>) {
    forall i :: 0 <= i < |values| ==> ValidKey(values[i].0) && NoNewline(values[i].1)
  }

  /** Valid pairs with distinct keys. */
  predicate ValidValues(values: seq<(string, string)>) {
    ValidPairs(values)
    && (forall i, j :: 0 <= i < j < |values| ==> values[i].0 != values[j].0)
  }

  /** After the loop every key has a line, and each of its lines reads `KEY=value`. */
  lemma {:induction false} UpdateEnvNormalizes(content: string, values: seq<(string, string)>)
    requires ValidValues(values)
    ensures forall i :: 0 <= i < |values| ==> Normalized(UpdateEnv(content, values), values[i].0, values[i].1)
    decreases |values|
  {
    if values != [] {
      var n := |values| - 1;
      var init := values[..n];
      assert ValidValues(init);
      UpdateEnvNormalizes(content, init);
      var mid := UpdateEnv(content, init);
      forall i | 0 <= i < |values|
        ensures Normalized(UpdateEnv(content, values), values[i].0, values[i].1)
      {
        if i == n {
          SetEnvNormalizes(mid, values[n].0, values[n].1);
        } else {
          assert init[i] == values[i];
          SetEnvKeepsOther(mid, values[i].0, values[i].1, values[n].0, values[n].1);
        }
      }
    }
  }

  /** One step keeps a line that does not start with its key. */
  lemma SetEnvKeepsLine(content: string, k: string, v: string, i: nat)
    requires ValidKey(k) && NoNewline(v)
    requires i < |Lines(content)| && !IsKeyLine(Lines(content)[i], k)
    ensures i < |Lines(SetEnv(content, k, v))|
    ensures Lines(SetEnv(content, k, v))[i] == Lines(content)[i]
  {
    SetEnvLines(content, k, v);
  }

  /** A line of the original file that starts with none of the keys keeps its place
      and its text; new lines only ever go after the original ones. */
  lemma {:induction false} UpdateEnvKeepsOtherLines(content: string, values: seq<(string, string)>, i: nat)
    requires ValidPairs(values)
    requires i < |Lines(content)|
    requires forall j :: 0 <= j < |values| ==> !IsKeyLine(Lines(content)[i], values[j].0)
    ensures i < |Lines(UpdateEnv(content, values))|
    ensures Lines(UpdateEnv(content, values))[i] == Lines(content)[i]
    decreases |values|
  {
    if values != [] {
      var n := |values| - 1;
      var init := values[..n];
      assert forall j :: 0 <= j < |init| ==> init[j] == values[j];
      UpdateEnvKeepsOtherLines(content, init, i);
      var mid := UpdateEnv(content, init);
      var k, v := values[n].0, values[n].1;
      assert UpdateEnv(content, values) == SetEnv(mid, k, v);
      assert ValidKey(k) && NoNewline(v) && !IsKeyLine(Lines(content)[i], k);
      SetEnvKeepsLine(mid, k, v, i);
    }
  }

  lemma {:induction false} UpdateEnvNoop(content: string, values: seq<(string, string)>)
    requires forall i :: 0 <= i < |values| ==> Normalized(content, values[i].0, values[i].1)
    ensures UpdateEnv(content, values) == content
    decreases |values|
  {
    if values != [] {
      var n := |values| - 1;
      UpdateEnvNoop(content, values[..n]);
      SetEnvNormalizedNoop(content, values[n].0, values[n].1);
    }
  }

  /** Running the env update twice with the same values gives the content of running it once. */
  lemma UpdateEnvIdempotent(content: string, values: seq<(string, string)>)
    requires ValidValues(values)
    ensures UpdateEnv(UpdateEnv(content, values), values) == UpdateEnv(content, values)
  {
    UpdateEnvNormalizes(content, values);
    UpdateEnvNoop(UpdateEnv(content, values), values);
  }

  /** `$this->option(...) ?: $this->ask(...)`: the option when truthy, else the answer. */
  function OptionOrAnswer(option: Option<string>, answer: string): (r: string)
    ensures TruthyStr(option) ==> r == option.value
    ensures !TruthyStr(option) ==> r == answer
  {
    if TruthyStr(option) then option.value else answer
  }

  /** What `handle` reads: the three credential options, which may be absent, the
      `--host` and `--port` options, which have defaults, and the answers the prompts
      would give. A prompt only matters when its option is falsy. */
  datatype InstallInput = InstallInput(
    appIdOption: Option<string>, appKeyOption: Option<string>, appSecretOption: Option<string>,
    host: string, port: string,
    appIdAnswer: string, appKeyAnswer: string, appSecretAnswer: string)

  function AppId(input: InstallInput): string { OptionOrAnswer(input.appIdOption, input.appIdAnswer) }
  function AppKey(input: InstallInput): string { OptionOrAnswer(input.appKeyOption, input.appKeyAnswer) }
  function AppSecret(input: InstallInput): string { OptionOrAnswer(input.appSecretOption, input.appSecretAnswer) }

  /** Every option and answer fits on one line. */
  predicate SingleLine(input: InstallInput) {
    (input.appIdOption.Some? ==> NoNewline(input.appIdOption.value))
    && (input.appKeyOption.Some? ==> NoNewline(input.appKeyOption.value))
    && (input.appSecretOption.Some? ==> NoNewline(input.appSecretOption.value))
    && NoNewline(input.host) && NoNewline(input.port)
    && NoNewline(input.appIdAnswer) && NoNewline(input.appKeyAnswer) && NoNewline(input.appSecretAnswer)
  }

  /** The keys `handle` passes to `updateEnvFile`, in order. */
  const InstallKeys := ["BROADCAST_CONNECTION", "LIVEWAVE_APP_ID", "LIVEWAVE_APP_KEY",
                        "LIVEWAVE_APP_SECRET", "LIVEWAVE_HOST", "LIVEWAVE_PORT"]

  /** The values for those keys: the connection name, then the credentials, host and port. */
  function InstallSettings(input: InstallInput): seq<string> {
    ["livewave", AppId(input), AppKey(input), AppSecret(input), input.host, input.port]
  }

  /** The pairs `handle` passes to `updateEnvFile`, in order. */
  function InstallValues(input: InstallInput): (values: seq<(string, string)>)
    ensures |values| == 6
    ensures forall i :: 0 <= i < 6 ==> values[i] == (InstallKeys[i], InstallSettings(input)[i])
    ensures SingleLine(input) ==> ValidValues(values)
  {
    var settings := InstallSettings(input);
    var values := seq(6, i requires 0 <= i < 6 => (InstallKeys[i], settings[i]));
    InstallValuesValid(input, values);
    values
  }

  lemma InstallValuesValid(input: InstallInput, values: seq<(string, string)>)
    requires |values| == 6
    requires forall i :: 0 <= i < 6 ==> values[i] == (InstallKeys[i], InstallSettings(input)[i])
    ensures SingleLine(input) ==> ValidValues(values)
  {
    if SingleLine(input) {
      InstallSettingsSingleLine(input);
      InstallKeysValid();
      assert ValidPairs(values);
      InstallKeysDistinct();
    }
  }

  lemma InstallSettingsSingleLine(input: InstallInput)
    requires SingleLine(input)
    ensures forall i :: 0 <= i < 6 ==> NoNewline(InstallSettings(input)[i])
  {
    assert NoNewline(AppId(input)) && NoNewline(AppKey(input)) && NoNewline(AppSecret(input));
  }

  /** The installer's keys have no `=` and no newline. */
  lemma InstallKeysValid()
    ensures forall i :: 0 <= i < |InstallKeys| ==> ValidKey(InstallKeys[i])
  {
    forall i | 0 <= i < |InstallKeys|
      ensures ValidKey(InstallKeys[i])
    {
      UpperCaseKey(InstallKeys[i]);
    }
  }

  /** A key of capitals and underscores is valid. */
  lemma UpperCaseKey(k: string)
    requires forall j :: 0 <= j < |k| ==> 'A' <= k[j] <= 'Z' || k[j] == '_'
    ensures ValidKey(k)
  {
  }

  /** The installer's keys are pairwise distinct. */
  lemma InstallKeysDistinct()
    ensures forall i, j :: 0 <= i < j < |InstallKeys| ==> InstallKeys[i] != InstallKeys[j]
  {
    forall i, j | 0 <= i < j < |InstallKeys|
      ensures InstallKeys[i] != InstallKeys[j]
    {
      assert |InstallKeys[i]| != |InstallKeys[j]| || InstallKeys[i][9] != InstallKeys[j][9];
    }
  }

  /** After install the env selects the livewave connection and holds each credential. */
  lemma InstallConfiguresEnv(content: string, input: InstallInput)
    requires SingleLine(input)
    ensures var env := UpdateEnv(content, InstallValues(input));
      Normalized(env, "BROADCAST_CONNECTION", "livewave")
      && Normalized(env, "LIVEWAVE_APP_ID", AppId(input)) && Normalized(env, "LIVEWAVE_APP_KEY", AppKey(input))
      && Normalized(env, "LIVEWAVE_APP_SECRET", AppSecret(input))
      && Normalized(env, "LIVEWAVE_HOST", input.host) && Normalized(env, "LIVEWAVE_PORT", input.port)
  {
    var values := InstallValues(input);
    UpdateEnvNormalizes(content, values);
    assert values[0] == ("BROADCAST_CONNECTION", "livewave") && values[1] == ("LIVEWAVE_APP_ID", AppId(input));
    assert values[2] == ("LIVEWAVE_APP_KEY", AppKey(input)) && values[3] == ("LIVEWAVE_APP_SECRET", AppSecret(input));
    assert values[4] == ("LIVEWAVE_HOST", input.host) && values[5] == ("LIVEWAVE_PORT", input.port);
  }

  /** A credential given as an option is written as given; a missing, empty or "0"
      option falls back to the prompt, whose answer is written instead. */
  lemma OptionsOverridePrompts(content: string, input: InstallInput)
    requires SingleLine(input)
    ensures var env := UpdateEnv(content, InstallValues(input));
      (TruthyStr(input.appIdOption) ==> Normalized(env, "LIVEWAVE_APP_ID", input.appIdOption.value))
      && (!TruthyStr(input.appIdOption) ==> Normalized(env, "LIVEWAVE_APP_ID", input.appIdAnswer))
      && (TruthyStr(input.appKeyOption) ==> Normalized(env, "LIVEWAVE_APP_KEY", input.appKeyOption.value))
      && (!TruthyStr(input.appKeyOption) ==> Normalized(env, "LIVEWAVE_APP_KEY", input.appKeyAnswer))
      && (TruthyStr(input.appSecretOption) ==> Normalized(env, "LIVEWAVE_APP_SECRET", input.appSecretOption.value))
      && (!TruthyStr(input.appSecretOption) ==> Normalized(env, "LIVEWAVE_APP_SECRET", input.appSecretAnswer))
  {
    InstallConfiguresEnv(content, input);
  }

  /** `--app-id=0` is falsy: the prompted App ID is written, not "0". */
  lemma ZeroAppIdOptionPrompts(content: string, input: InstallInput)
    requires SingleLine(input) && input.appIdOption == Some("0")
    ensures Normalized(UpdateEnv(content, InstallValues(input)), "LIVEWAVE_APP_ID", input.appIdAnswer)
  {
    OptionsOverridePrompts(content, input);
  }

  const ConnectionsNeedle := "'connections' => ["
  const LivewaveMarker := "'livewave'"

  /** The text that replaces each `'connections' => [`. */
  const ConnectionsReplacement :=
    ConnectionsNeedle + "\n\n        " + LivewaveMarker + " => [\n            'driver' => 'livewave',\n        ],"

  /** `updateBroadcastingConfig`: a missing file stays missing; a file that already
      mentions `'livewave'` is left alone; otherwise every `'connections' => [` is
      followed by the livewave connection, and a file without one is unchanged. */
  function UpdateBroadcastingConfig(config: Option<string>): (r: Option<string>)
    ensures r.Some? <==> config.Some?
    ensures config.Some? && Contains(config.value, LivewaveMarker) ==> r == config
    ensures config.Some? && !Contains(config.value, ConnectionsNeedle) ==> r == config
    ensures config.Some? && Contains(config.value, ConnectionsNeedle) ==> Contains(r.value, LivewaveMarker)
  {
    match config
    case None => None
    case Some(content) =>
      if Contains(content, LivewaveMarker) then Some(content)
      else
        ConfigEdit(content);
        Some(Replace(content, ConnectionsNeedle, ConnectionsReplacement))
  }

  /** The replacement leaves a file without the needle alone and puts the marker into
      one with it. */
  lemma ConfigEdit(content: string)
    ensures !Contains(content, ConnectionsNeedle) ==>
      Replace(content, ConnectionsNeedle, ConnectionsReplacement) == content
    ensures Contains(content, ConnectionsNeedle) ==>
      Contains(Replace(content, ConnectionsNeedle, ConnectionsReplacement), LivewaveMarker)
  {
    if Contains(content, ConnectionsNeedle) {
      ContainsMiddle(ConnectionsNeedle + "\n\n        ", LivewaveMarker,
                     " => [\n            'driver' => 'livewave',\n        ],");
      ReplaceIntroduces(content, ConnectionsNeedle, ConnectionsReplacement, LivewaveMarker);
    } else {
      ReplaceAbsent(content, ConnectionsNeedle, ConnectionsReplacement);
    }
  }

  /** A second run of the config update is a no-op. */
  lemma ConfigIdempotent(config: Option<string>)
    ensures UpdateBroadcastingConfig(UpdateBroadcastingConfig(config)) == UpdateBroadcastingConfig(config)
  {
  }
}
