/** The test double of the client (src/Testing/LiveWaveFake.php): an append-only log of
    broadcasts and one of notifications, assertion predicates over them, and a fake
    notification builder that records the array it accumulated. */
module Testing {
  import opened Php
  import Client
  import Webhook

  /** One logged broadcast: `['channel' => ..., 'event' => ..., 'data' => ..., 'type' => ...]`. */
  datatype BroadcastRecord = BroadcastRecord(channel: string, event: string, data: PhpArray, kind: string)

  /** `collect($s)->filter($p)`, keeping order. */
  function Filter<T>(s: seq<T>, p: T -> bool): (m: seq<T>)
    ensures |m| <= |s|
    ensures forall x :: x in m ==> x in s && p(x)
  {
    if s == [] then [] else (if p(s[0]) then [s[0]] else []) + Filter(s[1..], p)
  }

  /** `->count() > 0` after a filter: some element passes. */
  lemma {:induction false} FilterNonEmpty<T>(s: seq<T>, p: T -> bool)
    ensures |Filter(s, p)| > 0 <==> exists i :: 0 <= i < |s| && p(s[i])
  {
    if s != [] {
      FilterNonEmpty(s[1..], p);
      if exists i :: 0 <= i < |s| && p(s[i]) {
        var i :| 0 <= i < |s| && p(s[i]);
        if i > 0 { assert p(s[1..][i - 1]); }
      }
      if exists i :: 0 <= i < |s[1..]| && p(s[1..][i]) {
        var i :| 0 <= i < |s[1..]| && p(s[1..][i]);
        assert p(s[i + 1]);
      }
    }
  }

  /** The filter of `assertBroadcast`: channel and event match, and the callback,
      when given, accepts the data. */
  predicate Matches(r: BroadcastRecord, channel: string, event: string, callback: Option<Value -> bool>) {
    r.channel == channel && r.event == event && (callback.Some? ==> callback.value(Arr(r.data)))
  }

  /** The records `broadcastToMany` appends: one `batch` record per channel, in order. */
  function BatchRecords(channels: seq<string>, event: string, data: PhpArray): (rs: seq<BroadcastRecord>)
    ensures |rs| == |channels|
    ensures forall i :: 0 <= i < |channels| ==> rs[i] == BroadcastRecord(channels[i], event, data, "batch")
  {
    seq(|channels|, i requires 0 <= i < |channels| => BroadcastRecord(channels[i], event, data, "batch"))
  }

  class LiveWaveFake {
    var broadcasts: seq<BroadcastRecord>
    var notifications: seq<PhpArray>
    const hmac: Client.HmacSha256

    constructor (hmac: Client.HmacSha256)
      ensures broadcasts == [] && notifications == [] && this.hmac == hmac
    {
      this.hmac := hmac;
      broadcasts := [];
      notifications := [];
    }

    method Broadcast(channel: string, event: string, data: PhpArray) returns (ok: bool)
      modifies this`broadcasts
      ensures broadcasts == old(broadcasts) + [BroadcastRecord(channel, event, data, "public")]
      ensures notifications == old(notifications)
      ensures ok
      ensures AssertBroadcast(channel, event, None)
    {
      broadcasts := broadcasts + [BroadcastRecord(channel, event, data, "public")];
      ok := true;
      assert Matches(broadcasts[|broadcasts| - 1], channel, event, None);
    }

    method BroadcastToPrivate(channel: string, event: string, data: PhpArray) returns (ok: bool)
      modifies this`broadcasts
      ensures broadcasts == old(broadcasts) + [BroadcastRecord(Client.PrivatePrefix + channel, event, data, "private")]
      ensures notifications == old(notifications)
      ensures ok
      ensures AssertBroadcastToPrivate(channel, event, None)
    {
      broadcasts := broadcasts + [BroadcastRecord(Client.PrivatePrefix + channel, event, data, "private")];
      ok := true;
      assert Matches(broadcasts[|broadcasts| - 1], Client.PrivatePrefix + channel, event, None);
    }

    method BroadcastToPresence(channel: string, event: string, data: PhpArray) returns (ok: bool)
      modifies this`broadcasts
      ensures broadcasts == old(broadcasts) + [BroadcastRecord(Client.PresencePrefix + channel, event, data, "presence")]
      ensures notifications == old(notifications)
      ensures ok
      ensures AssertBroadcastToPresence(channel, event, None)
    {
      broadcasts := broadcasts + [BroadcastRecord(Client.PresencePrefix + channel, event, data, "presence")];
      ok := true;
      assert Matches(broadcasts[|broadcasts| - 1], Client.PresencePrefix + channel, event, None);
    }

    method BroadcastToMany(channels: seq<string>, event: string, data: PhpArray) returns (ok: bool)
      modifies this`broadcasts
      ensures broadcasts == old(broadcasts) + BatchRecords(channels, event, data)
      ensures |broadcasts| == |old(broadcasts)| + |channels|
      ensures notifications == old(notifications)
      ensures ok
    {
      var i := 0;
      while i < |channels|
        invariant 0 <= i <= |channels|
        invariant broadcasts == old(broadcasts) + BatchRecords(channels[..i], event, data)
      {
        broadcasts := broadcasts + [BroadcastRecord(channels[i], event, data, "batch")];
        i := i + 1;
      }
      assert channels[..i] == channels;
      ok := true;
    }

    method RecordNotification(notification: PhpArray)
      modifies this`notifications
      ensures notifications == old(notifications) + [notification]
      ensures broadcasts == old(broadcasts)
    {
      notifications := notifications + [notification];
    }

    method Notify() returns (b: NotificationBuilderFake)
      ensures fresh(b) && b.fake == this && b.notification == [] && b.Valid()
    {
      b := new NotificationBuilderFake(this);
    }

    /** `assertBroadcast` passes exactly when some record matches. */
    function AssertBroadcast(channel: string, event: string, callback: Option<Value -> bool>): (pass: bool)
      reads this
      ensures pass <==> exists i :: 0 <= i < |broadcasts| && Matches(broadcasts[i], channel, event, callback)
    {
      var p := (r: BroadcastRecord) => Matches(r, channel, event, callback);
      FilterNonEmpty(broadcasts, p);
      |Filter(broadcasts, p)| > 0
    }

    function AssertBroadcastToPrivate(channel: string, event: string, callback: Option<Value -> bool>): (pass: bool)
      reads this
      ensures pass <==> exists i :: 0 <= i < |broadcasts|
                          && Matches(broadcasts[i], Client.PrivatePrefix + channel, event, callback)
    {
      AssertBroadcast(Client.PrivatePrefix + channel, event, callback)
    }

    function AssertBroadcastToPresence(channel: string, event: string, callback: Option<Value -> bool>): (pass: bool)
      reads this
      ensures pass <==> exists i :: 0 <= i < |broadcasts|
                          && Matches(broadcasts[i], Client.PresencePrefix + channel, event, callback)
    {
      AssertBroadcast(Client.PresencePrefix + channel, event, callback)
    }

    function AssertNothingBroadcast(): (pass: bool)
      reads this
      ensures pass <==> broadcasts == []
    {
      |broadcasts| == 0
    }

    /** `assertNotificationSent`: some notification passes the callback, or, with no
        callback, some notification was sent. */
    function AssertNotificationSent(callback: Option<Value -> bool>): (pass: bool)
      reads this
      ensures callback.None? ==> (pass <==> notifications != [])
      ensures callback.Some? ==>
        (pass <==> exists i :: 0 <= i < |notifications| && callback.value(Arr(notifications[i])))
    {
      match callback
      case None => |notifications| > 0
      case Some(cb) =>
        var p := (n: PhpArray) => cb(Arr(n));
        FilterNonEmpty(notifications, p);
        |Filter(notifications, p)| > 0
    }

    function AssertNoNotificationsSent(): (pass: bool)
      reads this
      ensures pass <==> notifications == []
    {
      |notifications| == 0
    }

    /** The fake signs with a fixed secret. */
    function GenerateSignature(payload: string): (s: string)
      ensures s == hmac("fake-secret", payload)
    {
      hmac("fake-secret", payload)
    }

    /** The fake accepts every signature. */
    function VerifySignature(payload: string, signature: string): (ok: bool)
      ensures ok
    {
      true
    }
  }

  class NotificationBuilderFake {
    var notification: PhpArray
    const fake: LiveWaveFake

    /** The accumulated array holds each key once. */
    predicate Valid()
      reads this
    {
      DistinctKeys(notification)
    }

    constructor (fake: LiveWaveFake)
      ensures this.fake == fake && notification == []
      ensures Valid()
    {
      this.fake := fake;
      notification := [];
    }

    /** `$this->notification[$key] = $value; return $this;` */
    method Set(key: string, v: Value) returns (self: NotificationBuilderFake)
      requires Valid()
      modifies this`notification
      ensures notification == Put(old(notification), StrKey(key), v)
      ensures Valid() && Get(notification, StrKey(key)) == Some(v)
      ensures self == this
    {
      PutKeepsDistinct(notification, StrKey(key), v);
      GetPut(notification, StrKey(key), v, StrKey(key));
      notification := Put(notification, StrKey(key), v);
      self := this;
    }

    method Title(title: string) returns (self: NotificationBuilderFake)
      requires Valid()
      modifies this`notification
      ensures Valid()
      ensures notification == Put(old(notification), StrKey("title"), Str(title)) && self == this
    {
      self := Set("title", Str(title));
    }

    method Body(body: string) returns (self: NotificationBuilderFake)
      requires Valid()
      modifies this`notification
      ensures Valid()
      ensures notification == Put(old(notification), StrKey("body"), Str(body)) && self == this
    {
      self := Set("body", Str(body));
    }

    method Data(data: PhpArray) returns (self: NotificationBuilderFake)
      requires Valid()
      modifies this`notification
      ensures Valid()
      ensures notification == Put(old(notification), StrKey("data"), Arr(data)) && self == this
    {
      self := Set("data", Arr(data));
    }

    method User(userId: int) returns (self: NotificationBuilderFake)
      requires Valid()
      modifies this`notification
      ensures Valid()
      ensures notification == Put(old(notification), StrKey("user_id"), Int(userId)) && self == this
    {
      self := Set("user_id", Int(userId));
    }

    method Users(userIds: PhpArray) returns (self: NotificationBuilderFake)
      requires Valid()
      modifies this`notification
      ensures Valid()
      ensures notification == Put(old(notification), StrKey("user_ids"), Arr(userIds)) && self == this
    {
      self := Set("user_ids", Arr(userIds));
    }

    method Channel(channel: string) returns (self: NotificationBuilderFake)
      requires Valid()
      modifies this`notification
      ensures Valid()
      ensures notification == Put(old(notification), StrKey("channel"), Str(channel)) && self == this
    {
      self := Set("channel", Str(channel));
    }

    method Type(kind: string) returns (self: NotificationBuilderFake)
      requires Valid()
      modifies this`notification
      ensures Valid()
      ensures notification == Put(old(notification), StrKey("type"), Str(kind)) && self == this
    {
      self := Set("type", Str(kind));
    }

    method Success() returns (self: NotificationBuilderFake)
      requires Valid()
      modifies this`notification
      ensures Valid()
      ensures notification == Put(old(notification), StrKey("type"), Str("success")) && self == this
    {
      self := Type("success");
    }

    method Warning() returns (self: NotificationBuilderFake)
      requires Valid()
      modifies this`notification
      ensures Valid()
      ensures notification == Put(old(notification), StrKey("type"), Str("warning")) && self == this
    {
      self := Type("warning");
    }

    method Error() returns (self: NotificationBuilderFake)
      requires Valid()
      modifies this`notification
      ensures Valid()
      ensures notification == Put(old(notification), StrKey("type"), Str("error")) && self == this
    {
      self := Type("error");
    }

    /** Records the accumulated array once with the fake and reports success. */
    method Send() returns (ok: bool)
      modifies fake`notifications
      ensures fake.notifications == old(fake.notifications) + [notification]
      ensures fake.broadcasts == old(fake.broadcasts)
      ensures ok
    {
      fake.RecordNotification(notification);
      ok := true;
    }
  }

  /** Setting a key twice keeps only the later value, and the key is then present once. */
  lemma LaterSetterWins(n: PhpArray, key: string, first: Value, second: Value)
    requires DistinctKeys(n)
    ensures Put(Put(n, StrKey(key), first), StrKey(key), second) == Put(n, StrKey(key), second)
    ensures Get(Put(Put(n, StrKey(key), first), StrKey(key), second), StrKey(key)) == Some(second)
    ensures DistinctKeys(Put(Put(n, StrKey(key), first), StrKey(key), second))
  {
    PutPut(n, StrKey(key), first, second);
    GetPut(n, StrKey(key), second, StrKey(key));
    PutKeepsDistinct(n, StrKey(key), second);
  }

  /** A public broadcast followed by a private one, on a fake with no record on the
      bare private channel: both are found by their own assertion, the private one is
      not found under its bare name, and no notification is recorded. */
  method PrivateAfterPublic(f: LiveWaveFake, public: string, channel: string, publicEvent: string,
                            event: string, data: PhpArray)
    requires public != channel
    requires forall i :: 0 <= i < |f.broadcasts| ==> f.broadcasts[i].channel != channel
    modifies f
    ensures f.AssertBroadcast(public, publicEvent, None)
    ensures f.AssertBroadcastToPrivate(channel, event, None)
    ensures !f.AssertBroadcast(channel, event, None)
    ensures f.notifications == old(f.notifications)
  {
    var ok := f.Broadcast(public, publicEvent, data);
    ok := f.BroadcastToPrivate(channel, event, data);
    var n := |f.broadcasts|;
    assert f.broadcasts[n - 2].channel == public;
    assert f.broadcasts[n - 1].channel == Client.PrivatePrefix + channel;
    assert |Client.PrivatePrefix + channel| != |channel|;
  }

  /** Once the fake stands in for the client, the webhook middleware never rejects a
      request as invalid: a request with a truthy signature is refused only for a stale
      timestamp and is otherwise forwarded unchanged. */
  lemma FakeAcceptsAnySignature(f: LiveWaveFake, req: Webhook.WebhookRequest, now: int,
                                strtotime: Webhook.StrToTime)
    ensures var o := Webhook.Handle(req, now, strtotime, (p, s) => f.VerifySignature(p, s));
      o != Webhook.InvalidSignature
      && (TruthyStr(req.signature) ==>
            (o == Webhook.TimestampExpired
             <==> TruthyStr(req.timestamp) && Webhook.Stale(req.timestamp.value, now, strtotime)))
      && (o.Accepted? <==>
            TruthyStr(req.signature)
            && !(TruthyStr(req.timestamp) && Webhook.Stale(req.timestamp.value, now, strtotime)))
  {
  }

  /** The fake signs like a real client whose secret is `fake-secret`, so such a client
      accepts the fake's signatures. */
  lemma FakeSignsWithFakeSecret(f: LiveWaveFake, c: Client.LiveWaveClient, payload: string)
    requires c.apiSecret == "fake-secret" && f.hmac == c.hmac
    ensures f.GenerateSignature(payload) == c.GenerateSignature(payload)
    ensures c.VerifySignature(payload, f.GenerateSignature(payload))
  {
  }
}
