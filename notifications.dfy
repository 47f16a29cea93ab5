/** The fluent notification builder (src/Notifications/NotificationBuilder.php): setters
    overwrite one field each; `send` builds the payload by conditional key insertion and
    picks the endpoint by strict precedence user, users, channel. */
module Notifications {
  import opened Php
  import Client

  datatype SendOutcome =
    | Sent(dispatch: Client.Dispatch)
    | InvalidArgument(message: string)

  const NoRecipientMessage := "No recipient specified. Use user(), users(), or channel()."

  /** `if ($this->userId)` on a `?int`: null and 0 are falsy. */
  predicate TruthyInt(o: Option<int>) {
    o.Some? && o.value != 0
  }

  class NotificationBuilder {
    var title: Option<string>
    var body: Option<string>
    var data: PhpArray
    var userId: Option<int>
    var userIds: PhpArray
    var channel: Option<string>
    var kind: Option<string>
    var icon: Option<string>
    var actionUrl: Option<string>
    var actionText: Option<string>
    /** The shared HTTP client's verdict on a request: `->post(...)->successful()`. */
    const transport: Client.Post -> bool

    constructor (transport: Client.Post -> bool)
      ensures this.transport == transport
      ensures title == None && body == None && data == [] && userId == None && userIds == []
      ensures channel == None && kind == Some("info") && icon == None
      ensures actionUrl == None && actionText == None
    {
      this.transport := transport;
      title, body, data, userId, userIds := None, None, [], None, [];
      channel, kind, icon, actionUrl, actionText := None, Some("info"), None, None, None;
    }

    method Title(title: string) returns (self: NotificationBuilder)
      modifies this`title
      ensures this.title == Some(title) && self == this
    {
      this.title := Some(title);
      self := this;
    }

    method Body(body: string) returns (self: NotificationBuilder)
      modifies this`body
      ensures this.body == Some(body) && self == this
    {
      this.body := Some(body);
      self := this;
    }

    method Data(data: PhpArray) returns (self: NotificationBuilder)
      modifies this`data
      ensures this.data == data && self == this
    {
      this.data := data;
      self := this;
    }

    method User(userId: int) returns (self: NotificationBuilder)
      modifies this`userId
      ensures this.userId == Some(userId) && self == this
    {
      this.userId := Some(userId);
      self := this;
    }

    method Users(userIds: PhpArray) returns (self: NotificationBuilder)
      modifies this`userIds
      ensures this.userIds == userIds && self == this
    {
      this.userIds := userIds;
      self := this;
    }

    method Channel(channel: string) returns (self: NotificationBuilder)
      modifies this`channel
      ensures this.channel == Some(channel) && self == this
    {
      this.channel := Some(channel);
      self := this;
    }

    method Type(kind: string) returns (self: NotificationBuilder)
      modifies this`kind
      ensures this.kind == Some(kind) && self == this
    {
      this.kind := Some(kind);
      self := this;
    }

    method Success() returns (self: NotificationBuilder)
      modifies this`kind
      ensures kind == Some("success") && self == this
    {
      self := Type("success");
    }

    method Warning() returns (self: NotificationBuilder)
      modifies this`kind
      ensures kind == Some("warning") && self == this
    {
      self := Type("warning");
    }

    method Error() returns (self: NotificationBuilder)
      modifies this`kind
      ensures kind == Some("error") && self == this
    {
      self := Type("error");
    }

    method Icon(icon: string) returns (self: NotificationBuilder)
      modifies this`icon
      ensures this.icon == Some(icon) && self == this
    {
      this.icon := Some(icon);
      self := this;
    }

    method Action(text: string, url: string) returns (self: NotificationBuilder)
      modifies this`actionText, this`actionUrl
      ensures actionText == Some(text) && actionUrl == Some(url) && self == this
    {
      actionText := Some(text);
      actionUrl := Some(url);
      self := this;
    }

    /** The payload before a recipient is added. */
    function Payload(): (p: PhpArray)
      reads this
    {
      PayloadOf(title, body, kind, data, icon, actionText, actionUrl)
    }

    /** `send`: the request for the first recipient kind that is set, or the error. */
    function Send(): (r: SendOutcome)
      reads this
      ensures r.Sent? <==> TruthyInt(userId) || userIds != [] || TruthyStr(channel)
      ensures r.InvalidArgument? ==> r.message == NoRecipientMessage
      ensures r.Sent? ==> r.dispatch.successful == transport(r.dispatch.request)
      ensures TruthyInt(userId) ==>
        r.dispatch.request == Client.Post("/api/notifications", Put(Payload(), StrKey("user_id"), Int(userId.value)))
      ensures !TruthyInt(userId) && userIds != [] ==>
        r.dispatch.request == Client.Post("/api/notifications/batch", Put(Payload(), StrKey("user_ids"), Arr(userIds)))
      ensures !TruthyInt(userId) && userIds == [] && TruthyStr(channel) ==>
        r.dispatch.request == Client.Post("/api/notifications/channel", Put(Payload(), StrKey("channel"), Str(channel.value)))
    {
      var payload := Payload();
      if TruthyInt(userId) then
        Submit("/api/notifications", Put(payload, StrKey("user_id"), Int(userId.value)))
      else if userIds != [] then
        Submit("/api/notifications/batch", Put(payload, StrKey("user_ids"), Arr(userIds)))
      else if TruthyStr(channel) then
        Submit("/api/notifications/channel", Put(payload, StrKey("channel"), Str(channel.value)))
      else
        InvalidArgument(NoRecipientMessage)
    }

    /** The private `post` helper: one request to the transport. */
    function Submit(path: string, payload: PhpArray): (r: SendOutcome)
      ensures r.Sent? && r.dispatch.request == Client.Post(path, payload)
      ensures r.dispatch.successful == transport(r.dispatch.request)
    {
      Sent(Client.Dispatch(Client.Post(path, payload), transport(Client.Post(path, payload))))
    }
  }

  lemma {:induction false} Lookup3(a: PhpArray, b: PhpArray, c: PhpArray, k: Key)
    ensures Get(a + b + c, k) ==
      if HasKey(a, k) then Get(a, k) else if HasKey(b, k) then Get(b, k) else Get(c, k)
    ensures HasKey(a + b + c, k) <==> HasKey(a, k) || HasKey(b, k) || HasKey(c, k)
  {
    assert a + b + c == a + (b + c);
    GetAppend(a, b + c, k);
    GetAppend(b, c, k);
  }

  function BasePayload(title: Option<string>, body: Option<string>, kind: Option<string>, data: PhpArray)
    : PhpArray
  {
    [Client.Field("title", NullableStr(title)), Client.Field("body", NullableStr(body)),
     Client.Field("type", NullableStr(kind)), Client.Field("data", Arr(data))]
  }

  function IconPart(icon: Option<string>): PhpArray {
    if TruthyStr(icon) then [Client.Field("icon", Str(icon.value))] else []
  }

  function ActionPart(actionText: Option<string>, actionUrl: Option<string>): PhpArray {
    if TruthyStr(actionUrl) && TruthyStr(actionText) then
      [Client.Field("action", Arr([Client.Field("text", Str(actionText.value)),
                                   Client.Field("url", Str(actionUrl.value))]))]
    else []
  }

  /** The payload `send` builds, in insertion order, before the recipient key. */
  function PayloadOf(title: Option<string>, body: Option<string>, kind: Option<string>, data: PhpArray,
                     icon: Option<string>, actionText: Option<string>, actionUrl: Option<string>): PhpArray
  {
    BasePayload(title, body, kind, data) + IconPart(icon) + ActionPart(actionText, actionUrl)
  }

  /** Title, body, type and data are always present, null where never set. */
  lemma PayloadAlwaysHasBase(title: Option<string>, body: Option<string>, kind: Option<string>, data: PhpArray,
                             icon: Option<string>, actionText: Option<string>, actionUrl: Option<string>)
    ensures var p := PayloadOf(title, body, kind, data, icon, actionText, actionUrl);
      Get(p, StrKey("title")) == Some(NullableStr(title)) && Get(p, StrKey("body")) == Some(NullableStr(body))
      && Get(p, StrKey("type")) == Some(NullableStr(kind)) && Get(p, StrKey("data")) == Some(Arr(data))
  {
    var base, ic, ac := BasePayload(title, body, kind, data), IconPart(icon), ActionPart(actionText, actionUrl);
    Lookup3(base, ic, ac, StrKey("title"));
    Lookup3(base, ic, ac, StrKey("body"));
    Lookup3(base, ic, ac, StrKey("type"));
    Lookup3(base, ic, ac, StrKey("data"));
    GetAt(base, 0);
    GetAt(base, 1);
    GetAt(base, 2);
    GetAt(base, 3);
  }

  /** The icon is included exactly when it is truthy. */
  lemma PayloadIcon(title: Option<string>, body: Option<string>, kind: Option<string>, data: PhpArray,
                    icon: Option<string>, actionText: Option<string>, actionUrl: Option<string>)
    ensures var p := PayloadOf(title, body, kind, data, icon, actionText, actionUrl);
      (HasKey(p, StrKey("icon")) <==> TruthyStr(icon))
      && (TruthyStr(icon) ==> Get(p, StrKey("icon")) == Some(Str(icon.value)))
  {
    var base, ic, ac := BasePayload(title, body, kind, data), IconPart(icon), ActionPart(actionText, actionUrl);
    Lookup3(base, ic, ac, StrKey("icon"));
    if ic != [] {
      GetAt(ic, 0);
    }
  }

  /** The action is included exactly when both its text and its url are truthy. */
  lemma PayloadAction(title: Option<string>, body: Option<string>, kind: Option<string>, data: PhpArray,
                      icon: Option<string>, actionText: Option<string>, actionUrl: Option<string>)
    ensures var p := PayloadOf(title, body, kind, data, icon, actionText, actionUrl);
      (HasKey(p, StrKey("action")) <==> TruthyStr(actionUrl) && TruthyStr(actionText))
      && (TruthyStr(actionUrl) && TruthyStr(actionText) ==>
            Get(p, StrKey("action"))
            == Some(Arr([Client.Field("text", Str(actionText.value)), Client.Field("url", Str(actionUrl.value))])))
  {
    var ac := ActionPart(actionText, actionUrl);
    Lookup3(BasePayload(title, body, kind, data), IconPart(icon), ac, StrKey("action"));
    if ac != [] {
      GetAt(ac, 0);
    }
  }

  /** The recipient keys are absent until `send` picks a route. */
  lemma PayloadHasNoRecipient(title: Option<string>, body: Option<string>, kind: Option<string>, data: PhpArray,
                              icon: Option<string>, actionText: Option<string>, actionUrl: Option<string>)
    ensures var p := PayloadOf(title, body, kind, data, icon, actionText, actionUrl);
      !HasKey(p, StrKey("user_id")) && !HasKey(p, StrKey("user_ids")) && !HasKey(p, StrKey("channel"))
  {
    var base, ic, ac := BasePayload(title, body, kind, data), IconPart(icon), ActionPart(actionText, actionUrl);
    Lookup3(base, ic, ac, StrKey("user_id"));
    Lookup3(base, ic, ac, StrKey("user_ids"));
    Lookup3(base, ic, ac, StrKey("channel"));
  }

  /** The recipient key `send` adds goes after everything else in the payload, and
      carries the recipient of the route taken. */
  lemma SendAppendsRecipient(b: NotificationBuilder)
    requires b.Send().Sent?
    ensures var body := b.Send().dispatch.request.body;
      |body| == |b.Payload()| + 1 && body[..|b.Payload()|] == b.Payload()
      && body[|b.Payload()|] ==
         if TruthyInt(b.userId) then Client.Field("user_id", Int(b.userId.value))
         else if b.userIds != [] then Client.Field("user_ids", Arr(b.userIds))
         else Client.Field("channel", Str(b.channel.value))
  {
    PayloadHasNoRecipient(b.title, b.body, b.kind, b.data, b.icon, b.actionText, b.actionUrl);
  }

  /** The client's `notify()`: a fresh builder over the same HTTP client. */
  method Notify(c: Client.LiveWaveClient) returns (b: NotificationBuilder)
    ensures fresh(b) && b.transport == c.transport
    ensures b.kind == Some("info") && b.data == [] && b.userId == None && b.userIds == [] && b.channel == None
    ensures b.title == None && b.body == None && b.icon == None && b.actionUrl == None && b.actionText == None
  {
    b := new NotificationBuilder(c.transport);
  }

  /** A fresh builder has no recipient, so `send` throws without posting. */
  method FreshBuilderHasNoRecipient(transport: Client.Post -> bool) returns (b: NotificationBuilder)
    ensures b.Send() == InvalidArgument(NoRecipientMessage)
  {
    b := new NotificationBuilder(transport);
  }

  /** A user id outranks user ids and a channel, even when all three are set. */
  method UserOutranksOthers(b: NotificationBuilder, id: int, ids: PhpArray, channel: string)
    requires id != 0
    modifies b
    ensures b.Send().Sent? && b.Send().dispatch.request.path == "/api/notifications"
  {
    var _ := b.Channel(channel);
    var _ := b.Users(ids);
    var _ := b.User(id);
  }

  /** User id 0 is falsy: the batch or channel route is taken instead. */
  method ZeroUserIdFallsThrough(b: NotificationBuilder, channel: string)
    requires TruthyStr(Some(channel)) && b.userIds == []
    modifies b
    ensures b.Send().Sent? && b.Send().dispatch.request.path == "/api/notifications/channel"
  {
    var _ := b.Channel(channel);
    var _ := b.User(0);
  }
}
