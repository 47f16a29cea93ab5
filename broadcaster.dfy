/** The Laravel broadcast driver (src/Broadcasting/LiveWaveBroadcaster.php): channel-name
    normalisation, the private-channel guard of `auth`, the choice between presence and
    private authorisation, and the hand-off of `broadcast` to the client's `trigger`.
    The framework's `retrieveUser` and `verifyUserCanAccessChannel`, and the client's
    `authorizeChannel`, `authorizePresenceChannel` and `trigger`, are collaborators:
    each operation returns the call it makes on them. */
module Broadcasting {
  import opened Php
  import Client

  /** The identifier `getAuthIdentifier()` returns. */
  datatype Identifier = IntId(n: int) | StrId(s: string)

  datatype User = User(id: Identifier)

  /** `retrieveUser($request, $channel)` for the request at hand: the user, or null. */
  type UserResolver = string -> Option<User>

  /** A channel as the framework passes it: a plain string or a channel object. */
  datatype ChannelArg = ChannelString(s: string) | ChannelObject(name: string)

  /** `(string) $userId`. */
  function IdToString(id: Identifier): string {
    match id
    case IntId(n) => IntToString(n)
    case StrId(s) => s
  }

  /** `(string) $channel`: a channel object converts to its name. */
  function ChannelToString(c: ChannelArg): string {
    match c
    case ChannelString(s) => s
    case ChannelObject(name) => name
  }

  /** Strip one `private-` or `presence-` prefix, testing `private-` first. */
  function NormalizeChannelName(name: string): (r: string)
    ensures StartsWith(name, Client.PrivatePrefix) ==> name == Client.PrivatePrefix + r
    ensures !StartsWith(name, Client.PrivatePrefix) && StartsWith(name, Client.PresencePrefix)
            ==> name == Client.PresencePrefix + r
    ensures !StartsWith(name, Client.PrivatePrefix) && !StartsWith(name, Client.PresencePrefix)
            ==> r == name
  {
    if StartsWith(name, Client.PrivatePrefix) then name[8..]
    else if StartsWith(name, Client.PresencePrefix) then name[9..]
    else name
  }

  lemma StripPrivate(x: string)
    ensures NormalizeChannelName(Client.PrivatePrefix + x) == x
  {
    assert (Client.PrivatePrefix + x)[..8] == Client.PrivatePrefix;
  }

  lemma StripPresence(x: string)
    ensures NormalizeChannelName(Client.PresencePrefix + x) == x
  {
    assert (Client.PresencePrefix + x)[..9] == Client.PresencePrefix;
    assert (Client.PresencePrefix + x)[7] != Client.PrivatePrefix[7];
  }

  /** At most one prefix is removed: the name is the result itself, or one of the two
      prefixes followed by it. A name carrying both prefixes keeps the second. */
  lemma StripsOnce(name: string, x: string)
    ensures var r := NormalizeChannelName(name);
      name == r || name == Client.PrivatePrefix + r || name == Client.PresencePrefix + r
    ensures NormalizeChannelName(Client.PrivatePrefix + Client.PresencePrefix + x) == Client.PresencePrefix + x
    ensures NormalizeChannelName(Client.PrivatePrefix + Client.PrivatePrefix + x) == Client.PrivatePrefix + x
  {
    StripPrivate(Client.PresencePrefix + x);
    StripPrivate(Client.PrivatePrefix + x);
    assert Client.PrivatePrefix + Client.PresencePrefix + x == Client.PrivatePrefix + (Client.PresencePrefix + x);
    assert Client.PrivatePrefix + Client.PrivatePrefix + x == Client.PrivatePrefix + (Client.PrivatePrefix + x);
  }

  /** The channel name the client puts on a private or presence broadcast is turned
      back into the bare channel by the driver. */
  lemma ClientPrefixesUndone(c: Client.LiveWaveClient, channel: string, event: string, data: PhpArray)
    ensures var sent := Get(c.BroadcastToPrivate(channel, event, data).request.body, StrKey("channel"));
      sent.Some? && sent.value.Str? && NormalizeChannelName(sent.value.s) == channel
    ensures var sent := Get(c.BroadcastToPresence(channel, event, data).request.body, StrKey("channel"));
      sent.Some? && sent.value.Str? && NormalizeChannelName(sent.value.s) == channel
  {
    StripPrivate(channel);
    StripPresence(channel);
  }

  /** What `auth` does: refuse, or ask the framework whether the user may access
      the (normalised) channel. */
  datatype AuthDecision = AccessDenied | VerifyUserCanAccessChannel(channel: string)

  function Auth(channelName: string, retrieveUser: UserResolver): (d: AuthDecision)
    ensures d == AccessDenied <==>
      StartsWith(channelName, Client.PrivatePrefix)
      && retrieveUser(NormalizeChannelName(channelName)).None?
    ensures d.VerifyUserCanAccessChannel? ==> d.channel == NormalizeChannelName(channelName)
  {
    var name := NormalizeChannelName(channelName);
    if StartsWith(channelName, Client.PrivatePrefix) && retrieveUser(name).None? then AccessDenied
    else VerifyUserCanAccessChannel(name)
  }

  /** A presence channel is never refused by the guard; that is left to the framework. */
  lemma PresenceNotGuarded(x: string, retrieveUser: UserResolver)
    ensures Auth(Client.PresencePrefix + x, retrieveUser) == VerifyUserCanAccessChannel(x)
  {
    StripPresence(x);
    assert (Client.PresencePrefix + x)[7] != Client.PrivatePrefix[7];
  }

  /** The call `validAuthenticationResponse` makes on the client. `NullUser` is the
      error PHP raises when `getAuthIdentifier()` is called on a null user. */
  datatype AuthCall =
    | AuthorizePresenceChannel(socketId: string, channel: string, userId: string, userInfo: PhpArray)
    | AuthorizeChannel(socketId: string, channel: string)
    | NullUser

  function ValidAuthenticationResponse(channelName: string, socketId: string, result: Value,
                                       retrieveUser: UserResolver): (call: AuthCall)
    ensures !StartsWith(channelName, Client.PresencePrefix) ==> call == AuthorizeChannel(socketId, channelName)
    ensures StartsWith(channelName, Client.PresencePrefix) ==>
      match retrieveUser(channelName)
      case None => call == NullUser
      case Some(u) =>
        call.AuthorizePresenceChannel? && call.socketId == socketId && call.channel == channelName
        && call.userId == IdToString(u.id)
        && call.userInfo == (if result.Arr? then result.entries else [])
  {
    if StartsWith(channelName, Client.PresencePrefix) then
      match retrieveUser(channelName)
      case None => NullUser
      case Some(user) =>
        var userInfo := if result.Arr? then result.entries else [];
        AuthorizePresenceChannel(socketId, channelName, IdToString(user.id), userInfo)
    else
      AuthorizeChannel(socketId, channelName)
  }

  /** A numeric user id reaches the client as its decimal digits. */
  lemma PresenceUserIdDigits(socketId: string, x: string, n: nat, retrieveUser: UserResolver)
    requires retrieveUser(Client.PresencePrefix + x) == Some(User(IntId(n)))
    ensures var call := ValidAuthenticationResponse(Client.PresencePrefix + x, socketId, Null, retrieveUser);
      call.AuthorizePresenceChannel? && call.userInfo == []
      && call.channel == Client.PresencePrefix + x
      && DecimalValue(call.userId) == n
  {
    assert StartsWith(Client.PresencePrefix + x, Client.PresencePrefix);
    NatToStringRoundTrip(n);
  }

  /** The call `broadcast` makes on the client's `trigger`. */
  datatype TriggerCall = TriggerCall(channels: seq<string>, event: string, payload: PhpArray, socket: Value)

  /** How `trigger` ends: it returns, throws an `\Exception`, or throws an `\Error`
      (a `TypeError`, a call to an undefined method), which is not an `\Exception`. */
  datatype TriggerResult = Returned | ThrewException(message: string) | ThrewError(error: string)

  type Trigger = TriggerCall -> TriggerResult

  datatype BroadcastOutcome =
    | Broadcasted(call: TriggerCall)
    | BroadcastException(call: TriggerCall, message: string)
    | ErrorEscaped(call: TriggerCall, error: string)

  const FailurePrefix := "LiveWave broadcast failed: "

  /** `catch (\Exception $e)` wraps exceptions in a BroadcastException; an `\Error`
      passes through the catch unchanged. */
  function Broadcast(channels: seq<ChannelArg>, event: string, payload: PhpArray, trigger: Trigger)
    : (o: BroadcastOutcome)
    ensures |o.call.channels| == |channels|
    ensures forall i :: 0 <= i < |channels| ==> o.call.channels[i] == ChannelToString(channels[i])
    ensures o.call.event == event && o.call.payload == payload
    ensures o.call.socket == if HasKey(payload, StrKey("socket")) then Get(payload, StrKey("socket")).value else Null
    ensures o.Broadcasted? <==> trigger(o.call).Returned?
    ensures o.BroadcastException? <==> trigger(o.call).ThrewException?
    ensures o.BroadcastException? ==> o.message == FailurePrefix + trigger(o.call).message
    ensures o.ErrorEscaped? ==> trigger(o.call) == ThrewError(o.error)
  {
    var socket := match Get(payload, StrKey("socket")) case Some(v) => v case None => Null;
    var names := seq(|channels|, i requires 0 <= i < |channels| => ChannelToString(channels[i]));
    var call := TriggerCall(names, event, payload, socket);
    match trigger(call)
    case Returned => Broadcasted(call)
    case ThrewException(msg) => BroadcastException(call, FailurePrefix + msg)
    case ThrewError(e) => ErrorEscaped(call, e)
  }
}
