/** The REST client of the LiveWave service (src/LiveWaveClient.php): request shaping
    for single-channel and batch broadcasts, the HMAC-SHA256 webhook signature pair,
    and the lazily created Channels/Webhooks sub-APIs. */
module Client {
  import opened Php

  /** HMAC-SHA256 (RFC 2104 over the SHA-256 of FIPS 180-4) as lowercase hex:
      `hash_hmac('sha256', message, key)`. Its internals are not modelled. */
  type HmacSha256 = (string, string) -> string

  const PrivatePrefix := "private-"
  const PresencePrefix := "presence-"

  /** A JSON POST handed to the HTTP transport: path relative to the base URL, and body. */
  datatype Post = Post(path: string, body: PhpArray)

  /** A request the client made, and what it returns: `$response->successful()`. */
  datatype Dispatch = Dispatch(request: Post, successful: bool)

  function Field(name: string, v: Value): Entry {
    Entry(StrKey(name), v)
  }

  /** The resource wrappers built over the shared HTTP client; their CRUD
      methods are not part of this model. */
  class ChannelsApi {
    constructor () {}
  }

  class WebhooksApi {
    constructor () {}
  }

  class LiveWaveClient {
    const apiKey: string
    const apiSecret: string
    const baseUrl: string
    const timeout: int
    /** The default headers every request of the shared HTTP client carries. */
    const headers: seq<(string, string)>
    /** The transport's verdict on a request: `->post(...)->successful()`. */
    const transport: Post -> bool
    const hmac: HmacSha256

    var channels: ChannelsApi?
    var webhooks: WebhooksApi?

    constructor (apiKey: string, apiSecret: string, baseUrl: string, timeout: int,
                 transport: Post -> bool, hmac: HmacSha256)
      ensures this.apiKey == apiKey && this.apiSecret == apiSecret
      ensures this.baseUrl == baseUrl && this.timeout == timeout
      ensures this.transport == transport && this.hmac == hmac
      ensures headers == [("X-API-Key", apiKey), ("X-API-Secret", apiSecret),
                          ("Content-Type", "application/json"), ("Accept", "application/json")]
      ensures channels == null && webhooks == null
    {
      this.apiKey := apiKey;
      this.apiSecret := apiSecret;
      this.baseUrl := baseUrl;
      this.timeout := timeout;
      this.transport := transport;
      this.hmac := hmac;
      headers := [("X-API-Key", apiKey), ("X-API-Secret", apiSecret),
                  ("Content-Type", "application/json"), ("Accept", "application/json")];
      channels := null;
      webhooks := null;
    }

    /** `broadcastEvent`: one channel, posted with its type to /api/broadcast. */
    function BroadcastEvent(channel: string, event: string, data: PhpArray, kind: string): (d: Dispatch)
      ensures d.request.path == "/api/broadcast"
      ensures Get(d.request.body, StrKey("channel")) == Some(Str(channel))
      ensures Get(d.request.body, StrKey("type")) == Some(Str(kind))
      ensures d.successful == transport(d.request)
    {
      var post := Post("/api/broadcast", [Field("channel", Str(channel)), Field("event", Str(event)),
                                          Field("data", Arr(data)), Field("type", Str(kind))]);
      GetAt(post.body, 0);
      GetAt(post.body, 3);
      Dispatch(post, transport(post))
    }

    function Broadcast(channel: string, event: string, data: PhpArray): (d: Dispatch)
      ensures d.request.path == "/api/broadcast"
      ensures Get(d.request.body, StrKey("channel")) == Some(Str(channel))
      ensures Get(d.request.body, StrKey("type")) == Some(Str("public"))
      ensures d.successful == transport(d.request)
    {
      BroadcastEvent(channel, event, data, "public")
    }

    /** The prefix is added whatever the name already starts with. */
    function BroadcastToPrivate(channel: string, event: string, data: PhpArray): (d: Dispatch)
      ensures d.request.path == "/api/broadcast"
      ensures Get(d.request.body, StrKey("channel")) == Some(Str(PrivatePrefix + channel))
      ensures Get(d.request.body, StrKey("type")) == Some(Str("private"))
      ensures d.successful == transport(d.request)
    {
      BroadcastEvent(PrivatePrefix + channel, event, data, "private")
    }

    function BroadcastToPresence(channel: string, event: string, data: PhpArray): (d: Dispatch)
      ensures d.request.path == "/api/broadcast"
      ensures Get(d.request.body, StrKey("channel")) == Some(Str(PresencePrefix + channel))
      ensures Get(d.request.body, StrKey("type")) == Some(Str("presence"))
      ensures d.successful == transport(d.request)
    {
      BroadcastEvent(PresencePrefix + channel, event, data, "presence")
    }

    /** A batch goes to its own endpoint, lists the channels as given and has no type. */
    function BroadcastToMany(channels: seq<string>, event: string, data: PhpArray): (d: Dispatch)
      ensures d.request.path == "/api/broadcast/batch"
      ensures Get(d.request.body, StrKey("channels")) == Some(Arr(List(channels)))
      ensures |d.request.body| == 3
      ensures Get(d.request.body, StrKey("event")) == Some(Str(event))
      ensures Get(d.request.body, StrKey("data")) == Some(Arr(data))
      ensures !HasKey(d.request.body, StrKey("type")) && !HasKey(d.request.body, StrKey("channel"))
      ensures d.successful == transport(d.request)
    {
      var post := Post("/api/broadcast/batch", [Field("channels", Arr(List(channels))),
                                                Field("event", Str(event)), Field("data", Arr(data))]);
      assert post.body[0].key != StrKey("type") && post.body[1].key != StrKey("type");
      GetAt(post.body, 0);
      GetAt(post.body, 1);
      GetAt(post.body, 2);
      Dispatch(post, transport(post))
    }

    /** `generateSignature`: the HMAC-SHA256 of the payload under the API secret. */
    function GenerateSignature(payload: string): (s: string)
      ensures s == hmac(apiSecret, payload)
    {
      hmac(apiSecret, payload)
    }

    /** `hash_equals($expected, $signature)`, modelled as plain equality. */
    function VerifySignature(payload: string, signature: string): (ok: bool)
      ensures ok <==> signature == hmac(apiSecret, payload)
    {
      GenerateSignature(payload) == signature
    }

    /** The Channels API is built on first use and the same object is returned after. */
    method Channels() returns (c: ChannelsApi)
      modifies this`channels
      ensures old(channels) != null ==> c == old(channels)
      ensures old(channels) == null ==> fresh(c)
      ensures channels == c
    {
      if channels == null {
        channels := new ChannelsApi();
      }
      c := channels;
    }

    method Webhooks() returns (w: WebhooksApi)
      modifies this`webhooks
      ensures old(webhooks) != null ==> w == old(webhooks)
      ensures old(webhooks) == null ==> fresh(w)
      ensures webhooks == w
    {
      if webhooks == null {
        webhooks := new WebhooksApi();
      }
      w := webhooks;
    }
  }

  /** Every signature the client generates verifies under the same client. */
  lemma SignThenVerify(c: LiveWaveClient, payload: string)
    ensures c.VerifySignature(payload, c.GenerateSignature(payload))
  {
  }

  /** The signature is a function of the secret and the payload alone: a payload signed
      by one client verifies at every client that shares its secret, and at no client
      whose HMAC under its own secret differs. */
  lemma SharedSecretVerifies(signer: LiveWaveClient, verifier: LiveWaveClient, payload: string)
    requires signer.hmac == verifier.hmac
    ensures signer.apiSecret == verifier.apiSecret ==>
      verifier.VerifySignature(payload, signer.GenerateSignature(payload))
    ensures verifier.VerifySignature(payload, signer.GenerateSignature(payload)) <==>
      signer.hmac(signer.apiSecret, payload) == verifier.hmac(verifier.apiSecret, payload)
  {
  }

  /** A single-channel body holds exactly channel, event, data and type, in that order,
      whichever of the three public methods built it. */
  lemma SingleChannelBody(c: LiveWaveClient, channel: string, event: string, data: PhpArray, kind: string)
    ensures var b := c.BroadcastEvent(channel, event, data, kind).request.body;
      |b| == 4 && Get(b, StrKey("event")) == Some(Str(event)) && Get(b, StrKey("data")) == Some(Arr(data))
      && [b[0].key, b[1].key, b[2].key, b[3].key]
         == [StrKey("channel"), StrKey("event"), StrKey("data"), StrKey("type")]
  {
    var b := c.BroadcastEvent(channel, event, data, kind).request.body;
    GetAt(b, 1);
    GetAt(b, 2);
  }

  /** Prefixing is unconditional: an already prefixed name is prefixed again. */
  lemma PrivatePrefixNotIdempotent(c: LiveWaveClient, event: string, data: PhpArray)
    ensures Get(c.BroadcastToPrivate("private-chat", event, data).request.body, StrKey("channel"))
            == Some(Str("private-private-chat"))
  {
    assert PrivatePrefix + "private-chat" == "private-private-chat";
  }

  /** Channels, then Channels again: the second call creates nothing. */
  method ChannelsMemoised(c: LiveWaveClient) returns (first: ChannelsApi, second: ChannelsApi)
    modifies c`channels
    ensures first == second && c.channels == first
  {
    first := c.Channels();
    second := c.Channels();
  }
}
