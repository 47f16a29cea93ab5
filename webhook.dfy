/** The webhook middleware (src/Http/Middleware/VerifyWebhookSignature.php): every
    inbound request gets exactly one of four outcomes. The signature is checked first,
    over the raw body alone; the timestamp header, when truthy, is checked second
    against a fixed window of 300 seconds either side of now. */
module Webhook {
  import opened Php
  import Client

  /** The parts of the inbound request the middleware reads. */
  datatype WebhookRequest = WebhookRequest(
    signature: Option<string>,  // X-LiveWave-Signature
    timestamp: Option<string>,  // X-LiveWave-Timestamp
    body: string)               // the raw content

  /** Each rejection is `abort(401, message)`; acceptance hands the request to `$next`. */
  datatype Outcome =
    | MissingSignature
    | InvalidSignature
    | TimestampExpired
    | Accepted(forwarded: WebhookRequest)

  /** The replay window, hard-coded in the middleware. */
  const Tolerance := 300

  /** `strtotime`: a parsed Unix time, or None where PHP returns false. */
  type StrToTime = string -> Option<int>

  /** `LiveWave::verifySignature(payload, signature)`, whichever object the facade resolves. */
  type Verifier = (string, string) -> bool

  function Abs(x: int): (r: nat)
    ensures r == x || r == -x
  {
    if x < 0 then -x else x
  }

  /** `strtotime($timestamp)` used as a number: false counts as 0. */
  function RequestTime(ts: string, strtotime: StrToTime): int {
    match strtotime(ts)
    case Some(t) => t
    case None => 0
  }

  /** `abort($status, $message)`: the HTTP error a rejection ends the request with. */
  datatype Abort = Abort(status: int, message: string)

  /** The abort a rejected request ends with. An accepted request raises none: the
      response is whatever `$next($request)` returns, which is not part of this model. */
  function Rejection(o: Outcome): (a: Option<Abort>)
    ensures a.None? <==> o.Accepted?
    ensures a.Some? ==> a.value.status == 401
  {
    match o
    case MissingSignature => Some(Abort(401, "Missing webhook signature"))
    case InvalidSignature => Some(Abort(401, "Invalid webhook signature"))
    case TimestampExpired => Some(Abort(401, "Webhook timestamp expired"))
    case Accepted(_) => None
  }

  /** All three rejections share the status 401, so the message alone tells the sender
      which check failed: distinct outcomes never produce the same abort. */
  lemma RejectionsDistinguishable(o1: Outcome, o2: Outcome)
    requires !o1.Accepted? && !o2.Accepted?
    ensures Rejection(o1) == Rejection(o2) <==> o1 == o2
  {
    var m1, m2 := Rejection(o1).value.message, Rejection(o2).value.message;
    if o1 != o2 {
      assert m1[0] != m2[0];
    }
  }

  predicate Stale(ts: string, now: int, strtotime: StrToTime) {
    Abs(now - RequestTime(ts, strtotime)) > Tolerance
  }

  function Handle(req: WebhookRequest, now: int, strtotime: StrToTime, verify: Verifier): (o: Outcome)
    ensures o == MissingSignature <==> !TruthyStr(req.signature)
    ensures o == InvalidSignature <==>
      TruthyStr(req.signature) && !verify(req.body, req.signature.value)
    ensures o == TimestampExpired <==>
      TruthyStr(req.signature) && verify(req.body, req.signature.value)
      && TruthyStr(req.timestamp) && Stale(req.timestamp.value, now, strtotime)
    ensures o.Accepted? ==> o.forwarded == req
  {
    if !TruthyStr(req.signature) then MissingSignature
    else if !verify(req.body, req.signature.value) then InvalidSignature
    else if TruthyStr(req.timestamp) && Stale(req.timestamp.value, now, strtotime) then TimestampExpired
    else Accepted(req)
  }

  /** A header of "0" is as good as no header. */
  lemma ZeroSignatureIsMissing(body: string, ts: Option<string>, now: int, strtotime: StrToTime, verify: Verifier)
    ensures Handle(WebhookRequest(Some("0"), ts, body), now, strtotime, verify) == MissingSignature
  {
  }

  /** The timestamp is not part of what is signed: changing it never changes
      whether the signature is rejected. */
  lemma TimestampNotSigned(req: WebhookRequest, ts': Option<string>, now: int, strtotime: StrToTime, verify: Verifier)
    ensures Handle(req, now, strtotime, verify) == InvalidSignature
        <==> Handle(req.(timestamp := ts'), now, strtotime, verify) == InvalidSignature
  {
  }

  /** A bad signature with a stale timestamp is reported as invalid, never as expired. */
  lemma SignatureBeforeTimestamp(req: WebhookRequest, now: int, strtotime: StrToTime, verify: Verifier)
    requires TruthyStr(req.signature) && !verify(req.body, req.signature.value)
    requires TruthyStr(req.timestamp) && Stale(req.timestamp.value, now, strtotime)
    ensures Handle(req, now, strtotime, verify) == InvalidSignature
  {
  }

  /** With a truthy timestamp, the window is closed at exactly 300 s on either side. */
  lemma Window(req: WebhookRequest, now: int, strtotime: StrToTime, verify: Verifier)
    requires TruthyStr(req.signature) && verify(req.body, req.signature.value)
    requires TruthyStr(req.timestamp) && strtotime(req.timestamp.value).Some?
    ensures var t := strtotime(req.timestamp.value).value;
      Handle(req, now, strtotime, verify).Accepted? <==> now - 300 <= t <= now + 300
  {
  }

  /** An unparseable timestamp counts as time 0, so it is expired at any time after 300. */
  lemma UnparseableTimestampExpires(req: WebhookRequest, now: int, strtotime: StrToTime, verify: Verifier)
    requires TruthyStr(req.signature) && verify(req.body, req.signature.value)
    requires TruthyStr(req.timestamp) && strtotime(req.timestamp.value).None?
    requires now > 300
    ensures Handle(req, now, strtotime, verify) == TimestampExpired
  {
  }

  /** With no truthy timestamp, the outcome is decided by the signature alone. */
  lemma NoTimestampSignatureDecides(req: WebhookRequest, now: int, strtotime: StrToTime, verify: Verifier)
    requires !TruthyStr(req.timestamp)
    ensures Handle(req, now, strtotime, verify).Accepted?
        <==> TruthyStr(req.signature) && verify(req.body, req.signature.value)
  {
  }

  /** The verifier the middleware reaches through the facade when the real client is bound. */
  function ClientVerifier(c: Client.LiveWaveClient): Verifier {
    (p: string, s: string) => c.VerifySignature(p, s)
  }

  /** A body signed by the client, with a fresh or absent timestamp, is accepted. */
  lemma SignedRequestAccepted(c: Client.LiveWaveClient, body: string, ts: Option<string>,
                              now: int, strtotime: StrToTime)
    requires TruthyStr(Some(c.GenerateSignature(body)))
    requires TruthyStr(ts) ==> !Stale(ts.value, now, strtotime)
    ensures Handle(WebhookRequest(Some(c.GenerateSignature(body)), ts, body), now, strtotime, ClientVerifier(c))
            == Accepted(WebhookRequest(Some(c.GenerateSignature(body)), ts, body))
  {
  }

  /** A body other than the one signed is rejected, unless the two happen to share an HMAC. */
  lemma TamperedBodyRejected(c: Client.LiveWaveClient, body: string, tampered: string, ts: Option<string>,
                             now: int, strtotime: StrToTime)
    requires TruthyStr(Some(c.GenerateSignature(body)))
    requires c.hmac(c.apiSecret, tampered) != c.hmac(c.apiSecret, body)
    ensures Handle(WebhookRequest(Some(c.GenerateSignature(body)), ts, tampered), now, strtotime, ClientVerifier(c))
            == InvalidSignature
  {
  }
}
