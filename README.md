# LiveWave for Laravel, modelled in Dafny

This project models the decision and transformation rules of the LiveWave Laravel
package, a client for a Pusher-compatible realtime broadcast service:

- the **webhook middleware**, which gives each inbound webhook exactly one outcome:
  missing signature, invalid signature, timestamp expired, or accepted;
- the **REST client**, which shapes single-channel and batch broadcast requests,
  signs and verifies webhook payloads with HMAC-SHA256, and creates its Channels and
  Webhooks sub-APIs lazily;
- the **broadcast driver**, which normalises `private-`/`presence-` channel names,
  guards private channels, and chooses between private and presence authorisation;
- the **test fake**, an append-only log of broadcasts and notifications with assertion
  predicates, plus its fake notification builder;
- the **notification builder**, a fluent setter state whose `send` picks its endpoint
  by strict precedence: user, then users, then channel;
- the **installer's text edits** to `.env` and `config/broadcasting.php`.

Files, one module each: `php.dfy` (`Php`: PHP arrays, truthiness and string built-ins),
`client.dfy` (`Client`), `webhook.dfy` (`Webhook`), `broadcaster.dfy`
(`Broadcasting`), `fake.dfy` (`Testing`), `notifications.dfy` (`Notifications`),
`install.dfy` (`Install`).

Modelling choices:

- PHP arrays are ordered sequences of key/value entries. `$a[k] = v` overwrites in
  place or appends (`Php.Put`). PHP truthiness is written out (`Php.Truthy`), so a
  header or field value of `"0"` or `""` counts as absent, and so does a user id of 0.
- HMAC-SHA256 is an uninterpreted function value `(key, message) -> hex`.
  `hash_equals` is plain equality.
- The HTTP transport is a function from the posted request to `successful()`. Each
  broadcast and `send` returns the request it posts together with that flag.
- `strtotime` is a parameter returning a Unix time or nothing. As in PHP, a failed
  parse counts as time 0. `time()` is the parameter `now`.
- The middleware reaches `LiveWave::verifySignature` through a facade. It therefore
  takes the verifier as a parameter. `Webhook.ClientVerifier` plugs in the real client.
- The broadcast driver's collaborators are the framework's `retrieveUser` and
  `verifyUserCanAccessChannel`, and the client's `authorizeChannel`,
  `authorizePresenceChannel` and `trigger`. Each driver operation returns the
  collaborator call it makes, as a datatype value. `retrieveUser` is a parameter.
- Stateful PHP objects are Dafny classes: `LiveWaveClient` (the memoised sub-APIs),
  `LiveWaveFake` and `NotificationBuilderFake` (logs appended in place), and
  `NotificationBuilder` (setters overwrite fields). `broadcastToMany` of the fake and
  `updateEnvFile` keep their loops. The loops are proved against specification
  functions (`Testing.BatchRecords`, `Install.UpdateEnv`).

Protocol notes, as the code behaves:

- The middleware verifies the signature over the raw body alone, and before it looks
  at the timestamp. The timestamp is not part of what is signed. The 300-second window
  is hard-coded in the middleware, and the `tolerance` entry of config/livewave.php is
  never read.
- `broadcastToPrivate`/`broadcastToPresence` prefix unconditionally:
  `"private-chat"` becomes `"private-private-chat"`.
- The client authenticates with `X-API-Key`/`X-API-Secret` headers. It signs no
  request and builds no query string.

## Model

| member | source | states |
|---|---|---|
| `Webhook.Handle` | src/Http/Middleware/VerifyWebhookSignature.php:15-41 | exactly one outcome per request: Missing iff the signature header is falsy; Invalid iff present but `verify(rawBody, signature)` fails; Expired iff verified, the timestamp header is truthy and `abs(now - t) > 300`; otherwise Accepted, carrying the request unchanged |
| `Webhook.Rejection` | src/Http/Middleware/VerifyWebhookSignature.php:17-38 | a request is aborted iff it is not accepted, and every abort has status 401 with the message of its check (missing, invalid, expired); an accepted request raises nothing and goes to `$next` |
| `Webhook.RejectionsDistinguishable` | src/Http/Middleware/VerifyWebhookSignature.php:17-38 | two rejections produce the same abort iff they are the same outcome: the message alone tells which check failed |
| `Webhook.ZeroSignatureIsMissing` | src/Http/Middleware/VerifyWebhookSignature.php:17-21 | a signature header of `"0"` is rejected as missing |
| `Webhook.TimestampNotSigned` | src/Http/Middleware/VerifyWebhookSignature.php:23-31 | changing the timestamp header never changes whether the signature is rejected: only the raw body is verified |
| `Webhook.SignatureBeforeTimestamp` | src/Http/Middleware/VerifyWebhookSignature.php:25-36 | a bad signature with a stale timestamp yields Invalid, never Expired |
| `Webhook.Window` | src/Http/Middleware/VerifyWebhookSignature.php:32-37 | with a verified signature and a parsed timestamp t, accepted iff `now - 300 <= t <= now + 300`: closed at 300 and symmetric in the future |
| `Webhook.UnparseableTimestampExpires` | src/Http/Middleware/VerifyWebhookSignature.php:30-37 | a timestamp `strtotime` cannot parse counts as 0 and is expired whenever now > 300 |
| `Webhook.NoTimestampSignatureDecides` | src/Http/Middleware/VerifyWebhookSignature.php:29-40 | with no truthy timestamp, accepted iff the signature header is truthy and verifies |
| `Webhook.SignedRequestAccepted` | src/Http/Middleware/VerifyWebhookSignature.php:17-40 | a body signed by the client's `generateSignature`, with a fresh or no timestamp, passes the middleware unchanged |
| `Webhook.TamperedBodyRejected` | src/Http/Middleware/VerifyWebhookSignature.php:23-27 | a body whose HMAC differs from the signed body's is rejected as Invalid |
| `Client.LiveWaveClient.constructor` | src/LiveWaveClient.php:17-31 | keeps the credentials, base URL and timeout, sets the four default headers, and starts with no sub-API objects |
| `Client.LiveWaveClient.BroadcastEvent` | src/LiveWaveClient.php:60-70 | posts to `/api/broadcast` with the given channel and type, and returns the transport's success flag for that request |
| `Client.SingleChannelBody` | src/LiveWaveClient.php:60-70 | a single-channel body has exactly the keys channel, event, data, type in that order, carrying the given event and data |
| `Client.LiveWaveClient.Broadcast` | src/LiveWaveClient.php:36-39 | sends the channel name unchanged with type `public` |
| `Client.LiveWaveClient.BroadcastToPrivate` | src/LiveWaveClient.php:44-47 | sends `"private-" + channel` with type `private` |
| `Client.LiveWaveClient.BroadcastToPresence` | src/LiveWaveClient.php:52-55 | sends `"presence-" + channel` with type `presence` |
| `Client.PrivatePrefixNotIdempotent` | src/LiveWaveClient.php:44-47 | `broadcastToPrivate("private-chat")` sends `"private-private-chat"` |
| `Client.LiveWaveClient.BroadcastToMany` | src/LiveWaveClient.php:75-84 | posts to `/api/broadcast/batch` a body of exactly three keys: `channels` the given list in order, unprefixed, plus the given `event` and `data`; no `type` and no `channel` key; returns the transport's success flag |
| `Client.LiveWaveClient.GenerateSignature` | src/LiveWaveClient.php:129-132 | returns HMAC-SHA256(apiSecret, payload), the value VerifySignature compares against |
| `Client.LiveWaveClient.VerifySignature` | src/LiveWaveClient.php:137-141 | true exactly when the candidate equals HMAC-SHA256(apiSecret, payload) |
| `Client.SharedSecretVerifies` | src/LiveWaveClient.php:129-141 | the signature depends only on the secret and the payload: one client's signature verifies at another iff their HMACs of the payload agree, so always when they share the secret |
| `Client.SignThenVerify` | src/LiveWaveClient.php:129-141 | `verifySignature(p, generateSignature(p))` always holds |
| `Client.LiveWaveClient.Channels` | src/LiveWaveClient.php:89-96 | creates the Channels API only when none exists and otherwise returns the stored object |
| `Client.LiveWaveClient.Webhooks` | src/LiveWaveClient.php:101-108 | creates the Webhooks API only when none exists and otherwise returns the stored object |
| `Client.ChannelsMemoised` | src/LiveWaveClient.php:89-96 | two calls return the same object |
| `Broadcasting.NormalizeChannelName` | src/Broadcasting/LiveWaveBroadcaster.php:66-77 | strips `private-` if present, else `presence-` if present, else returns the name unchanged |
| `Broadcasting.StripPrivate` | src/Broadcasting/LiveWaveBroadcaster.php:68-70 | `normalize("private-" + x) == x` |
| `Broadcasting.StripPresence` | src/Broadcasting/LiveWaveBroadcaster.php:72-74 | `normalize("presence-" + x) == x` |
| `Broadcasting.StripsOnce` | src/Broadcasting/LiveWaveBroadcaster.php:66-77 | for every name, the name is the result, or `private-` or `presence-` followed by it: at most one prefix is removed; `private-presence-x` keeps `presence-x` and `private-private-x` keeps `private-x` |
| `Broadcasting.ClientPrefixesUndone` | src/Broadcasting/LiveWaveBroadcaster.php:66-77 | the `channel` the client sends for a private and for a presence broadcast normalises back to the bare channel |
| `Broadcasting.Auth` | src/Broadcasting/LiveWaveBroadcaster.php:20-35 | AccessDenied iff the raw name starts with `private-` and no user resolves for the normalised name; otherwise it delegates to `verifyUserCanAccessChannel` with the normalised name |
| `Broadcasting.PresenceNotGuarded` | src/Broadcasting/LiveWaveBroadcaster.php:22-34 | a presence channel is never refused by the guard and is delegated with the bare name |
| `Broadcasting.ValidAuthenticationResponse` | src/Broadcasting/LiveWaveBroadcaster.php:40-61 | `presence-` names call `authorizePresenceChannel(socketId, fullName, (string) userId, userInfo)` with `userInfo` the result if it is an array and `[]` otherwise, or fail on a null user; every other name calls `authorizeChannel(socketId, fullName)` |
| `Broadcasting.PresenceUserIdDigits` | src/Broadcasting/LiveWaveBroadcaster.php:46-57 | a non-negative integer user id reaches the client as decimal digits that read back to it |
| `Broadcasting.Broadcast` | src/Broadcasting/LiveWaveBroadcaster.php:82-97 | passes the channel strings in input order, the event, the payload and `payload['socket']` (or null) to `trigger`; an `\Exception` becomes a BroadcastException whose message is prefixed `"LiveWave broadcast failed: "`; an `\Error` escapes unchanged |
| `Testing.LiveWaveFake.constructor` | src/Testing/LiveWaveFake.php:13-14 | both logs start empty; the fake keeps the HMAC it signs with |
| `Testing.LiveWaveFake.Broadcast` | src/Testing/LiveWaveFake.php:19-29 | appends exactly one `public` record, keeps earlier records and the notification log, returns true, and the assertion for it then passes |
| `Testing.LiveWaveFake.BroadcastToPrivate` | src/Testing/LiveWaveFake.php:34-44 | appends one record for `"private-" + channel` of type `private`, after which `assertBroadcastToPrivate(channel, event)` passes |
| `Testing.LiveWaveFake.BroadcastToPresence` | src/Testing/LiveWaveFake.php:49-59 | appends one record for `"presence-" + channel` of type `presence`, after which `assertBroadcastToPresence(channel, event)` passes |
| `Testing.BatchRecords` | src/Testing/LiveWaveFake.php:64-76 | one `batch` record per channel, in input order |
| `Testing.LiveWaveFake.BroadcastToMany` | src/Testing/LiveWaveFake.php:64-76 | the log grows by exactly the batch records of the channels, in order; notifications untouched |
| `Testing.LiveWaveFake.RecordNotification` | src/Testing/LiveWaveFake.php:105-108 | appends one notification and leaves the broadcast log unchanged |
| `Testing.LiveWaveFake.Notify` | src/Testing/LiveWaveFake.php:97-100 | a fresh fake builder bound to this fake, with an empty notification |
| `Testing.Filter` | src/Testing/LiveWaveFake.php:115-123 | a filter keeps only elements of the log that pass |
| `Testing.FilterNonEmpty` | src/Testing/LiveWaveFake.php:125-128 | a filtered count is positive iff some element passes |
| `Testing.LiveWaveFake.AssertBroadcast` | src/Testing/LiveWaveFake.php:113-129 | passes iff some record has the channel and the event and, when a callback is given, the callback accepts its data |
| `Testing.LiveWaveFake.AssertBroadcastToPrivate` | src/Testing/LiveWaveFake.php:134-137 | `assertBroadcast` on `"private-" + channel` |
| `Testing.LiveWaveFake.AssertBroadcastToPresence` | src/Testing/LiveWaveFake.php:142-145 | `assertBroadcast` on `"presence-" + channel` |
| `Testing.LiveWaveFake.AssertNothingBroadcast` | src/Testing/LiveWaveFake.php:150-157 | passes iff the broadcast log is empty |
| `Testing.LiveWaveFake.AssertNotificationSent` | src/Testing/LiveWaveFake.php:162-174 | passes iff some notification was sent, or some passes the callback when one is given |
| `Testing.LiveWaveFake.AssertNoNotificationsSent` | src/Testing/LiveWaveFake.php:179-186 | passes iff the notification log is empty |
| `Testing.FakeAcceptsAnySignature` | src/Testing/LiveWaveFake.php:215-218 | with the fake standing in for the client, the webhook middleware never answers Invalid: a request with a truthy signature is refused only for a stale timestamp and otherwise forwarded |
| `Testing.FakeSignsWithFakeSecret` | src/Testing/LiveWaveFake.php:207-210 | the fake signs as a real client with secret `fake-secret`, which therefore accepts the fake's signatures |
| `Testing.PrivateAfterPublic` | src/Testing/LiveWaveFake.php:19-44 | for any public channel and any other channel with no record yet: after a public and a private broadcast both assertions pass, the private one is not found under its bare name, and the notification log is unchanged |
| `Testing.NotificationBuilderFake.constructor` | src/Testing/LiveWaveFake.php:284-286 | starts with an empty notification bound to the given fake, holding each key once |
| `Testing.NotificationBuilderFake.Set` | src/Testing/LiveWaveFake.php:288-328 | each setter assigns its key in the accumulated array, after which the key reads back the value, every key is still held once, and the same builder is returned |
| `Testing.NotificationBuilderFake.Title` | src/Testing/LiveWaveFake.php:288-292 | assigns `title` |
| `Testing.NotificationBuilderFake.Body` | src/Testing/LiveWaveFake.php:294-298 | assigns `body` |
| `Testing.NotificationBuilderFake.Data` | src/Testing/LiveWaveFake.php:300-304 | assigns `data` |
| `Testing.NotificationBuilderFake.User` | src/Testing/LiveWaveFake.php:306-310 | assigns `user_id` |
| `Testing.NotificationBuilderFake.Users` | src/Testing/LiveWaveFake.php:312-316 | assigns `user_ids` |
| `Testing.NotificationBuilderFake.Channel` | src/Testing/LiveWaveFake.php:318-322 | assigns `channel` |
| `Testing.NotificationBuilderFake.Type` | src/Testing/LiveWaveFake.php:324-328 | assigns `type` |
| `Testing.NotificationBuilderFake.Success` | src/Testing/LiveWaveFake.php:330-333 | same effect as `type('success')` |
| `Testing.NotificationBuilderFake.Warning` | src/Testing/LiveWaveFake.php:335-338 | same effect as `type('warning')` |
| `Testing.NotificationBuilderFake.Error` | src/Testing/LiveWaveFake.php:340-343 | same effect as `type('error')` |
| `Testing.NotificationBuilderFake.Send` | src/Testing/LiveWaveFake.php:345-349 | records the accumulated array once with the fake, touches no broadcast, returns true |
| `Testing.LaterSetterWins` | src/Testing/LiveWaveFake.php:288-328 | setting a key twice is the same as setting it once to the later value; the key is then present exactly once |
| `Notifications.NotificationBuilder.constructor` | src/Notifications/NotificationBuilder.php:9-22 | a fresh builder has type `info`, data `[]`, no title, body, icon, action or recipients |
| `Notifications.NotificationBuilder.Title` | src/Notifications/NotificationBuilder.php:27-31 | overwrites the title only |
| `Notifications.NotificationBuilder.Body` | src/Notifications/NotificationBuilder.php:36-40 | overwrites the body only |
| `Notifications.NotificationBuilder.Data` | src/Notifications/NotificationBuilder.php:45-49 | overwrites the data only |
| `Notifications.NotificationBuilder.User` | src/Notifications/NotificationBuilder.php:54-58 | overwrites the user id only |
| `Notifications.NotificationBuilder.Users` | src/Notifications/NotificationBuilder.php:63-67 | overwrites the user ids only |
| `Notifications.NotificationBuilder.Channel` | src/Notifications/NotificationBuilder.php:72-76 | overwrites the channel only |
| `Notifications.NotificationBuilder.Type` | src/Notifications/NotificationBuilder.php:81-85 | overwrites the type only |
| `Notifications.NotificationBuilder.Success` | src/Notifications/NotificationBuilder.php:90-93 | same effect as `type('success')` |
| `Notifications.NotificationBuilder.Warning` | src/Notifications/NotificationBuilder.php:98-101 | same effect as `type('warning')` |
| `Notifications.NotificationBuilder.Error` | src/Notifications/NotificationBuilder.php:106-109 | same effect as `type('error')` |
| `Notifications.NotificationBuilder.Icon` | src/Notifications/NotificationBuilder.php:114-118 | overwrites the icon only |
| `Notifications.NotificationBuilder.Action` | src/Notifications/NotificationBuilder.php:123-128 | overwrites the action text and url only |
| `Notifications.PayloadAlwaysHasBase` | src/Notifications/NotificationBuilder.php:135-140 | the payload always has title, body, type and data, null where unset |
| `Notifications.PayloadIcon` | src/Notifications/NotificationBuilder.php:142-144 | `icon` is included iff it is truthy |
| `Notifications.PayloadAction` | src/Notifications/NotificationBuilder.php:146-151 | `action` is included iff both its url and its text are truthy, and then holds `['text' => actionText, 'url' => actionUrl]` in that order |
| `Notifications.PayloadHasNoRecipient` | src/Notifications/NotificationBuilder.php:135-151 | before routing, the payload has no recipient key |
| `Notifications.NotificationBuilder.Send` | src/Notifications/NotificationBuilder.php:133-172 | a truthy user id posts to `/api/notifications` with `user_id`; otherwise non-empty user ids post to `/api/notifications/batch` with `user_ids`; otherwise a truthy channel posts to `/api/notifications/channel` with `channel`; otherwise InvalidArgument with the source's message and nothing is posted |
| `Notifications.NotificationBuilder.Submit` | src/Notifications/NotificationBuilder.php:156-168 | the request posted and the transport's success flag for it |
| `Notifications.SendAppendsRecipient` | src/Notifications/NotificationBuilder.php:153-169 | the recipient key goes after the whole payload and carries the recipient of the route taken |
| `Notifications.FreshBuilderHasNoRecipient` | src/Notifications/NotificationBuilder.php:171 | `send` on a fresh builder throws without posting |
| `Notifications.UserOutranksOthers` | src/Notifications/NotificationBuilder.php:154-157 | a truthy user id wins even when user ids and a channel are set |
| `Notifications.ZeroUserIdFallsThrough` | src/Notifications/NotificationBuilder.php:154-169 | user id 0 is falsy, so the channel route is taken |
| `Notifications.Notify` | src/LiveWaveClient.php:113-116 | `notify()` gives a fresh builder over the client's HTTP client, in the constructor's state: type `info`, data `[]`, no title, body, icon, action or recipients |
| `Install.UpdateEnvFile` | src/Console/InstallCommand.php:94-120 | a missing file stays missing; otherwise the content is the pairs applied in order |
| `Install.SetEnvLines` | src/Console/InstallCommand.php:104-117 | one step rewrites every `KEY=` line to `KEY=value` and keeps every other line in place, or appends one `KEY=value` line when there was none |
| `Install.SetEnvNormalizes` | src/Console/InstallCommand.php:104-117 | after one step the key has a line and every line of it reads `KEY=value` |
| `Install.SetEnvNormalizedNoop` | src/Console/InstallCommand.php:106-112 | setting a key whose lines already read `KEY=value` leaves the content unchanged |
| `Install.SetEnvKeepsOther` | src/Console/InstallCommand.php:104-117 | setting one key keeps another key's `KEY=value` lines |
| `Install.UpdateEnvNormalizes` | src/Console/InstallCommand.php:104-117 | after the loop every key has a line and each of its lines reads `KEY=value` |
| `Install.UpdateEnvKeepsOtherLines` | src/Console/InstallCommand.php:104-117 | an original line starting with none of the keys keeps its position and text |
| `Install.UpdateEnvNoop` | src/Console/InstallCommand.php:104-117 | content already holding every pair is left unchanged |
| `Install.UpdateEnvIdempotent` | src/Console/InstallCommand.php:104-117 | applying the env update twice gives the content of applying it once |
| `Install.InstallValues` | src/Console/InstallCommand.php:52-59 | six pairs in source order, keys `BROADCAST_CONNECTION`, `LIVEWAVE_APP_ID`, `_APP_KEY`, `_APP_SECRET`, `_HOST`, `_PORT`; with single-line inputs the keys are valid and pairwise distinct |
| `Install.InstallConfiguresEnv` | src/Console/InstallCommand.php:37-59 | after install the env has `BROADCAST_CONNECTION=livewave` and, for each of the app id, key, secret, host and port, a line reading `KEY=value` |
| `Install.OptionsOverridePrompts` | src/Console/InstallCommand.php:37-39 | a truthy credential option is what the env receives; a missing, empty or `"0"` option is replaced by the prompted answer |
| `Install.ZeroAppIdOptionPrompts` | src/Console/InstallCommand.php:37 | `--app-id=0` is falsy, so the prompted App ID is written |
| `Install.UpdateBroadcastingConfig` | src/Console/InstallCommand.php:125-150 | a missing file stays missing; a file already mentioning `'livewave'` or holding no `'connections' => [` is unchanged; a file holding one mentions `'livewave'` afterwards |
| `Install.ConfigIdempotent` | src/Console/InstallCommand.php:125-150 | a second config update is a no-op |

## Left out

- HTTP transport: requests are returned as values, and `successful()` is an opaque flag.
  Base URL, timeout, JSON encoding and network failures are not modelled.
- HMAC-SHA256 internals and the constant-time property of `hash_equals`. Verification
  is plain equality against an uninterpreted HMAC function. Secret sensitivity and
  collision resistance are not provable here and are not claimed.
- `strtotime` and `time()`: the parsed time (or a failed parse) and `now` are inputs.
- `authorizeChannel`, `authorizePresenceChannel` and `trigger` are called by the driver
  but are not defined on the client in this repository. The model returns the call made
  and invents no signing or auth-token format for them. The request-signing scheme and
  the presence `channel_data` format are therefore not part of this model.
- `retrieveUser` and `verifyUserCanAccessChannel` belong to the framework and are
  abstract. `Broadcasting.Auth` returns the delegation instead of its result.
- src/Api/Channels.php and src/Api/Webhooks.php: their CRUD wrappers are not part of
  this model. The memoised objects are empty classes.
- The fake's `channels()`/`webhooks()` return new `ChannelsFake`/`WebhooksFake`
  objects with canned answers built from their arguments (`find` echoes the id;
  `create`/`update` merge the given data). They are not modelled.
- `getBroadcasts`, `getNotifications` and `getHttpClient` are plain getters. The model
  reads the fields directly.
- The installer's prompts are inputs holding the answer as a string. A prompt left
  empty, which yields null in PHP, is not modelled.
- PHPUnit failure reporting: assertions are boolean predicates.
- The installer's prompts, console output, `vendor:publish`, and file reads and writes.
  Files are optional contents, where None means the file does not exist.
- src/LiveWaveServiceProvider.php, src/Facades/LiveWave.php, config/livewave.php and
  src/Broadcasting/LiveWaveChannel.php: container wiring, a facade, static settings and
  a `__toString`. Channel objects are converted to their name.
- PHP arrays: numeric-string keys are not converted to integer keys, and the keys of
  the `$channels` array passed to the driver's `broadcast` are not kept (the model uses a list).
- Client.LiveWaveClient.BroadcastToMany: the `$channels` argument is modelled as a list of
  strings, numbered 0..n-1. PHP posts the caller's array as given, so an array with
  other keys encodes as a JSON object; that case is not modelled.
- Callbacks passed to the fake's assertions are total functions returning a boolean.
  Their PHP truthiness is folded in, and the key argument `filter` also passes is dropped.
- Install.UpdateEnvFile: keys are matched literally. PHP interpolates the key into the
  pattern `/^{$key}=.*/m`, so a key holding `.`, `+`, `(`, `/` or another regex
  metacharacter would match other lines or fail to compile; such keys are not modelled.
  The six keys the installer passes are capitals and underscores only
  (`Install.InstallKeys`), for which literal matching is exact.
- Install.UpdateEnvIdempotent: proved only for keys without `=` or newline and values
  without newline. Values with `$`, `\` or newlines would be reinterpreted by
  `preg_replace` or split lines, and that is not modelled.
- Install.UpdateEnvNormalizes, Install.SetEnvNormalizes, Install.SetEnvKeepsOther,
  Install.UpdateEnvKeepsOtherLines, Install.InstallConfiguresEnv,
  Install.OptionsOverridePrompts and Install.ZeroAppIdOptionPrompts carry the same
  restriction on keys and values.
- Install.UpdateBroadcastingConfig states only that `'livewave'` occurs afterwards, not
  the exact position of each inserted block.
