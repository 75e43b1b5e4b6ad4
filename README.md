# Livestream `fetchVideo` handler, modelled in Dafny

This project models the `fetchVideo` command handler of the oddworks Livestream
provider (`lib/fetch-video.js`). The handler answers a "get livestream-video"
request that carries a channel and a request specification. It checks that the
channel's Livestream secrets hold an `apiKey`, an `accountId` and a `clientId`.
It then checks that the specification names an event id and a video id. If all
checks pass, it asks the provider client for the video. A video that comes back
gets the credentials attached under `creds` and is handed to the transform,
whose result becomes the handler's result. A missing video is broadcast as
`VIDEO_NOT_FOUND` and rejected.

Files:

- `wrappers.dfy` — `Option`, standing for JavaScript's possibly-absent properties.
- `text.dfy` — `Contains` (a substring occurs in a string) and two witnesses for it.
- `fetch_video.dfy` — module `LivestreamProvider`: the data model, the checks
  before the provider call (`Decide`), the continuation after it
  (`OnProviderResult` on values, `HandleProviderResult` and
  `VideoResource.AttachCreds` on the provider's object, which is changed in
  place), and the whole handler `FetchVideo`.
- `fetch_video_properties.dfy` — module `FetchVideoProperties`: the handler's
  properties over all inputs, and two concrete invocations.

Modelling choices:

- JavaScript truthiness: each id and credential is an `Option<string>`; an
  absent value and the empty string both count as missing (`Truthy`).
- The defaults `channel.secrets || {}`, `.livestream || {}`, `spec.event || {}`
  and `spec.video || {}` are written out (`LivestreamSecrets`, `EventOf`, `VideoOf`).
- Broadcasts are values, not calls: `Decide` and `OnProviderResult` return the
  broadcast they cause, and `FetchVideo` returns them in order in its `Run`.
- The provider client is a function from `Params` to a `Reply`: `Found(payload)`,
  `Empty` (a falsy result) or `Failed(reason)` (the client's promise rejects).
  The transform is an arbitrary function whose result type `R` stands for how
  its promise settles; the handler passes it on unchanged.
- Messages are modelled with their exact wording; `channel.id` is a string.
- The request keeps its members other than the two ids as opaque `rest` maps
  (on `Spec` and on each `Shell`): the handler never reads them, but the
  not-found broadcast echoes, and the transform receives, the whole request.

## Model

| member | source | states |
|---|---|---|
| `LivestreamProvider.Decide` | lib/fetch-video.js:19-53 | The checks run in order (credentials, event id, video id): each outcome happens exactly when the earlier checks pass and its own fails; a credentials skip is a `warn` and an id failure an `error`, neither with a code; the provider call happens exactly when all pass, with non-empty params equal to the channel's Livestream credentials and the request's ids. |
| `LivestreamProvider.WithCreds` | lib/fetch-video.js:66-67 | After attaching, the video has exactly its old members plus `creds`; `creds` holds exactly `apiKey`, `accountId` and `clientId`, taken from the params; every other member is unchanged. |
| `LivestreamProvider.OnProviderResult` | lib/fetch-video.js:55-69 | A falsy provider result, and only that, gives a not-found: an `error` broadcast with code `VIDEO_NOT_FOUND` that echoes the request, and the rejection message. Any other result goes to the transform with `creds` attached, and the transform's output is returned as it is. |
| `LivestreamProvider.VideoResource.AttachCreds` | lib/fetch-video.js:67 | Updates the provider's object in place: its members become `WithCreds` of its old members. |
| `LivestreamProvider.HandleProviderResult` | lib/fetch-video.js:55-69 | The continuation on the provider's object (`null` when nothing was found): it adds `creds` to the object in place, and its outcome is what `OnProviderResult` gives for the object's members from before the call. |
| `LivestreamProvider.FetchVideo` | lib/fetch-video.js:18-70 | One invocation broadcasts at most once. It calls the provider exactly once with the decided params when the checks pass, and never otherwise. It resolves to `null` exactly when a check fails. If the transform is reached, nothing was broadcast and the result comes from the transform. |
| `FetchVideoProperties.NotFoundMessageNamesIds` | lib/fetch-video.js:57 | The not-found error message contains the event id and the video id. |
| `FetchVideoProperties.ValidationNoticeNamesChannel` | lib/fetch-video.js:28-47 | Each of the three check broadcasts names the channel id. |
| `FetchVideoProperties.MissingCredentialsSkip` | lib/fetch-video.js:28-33 | If any credential is missing or empty, the result is `null` after exactly one `warn` broadcast, and neither the provider nor the transform is called. |
| `FetchVideoProperties.AbsentSecretsSkip` | lib/fetch-video.js:20-33 | If the channel has no secrets or no Livestream secrets, the bundle is empty and the call is skipped with one `warn` and no provider call. |
| `FetchVideoProperties.MissingEventIdRejected` | lib/fetch-video.js:25-40 | With credentials present and no event id (`spec.event` absent, or its id absent or empty), the result is `null` after exactly one `error` broadcast, and the provider is not called. |
| `FetchVideoProperties.MissingVideoIdRejected` | lib/fetch-video.js:26-47 | With credentials and an event id present and no video id, the result is `null` after exactly one `error` broadcast, and the provider is not called. |
| `FetchVideoProperties.ChecksShortCircuit` | lib/fetch-video.js:28-55 | The provider is called exactly when all three checks pass. A run stopped by a check broadcasts exactly once and resolves to `null`. A run that reaches the provider sends no validation broadcast. |
| `FetchVideoProperties.ParamsFromInputs` | lib/fetch-video.js:49-55 | The single provider call's params are the channel's `apiKey`, `accountId` and `clientId`, with `eventId = spec.event.id` and `id = spec.video.id`. |
| `FetchVideoProperties.NotFoundRejects` | lib/fetch-video.js:56-63 | A falsy provider result gives exactly one `error` broadcast with code `VIDEO_NOT_FOUND` echoing the request. The handler then rejects with a message containing both ids, and the transform is not called. |
| `FetchVideoProperties.FoundIsTransformed` | lib/fetch-video.js:66-68 | The transform receives the provider's video with `creds = {apiKey, accountId, clientId}` from the channel's secrets and every other member unchanged. The handler settles exactly as the transform did, with no broadcast. |
| `FetchVideoProperties.ProviderFailurePassesThrough` | lib/fetch-video.js:55 | A rejection from the provider client becomes the handler's rejection unchanged, with no broadcast and no transform call. |
| `FetchVideoProperties.GameSevenFound` | lib/fetch-video.js:49-68 | Concrete case: channel `c1` with credentials `k`/`a`/`cl`, request `e1`/`v1`, provider returns `{title: "Game 7"}`. The transform receives `{title: "Game 7", creds: {apiKey: "k", accountId: "a", clientId: "cl"}}` and its result is returned. |
| `FetchVideoProperties.GameSevenNotFound` | lib/fetch-video.js:56-63 | Concrete case: the same request with nothing found gives one `VIDEO_NOT_FOUND` broadcast and a rejection naming `e1` and `v1`. |

## Left out

- The bus: broadcasts are values in the result, not deliveries. What subscribers do with them is not modelled.
- The provider client's HTTP behaviour and the transform's internals (URL signing): they are function parameters.
- The promise machinery (Bluebird): a settled promise is a `Settled` value. Asynchrony and scheduling are not modelled.
- The factory `module.exports = (bus, client, transform) => …` (lib/fetch-video.js:5, 72) is not a separate member: the provider client (as `getVideo`) and the transform are parameters of `FetchVideo`, and the bus is replaced by the broadcasts returned in its `Run`.
- Non-string ids and credentials (`0`, `false`, numbers): every id and key is an optional string.
- A missing `args.channel` or `args.spec`: the source would throw a `TypeError` when reading their properties, so the model requires both to be present.
- `LivestreamProvider.OnProviderResult`: a provider result that is truthy but not an object (a non-empty string, say) is not modelled; a found result is always an object's members.
- `LivestreamProvider.HandleProviderResult`: the transform receives a snapshot of the object's members, not the object. Changes the transform makes to the object afterwards are not modelled.
- The comment at lib/fetch-video.js:16 calls `spec.video` optional, but lines 42-47 require its id. The model follows the code.
