/**
  The `fetchVideo` command handler of the Livestream provider: it validates the
  channel's Livestream credentials and the request's event and video ids, asks
  the provider client for the video, and hands the video, with the credentials
  attached under `creds`, to the transform.

  The handler is split where the source splits it: the synchronous checks that
  run before the provider call (`Decide`), and the continuation that runs once
  the provider has answered (`OnProviderResult`, and `HandleProviderResult`,
  which updates the provider's object in place). `FetchVideo` composes the two
  with the provider and the transform given as functions.
*/
module LivestreamProvider {
  import opened Wrappers

  // ---------------------------------------------------------------------------
  // Data model
  // ---------------------------------------------------------------------------

  /** A JSON-like value of the provider's payload; `Other` stands for any value
      (number, boolean, array) that the handler never looks into. */
  datatype Value = Str(s: string) | Obj(members: map<string, Value>) | Other(tag: nat)

  /** The members of the object the provider returns for a video. */
  type Payload = map<string, Value>

  /** A channel's credential bundle for one provider; each key may be absent. */
  datatype Credentials = Credentials(apiKey: Option<string>, accountId: Option<string>, clientId: Option<string>)

  /** The empty bundle `{}` that stands in for an absent one. */
  const NoCredentials := Credentials(None, None, None)

  /** A channel: its id and, optionally, its secrets keyed by provider name. */
  datatype Channel = Channel(id: string, secrets: Option<map<string, Credentials>>)

  /** The shell of an event or a video in a request: an object with an optional
      id and whatever other members the caller put in it (`rest`), which the
      handler never reads but passes on with the request. */
  datatype Shell = Shell(id: Option<string>, rest: map<string, Value>)

  /** The request specification: optional event and video shells, and its other
      members (`rest`). The handler reads only the two ids; the whole value is
      echoed in the not-found broadcast and handed to the transform. */
  datatype Spec = Spec(event: Option<Shell>, video: Option<Shell>, rest: map<string, Value>)

  datatype Level = Warn | Error

  /** One message sent to the bus: its level, its text, an optional machine-readable
      code and an optional echo of the request. */
  datatype Broadcast = Broadcast(level: Level, message: string, code: Option<string>, spec: Option<Spec>)

  /** The arguments of the provider client's `getVideo`. */
  datatype Params = Params(apiKey: string, accountId: string, clientId: string, eventId: string, id: string)

  /** The code of the broadcast sent when the provider has no such video. */
  const VIDEO_NOT_FOUND := "VIDEO_NOT_FOUND"

  /** JavaScript truthiness of an optional string: absent and "" are both falsy. */
  predicate Truthy(v: Option<string>) {
    v.Some? && v.value != ""
  }

  // ---------------------------------------------------------------------------
  // Reading the request (lib/fetch-video.js:19-26)
  // ---------------------------------------------------------------------------

  /** `(channel.secrets || {}).livestream || {}` */
  function LivestreamSecrets(channel: Channel): Credentials {
    var secrets := channel.secrets.GetOr(map[]);
    if "livestream" in secrets then secrets["livestream"] else NoCredentials
  }

  /** All three credentials are truthy. */
  predicate HasCredentials(c: Credentials) {
    Truthy(c.apiKey) && Truthy(c.accountId) && Truthy(c.clientId)
  }

  /** `spec.event || {}` */
  function EventOf(spec: Spec): Shell {
    spec.event.GetOr(Shell(None, map[]))
  }

  /** `spec.video || {}` */
  function VideoOf(spec: Spec): Shell {
    spec.video.GetOr(Shell(None, map[]))
  }

  // ---------------------------------------------------------------------------
  // Messages
  // ---------------------------------------------------------------------------

  function MissingCredentialsMessage(channelId: string): string {
    "Skipping Livestream fetchVideo due to missing credentials in channel " + channelId
  }

  function MissingEventIdMessage(channelId: string): string {
    "Livestream fetchVideo requires an event ID. channel: " + channelId
  }

  function MissingVideoIdMessage(channelId: string): string {
    "Livestream fetchVideo requires a video ID. channel: " + channelId
  }

  /** The message of the error the handler rejects with when the video is not found. */
  function NotFoundMessage(p: Params): string {
    "Video not found for event id \"" + p.eventId + "\" video id \"" + p.id + "\""
  }

  /** The broadcast sent when the video is not found; it echoes the request. */
  function NotFoundNotice(spec: Spec): Broadcast {
    Broadcast(Error, "video not found", Some(VIDEO_NOT_FOUND), Some(spec))
  }

  // ---------------------------------------------------------------------------
  // Before the provider call (lib/fetch-video.js:28-53)
  // ---------------------------------------------------------------------------

  /** What the synchronous part of the handler decides: resolve with `null`
      after one broadcast (three reasons), or call the provider with `params`. */
  datatype Decision =
    | Skip(notice: Broadcast)
    | InvalidEvent(notice: Broadcast)
    | InvalidVideo(notice: Broadcast)
    | Call(params: Params)

  /** The guards in source order: credentials, then event id, then video id;
      the first that fails decides, and the provider is called only when none does. */
  function Decide(channel: Channel, spec: Spec): (d: Decision)
    ensures d.Skip? <==> !HasCredentials(LivestreamSecrets(channel))
    ensures d.InvalidEvent? <==> HasCredentials(LivestreamSecrets(channel)) && !Truthy(EventOf(spec).id)
    ensures d.InvalidVideo? <==>
      HasCredentials(LivestreamSecrets(channel)) && Truthy(EventOf(spec).id) && !Truthy(VideoOf(spec).id)
    ensures d.Call? <==>
      HasCredentials(LivestreamSecrets(channel)) && Truthy(EventOf(spec).id) && Truthy(VideoOf(spec).id)
    ensures d.Skip? ==> d.notice.level == Warn && d.notice.code.None? && d.notice.spec.None?
    ensures d.InvalidEvent? || d.InvalidVideo? ==>
      d.notice.level == Error && d.notice.code.None? && d.notice.spec.None?
    ensures d.Call? ==>
      var c := LivestreamSecrets(channel);
      && Some(d.params.apiKey) == c.apiKey
      && Some(d.params.accountId) == c.accountId
      && Some(d.params.clientId) == c.clientId
      && Some(d.params.eventId) == EventOf(spec).id
      && Some(d.params.id) == VideoOf(spec).id
    ensures d.Call? ==>
      d.params.apiKey != "" && d.params.accountId != "" && d.params.clientId != ""
      && d.params.eventId != "" && d.params.id != ""
  {
    var secrets := LivestreamSecrets(channel);
    var event := EventOf(spec);
    var video := VideoOf(spec);
    if !Truthy(secrets.apiKey) || !Truthy(secrets.accountId) || !Truthy(secrets.clientId) then
      Skip(Broadcast(Warn, MissingCredentialsMessage(channel.id), None, None))
    else if !Truthy(event.id) then
      InvalidEvent(Broadcast(Error, MissingEventIdMessage(channel.id), None, None))
    else if !Truthy(video.id) then
      InvalidVideo(Broadcast(Error, MissingVideoIdMessage(channel.id), None, None))
    else
      Call(Params(secrets.apiKey.value, secrets.accountId.value, secrets.clientId.value,
                  event.id.value, video.id.value))
  }

  // ---------------------------------------------------------------------------
  // After the provider call (lib/fetch-video.js:55-69)
  // ---------------------------------------------------------------------------

  /** The `creds` object attached to the video: the three credentials of `p`. */
  function CredsValue(p: Params): Value {
    Obj(map["apiKey" := Str(p.apiKey), "accountId" := Str(p.accountId), "clientId" := Str(p.clientId)])
  }

  /** The video's members after `res.creds = {…}`: `creds` is set (added, or
      overwritten if the provider sent one) and every other member is kept. */
  function WithCreds(fields: Payload, p: Params): (r: Payload)
    ensures r.Keys == fields.Keys + {"creds"}
    ensures r["creds"].Obj? && r["creds"].members.Keys == {"apiKey", "accountId", "clientId"}
    ensures r["creds"].members["apiKey"] == Str(p.apiKey)
    ensures r["creds"].members["accountId"] == Str(p.accountId)
    ensures r["creds"].members["clientId"] == Str(p.clientId)
    ensures forall k :: k in fields && k != "creds" ==> r[k] == fields[k]
  {
    fields["creds" := CredsValue(p)]
  }

  /** How the handler ends once the provider has resolved. */
  datatype Completion<R> =
    | NotFound(notice: Broadcast, error: string)
    | Transformed(input: Payload, output: R)

  /** The `.then` continuation on values: a falsy result (`None`) is a not-found,
      anything else gets its credentials and goes to the transform, whose
      result is the handler's result as it is. */
  function OnProviderResult<R>(params: Params, spec: Spec, res: Option<Payload>,
                               transform: (Spec, Payload) -> R): (c: Completion<R>)
    ensures c.NotFound? <==> res.None?
    ensures c.NotFound? ==>
      c.notice.level == Error && c.notice.code == Some(VIDEO_NOT_FOUND) && c.notice.spec == Some(spec)
      && c.error == NotFoundMessage(params)
    ensures c.Transformed? ==>
      c.input == WithCreds(res.value, params) && c.output == transform(spec, c.input)
  {
    match res
    case None => NotFound(NotFoundNotice(spec), NotFoundMessage(params))
    case Some(fields) =>
      var withCreds := WithCreds(fields, params);
      Transformed(withCreds, transform(spec, withCreds))
  }

  /** The object the provider client resolves with; the handler changes it in place. */
  class VideoResource {
    var fields: Payload

    constructor (fields: Payload)
      ensures this.fields == fields
    {
      this.fields := fields;
    }

    /** `res.creds = {apiKey, accountId, clientId}` */
    method AttachCreds(p: Params)
      modifies this
      ensures fields == WithCreds(old(fields), p)
    {
      fields := fields["creds" := CredsValue(p)];
    }
  }

  /** The `.then` continuation on the provider's object (`null` when it found
      nothing): the object gains `creds` in place before the transform sees it. */
  method HandleProviderResult<R>(params: Params, spec: Spec, res: VideoResource?,
                                 transform: (Spec, Payload) -> R) returns (c: Completion<R>)
    modifies res
    ensures res != null ==> res.fields == WithCreds(old(res.fields), params)
    ensures c == OnProviderResult(params, spec, if res == null then None else Some(old(res.fields)), transform)
  {
    if res == null {
      c := NotFound(NotFoundNotice(spec), NotFoundMessage(params));
      return;
    }
    res.AttachCreds(params);
    c := Transformed(res.fields, transform(spec, res.fields));
  }

  // ---------------------------------------------------------------------------
  // The whole handler
  // ---------------------------------------------------------------------------

  /** How the provider client's promise settles: a video, a falsy value, or a rejection. */
  datatype Reply = Found(payload: Payload) | Empty | Failed(reason: string)

  /** How the handler's promise settles: `null`, a rejection, or exactly what the
      transform returned (its own rejection included). */
  datatype Settled<R> = ResolvedNull | Rejected(reason: string) | FromTransform(result: R)

  /** Everything one invocation does that can be observed: the broadcasts in
      order, the calls made to the provider client, the video handed to the
      transform, and how the returned promise settles. */
  datatype Run<R> = Run(broadcasts: seq<Broadcast>, clientCalls: seq<Params>,
                        transformInput: Option<Payload>, settled: Settled<R>)

  /** `fetchVideo({channel, spec})` with the provider client's answer given as
      `getVideo` and the transform as `transform`. */
  function FetchVideo<R>(channel: Channel, spec: Spec, getVideo: Params -> Reply,
                         transform: (Spec, Payload) -> R): (run: Run<R>)
    ensures |run.broadcasts| <= 1
    ensures run.clientCalls == (if Decide(channel, spec).Call? then [Decide(channel, spec).params] else [])
    ensures run.transformInput.Some? ==> run.broadcasts == [] && run.settled.FromTransform?
    ensures run.settled.ResolvedNull? <==> !Decide(channel, spec).Call?
  {
    match Decide(channel, spec)
    case Skip(notice) => Run([notice], [], None, ResolvedNull)
    case InvalidEvent(notice) => Run([notice], [], None, ResolvedNull)
    case InvalidVideo(notice) => Run([notice], [], None, ResolvedNull)
    case Call(params) =>
      match getVideo(params)
      case Failed(reason) => Run([], [params], None, Rejected(reason))
      case Empty => Completed(params, OnProviderResult(params, spec, None, transform))
      case Found(payload) => Completed(params, OnProviderResult(params, spec, Some(payload), transform))
  }

  /** The run of an invocation that called the provider and reached `completion`. */
  function Completed<R>(params: Params, completion: Completion<R>): Run<R> {
    match completion
    case NotFound(notice, error) => Run([notice], [params], None, Rejected(error))
    case Transformed(input, output) => Run([], [params], Some(input), FromTransform(output))
  }
}
