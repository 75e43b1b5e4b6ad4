/**
  What one invocation of `fetchVideo` does, stated over `FetchVideo` for every
  channel, request, provider answer and transform: which outcome each kind of
  input reaches, what is broadcast on the way, whether the provider client and
  the transform are reached, and with what.
*/
module FetchVideoProperties {
  import opened Wrappers
  import opened Text
  import opened LivestreamProvider

  // ---------------------------------------------------------------------------
  // Messages name what they are about
  // ---------------------------------------------------------------------------

  /** The error a not-found rejects with names both the event id and the video id. */
  lemma NotFoundMessageNamesIds(p: Params)
    ensures Contains(NotFoundMessage(p), p.eventId)
    ensures Contains(NotFoundMessage(p), p.id)
  {
    var head := "Video not found for event id \"";
    var middle := "\" video id \"";
    var tail := "\"";
    assert NotFoundMessage(p) == head + p.eventId + (middle + p.id + tail);
    ContainsMiddle(head, p.eventId, middle + p.id + tail);
    assert NotFoundMessage(p) == (head + p.eventId + middle) + p.id + tail;
    ContainsMiddle(head + p.eventId + middle, p.id, tail);
  }

  /** Every broadcast sent by a failed check identifies the channel. */
  lemma ValidationNoticeNamesChannel(channel: Channel, spec: Spec)
    requires !Decide(channel, spec).Call?
    ensures Contains(Decide(channel, spec).notice.message, channel.id)
  {
    match Decide(channel, spec)
    case Skip(_) =>
      ContainsSuffix("Skipping Livestream fetchVideo due to missing credentials in channel ", channel.id);
    case InvalidEvent(_) =>
      ContainsSuffix("Livestream fetchVideo requires an event ID. channel: ", channel.id);
    case InvalidVideo(_) =>
      ContainsSuffix("Livestream fetchVideo requires a video ID. channel: ", channel.id);
  }

  // ---------------------------------------------------------------------------
  // The three checks
  // ---------------------------------------------------------------------------

  /** Missing or empty credentials: one warning, `null`, and nothing else is reached. */
  lemma MissingCredentialsSkip<R>(channel: Channel, spec: Spec, getVideo: Params -> Reply,
                                  transform: (Spec, Payload) -> R)
    requires !Truthy(LivestreamSecrets(channel).apiKey)
          || !Truthy(LivestreamSecrets(channel).accountId)
          || !Truthy(LivestreamSecrets(channel).clientId)
    ensures var run := FetchVideo(channel, spec, getVideo, transform);
      && run.settled == ResolvedNull
      && run.broadcasts == [Broadcast(Warn, MissingCredentialsMessage(channel.id), None, None)]
      && run.clientCalls == []
      && run.transformInput == None
  {
  }

  /** A channel without secrets, or without Livestream secrets, has an empty
      bundle and is skipped. */
  lemma AbsentSecretsSkip<R>(channel: Channel, spec: Spec, getVideo: Params -> Reply,
                             transform: (Spec, Payload) -> R)
    requires channel.secrets.None? || "livestream" !in channel.secrets.value
    ensures LivestreamSecrets(channel) == NoCredentials
    ensures var run := FetchVideo(channel, spec, getVideo, transform);
      && run.settled == ResolvedNull
      && |run.broadcasts| == 1 && run.broadcasts[0].level == Warn
      && run.clientCalls == []
  {
  }

  /** Credentials present but no event id (an absent `spec.event` included):
      one error, `null`, and the provider is not called. */
  lemma MissingEventIdRejected<R>(channel: Channel, spec: Spec, getVideo: Params -> Reply,
                                  transform: (Spec, Payload) -> R)
    requires HasCredentials(LivestreamSecrets(channel))
    requires spec.event.None? || !Truthy(spec.event.value.id)
    ensures var run := FetchVideo(channel, spec, getVideo, transform);
      && run.settled == ResolvedNull
      && run.broadcasts == [Broadcast(Error, MissingEventIdMessage(channel.id), None, None)]
      && run.clientCalls == []
      && run.transformInput == None
  {
  }

  /** Credentials and event id present but no video id (an absent `spec.video`
      included): one error, `null`, and the provider is not called. */
  lemma MissingVideoIdRejected<R>(channel: Channel, spec: Spec, getVideo: Params -> Reply,
                                  transform: (Spec, Payload) -> R)
    requires HasCredentials(LivestreamSecrets(channel))
    requires spec.event.Some? && Truthy(spec.event.value.id)
    requires spec.video.None? || !Truthy(spec.video.value.id)
    ensures var run := FetchVideo(channel, spec, getVideo, transform);
      && run.settled == ResolvedNull
      && run.broadcasts == [Broadcast(Error, MissingVideoIdMessage(channel.id), None, None)]
      && run.clientCalls == []
      && run.transformInput == None
  {
  }

  /** The checks short-circuit: the provider is called exactly when all three
      pass, a run that stops at a check broadcasts exactly once, and a run that
      reaches the provider sends no validation broadcast. */
  lemma ChecksShortCircuit<R>(channel: Channel, spec: Spec, getVideo: Params -> Reply,
                              transform: (Spec, Payload) -> R)
    ensures var run := FetchVideo(channel, spec, getVideo, transform);
      && (run.clientCalls != [] <==>
            HasCredentials(LivestreamSecrets(channel)) && Truthy(EventOf(spec).id) && Truthy(VideoOf(spec).id))
      && (run.clientCalls == [] ==> |run.broadcasts| == 1 && run.settled == ResolvedNull)
      && (run.clientCalls != [] ==> forall b | b in run.broadcasts :: b.code == Some(VIDEO_NOT_FOUND))
  {
  }

  // ---------------------------------------------------------------------------
  // The provider call and what follows it
  // ---------------------------------------------------------------------------

  /** The one provider call carries the channel's Livestream credentials and the
      request's event and video ids. */
  lemma ParamsFromInputs<R>(channel: Channel, spec: Spec, getVideo: Params -> Reply,
                            transform: (Spec, Payload) -> R)
    requires HasCredentials(LivestreamSecrets(channel))
    requires Truthy(EventOf(spec).id) && Truthy(VideoOf(spec).id)
    ensures var c := LivestreamSecrets(channel);
      FetchVideo(channel, spec, getVideo, transform).clientCalls ==
        [Params(c.apiKey.value, c.accountId.value, c.clientId.value, EventOf(spec).id.value, VideoOf(spec).id.value)]
  {
  }

  /** A falsy provider answer: one error broadcast with code VIDEO_NOT_FOUND that
      echoes the request, then a rejection whose message names both ids. */
  lemma NotFoundRejects<R>(channel: Channel, spec: Spec, getVideo: Params -> Reply,
                           transform: (Spec, Payload) -> R)
    requires Decide(channel, spec).Call?
    requires getVideo(Decide(channel, spec).params) == Empty
    ensures var run := FetchVideo(channel, spec, getVideo, transform);
      && |run.broadcasts| == 1
      && run.broadcasts[0].level == Error
      && run.broadcasts[0].code == Some(VIDEO_NOT_FOUND)
      && run.broadcasts[0].spec == Some(spec)
      && run.settled.Rejected?
      && Contains(run.settled.reason, EventOf(spec).id.value)
      && Contains(run.settled.reason, VideoOf(spec).id.value)
      && run.transformInput == None
  {
    NotFoundMessageNamesIds(Decide(channel, spec).params);
  }

  /** A video from the provider: the transform receives it with `creds` set to
      the channel's three credentials and every other member as the provider
      sent it, and the handler settles exactly as the transform did. */
  lemma FoundIsTransformed<R>(channel: Channel, spec: Spec, getVideo: Params -> Reply,
                              transform: (Spec, Payload) -> R, payload: Payload)
    requires Decide(channel, spec).Call?
    requires getVideo(Decide(channel, spec).params) == Found(payload)
    ensures var run := FetchVideo(channel, spec, getVideo, transform);
      var c := LivestreamSecrets(channel);
      && run.broadcasts == []
      && run.transformInput.Some?
      && var input := run.transformInput.value;
      && input["creds"] == Obj(map["apiKey" := Str(c.apiKey.value),
                                   "accountId" := Str(c.accountId.value),
                                   "clientId" := Str(c.clientId.value)])
      && input.Keys == payload.Keys + {"creds"}
      && (forall k | k in payload && k != "creds" :: input[k] == payload[k])
      && run.settled == FromTransform(transform(spec, input))
  {
  }

  /** A rejection from the provider client passes through as it is, with no
      broadcast and no transform. */
  lemma ProviderFailurePassesThrough<R>(channel: Channel, spec: Spec, getVideo: Params -> Reply,
                                        transform: (Spec, Payload) -> R)
    requires Decide(channel, spec).Call?
    requires getVideo(Decide(channel, spec).params).Failed?
    ensures var run := FetchVideo(channel, spec, getVideo, transform);
      && run.broadcasts == []
      && run.transformInput == None
      && run.settled == Rejected(getVideo(Decide(channel, spec).params).reason)
  {
  }

  // ---------------------------------------------------------------------------
  // Two concrete invocations
  // ---------------------------------------------------------------------------

  const GameChannel := Channel("c1", Some(map["livestream" := Credentials(Some("k"), Some("a"), Some("cl"))]))
  const GameSpec := Spec(Some(Shell(Some("e1"), map[])), Some(Shell(Some("v1"), map[])), map[])

  /** Provider returns `{title: "Game 7"}`: the transform receives it with the
      channel's credentials under `creds`, and its result is the handler's. */
  lemma GameSevenFound<R>(transform: (Spec, Payload) -> R)
    ensures var getVideo := (p: Params) => Found(map["title" := Str("Game 7")]);
      var expected := map["title" := Str("Game 7"),
                          "creds" := Obj(map["apiKey" := Str("k"), "accountId" := Str("a"), "clientId" := Str("cl")])];
      var run := FetchVideo(GameChannel, GameSpec, getVideo, transform);
      && run.clientCalls == [Params("k", "a", "cl", "e1", "v1")]
      && run.transformInput == Some(expected)
      && run.settled == FromTransform(transform(GameSpec, expected))
  {
    var p := Params("k", "a", "cl", "e1", "v1");
    assert LivestreamSecrets(GameChannel) == Credentials(Some("k"), Some("a"), Some("cl"));
    assert Decide(GameChannel, GameSpec) == Call(p);
    assert WithCreds(map["title" := Str("Game 7")], p) == map["title" := Str("Game 7"), "creds" := CredsValue(p)];
  }

  /** Provider returns nothing: a rejection naming "e1" and "v1", after one
      VIDEO_NOT_FOUND broadcast. */
  lemma GameSevenNotFound<R>(transform: (Spec, Payload) -> R)
    ensures var run := FetchVideo(GameChannel, GameSpec, (p: Params) => Empty, transform);
      && |run.broadcasts| == 1 && run.broadcasts[0].code == Some(VIDEO_NOT_FOUND)
      && run.settled.Rejected?
      && Contains(run.settled.reason, "e1") && Contains(run.settled.reason, "v1")
  {
    NotFoundMessageNamesIds(Params("k", "a", "cl", "e1", "v1"));
  }
}
