/** The cloud's publisher side (`internal/broadcast/publisher`): an edge
    device's offer arrives over MQTT, a WebRTC publisher peer answers it,
    the answer goes back on a topic named after the offer's meta, and the
    connected peer's video track is registered in the session map that
    subscribers look up. */
module HubPublisher {
  import opened Wrappers
  import opened ByteStrings
  import Pion
  import Pb = SignalPb
  import Enc = SignalEncoding
  import Topics
  import W = HubWebRtc

  /** `cfg.PublisherConfigOptions`, without the WebRTC options. */
  datatype Config = Config(
    offerTopic: Bytes,
    answerTopicPrefix: Bytes,
    candidateSendTopicPrefix: Bytes,
    candidateRecvTopicPrefix: Bytes,
    qos: nat,
    retained: bool)

  /** One `client.Publish` call. */
  datatype Publication = Publication(topic: Bytes, qos: nat, retained: bool, payload: Bytes)

  /** `prefix + "/" + meta.Id + "/" + strconv.Itoa(int(meta.TrackSource))`. */
  function MetaTopic(prefix: Bytes, meta: Pb.Meta): Bytes {
    Topics.Topic(prefix, meta.id, meta.trackSource as int)
  }

  /** `meta.Id + strconv.Itoa(int(meta.TrackSource))`. */
  function MetaKey(meta: Pb.Meta): Bytes {
    Topics.SessionKey(meta.id, meta.trackSource as int)
  }

  /** The declared track sources (UNKNOWN, DRONE, MONITOR) are one digit. */
  predicate Declared(meta: Pb.Meta) {
    Pb.UNKNOWN <= meta.trackSource <= Pb.MONITOR
  }

  /** Under one prefix, the topics of two metas coincide only when the
      metas do, whatever int32 track sources they carry. */
  lemma {:induction false} MetaTopicInjective(prefix: Bytes, m1: Pb.Meta, m2: Pb.Meta)
    requires MetaTopic(prefix, m1) == MetaTopic(prefix, m2)
    ensures m1 == m2
  {
    Topics.TopicInjective(prefix, m1.id, m1.trackSource as int, m2.id, m2.trackSource as int);
  }

  // ---- the session map ----

  /** What registerSession does to the map: the key of `meta` now holds
      `track`, whatever it held before. */
  function Registered(tracks: map<Bytes, nat>, meta: Pb.Meta, track: nat): map<Bytes, nat> {
    tracks[MetaKey(meta) := track]
  }

  /** Registering one (id, track source) pair leaves the entry of every
      other pair with a declared track source as it was. */
  lemma {:induction false} RegisteredKeepsOtherPairs(tracks: map<Bytes, nat>, meta: Pb.Meta, track: nat, other: Pb.Meta)
    requires Declared(meta) && Declared(other) && other != meta
    ensures MetaKey(other) in Registered(tracks, meta, track) <==> MetaKey(other) in tracks
    ensures MetaKey(other) in tracks ==> Registered(tracks, meta, track)[MetaKey(other)] == tracks[MetaKey(other)]
  {
    if MetaKey(other) == MetaKey(meta) {
      Topics.SessionKeyInjective(other.id, other.trackSource as int, meta.id, meta.trackSource as int);
    }
  }

  /** After registration the pair's entry is the new track. */
  lemma {:induction false} RegisteredStores(tracks: map<Bytes, nat>, meta: Pb.Meta, track: nat)
    ensures MetaKey(meta) in Registered(tracks, meta, track)
    ensures Registered(tracks, meta, track)[MetaKey(meta)] == track
    ensures Registered(tracks, meta, track).Keys == tracks.Keys + {MetaKey(meta)}
  {
  }

  /** The `sync.Map` shared by publishers and subscribers: session key to
      the publisher's local video track. */
  class Sessions {
    var tracks: map<Bytes, nat>

    constructor()
      ensures tracks == map[]
    {
      tracks := map[];
    }
  }

  // ---- candidates received over MQTT ----

  /** The candidate channel's contents after the subscription handler has
      seen `payloads`: each payload that decodes contributes its
      `candidate` string, in arrival order; the others are dropped. */
  function Received(payloads: seq<Bytes>): (r: seq<Bytes>)
    ensures |r| <= |payloads|
    ensures forall x | x in r :: exists p | p in payloads :: Enc.DecodeCandidate(p) == Some(x)
  {
    if payloads == [] then []
    else
      var last := payloads[|payloads| - 1];
      var front := Received(payloads[..|payloads| - 1]);
      assert forall p | p in payloads[..|payloads| - 1] :: p in payloads;
      match Enc.DecodeCandidate(last)
      case None => front
      case Some(c) => front + [c]
  }

  /** A payload that does not decode does not reach the channel. */
  lemma {:induction false} ReceivedDropsUndecodable(payloads: seq<Bytes>, bad: Bytes)
    requires Enc.DecodeCandidate(bad).None?
    ensures Received(payloads + [bad]) == Received(payloads)
  {
    assert (payloads + [bad])[..|payloads|] == payloads;
  }

  /** A payload that decodes adds its candidate at the end. */
  lemma {:induction false} ReceivedDecoded(payloads: seq<Bytes>, p: Bytes, c: Bytes)
    requires Enc.DecodeCandidate(p) == Some(c)
    ensures Received(payloads + [p]) == Received(payloads) + [c]
  {
    assert (payloads + [p])[..|payloads|] == payloads;
  }

  /** The `candidate:` lines of `cs`, in order. */
  function Lines(cs: seq<Pion.IceCandidate>): (r: seq<Bytes>)
    ensures |r| == |cs|
  {
    if cs == [] then [] else Lines(cs[..|cs| - 1]) + [Pion.CandidateLine(cs[|cs| - 1])]
  }

  /** The payloads the remote sendCandidate publishes for `cs`, in order. */
  function Encoded(cs: seq<Pion.IceCandidate>): (r: seq<Bytes>)
    ensures |r| == |cs|
  {
    if cs == [] then [] else Encoded(cs[..|cs| - 1]) + [Enc.EncodeCandidate(cs[|cs| - 1])]
  }

  predicate CandidatesFit(cs: seq<Pion.IceCandidate>) {
    forall i | 0 <= i < |cs| :: |cs[i].attributes| + 10 < TWO_32
  }

  /** Candidates published by the other side arrive as their
      `candidate:` lines, all of them and in order. */
  lemma {:induction false} ReceivedEncoded(cs: seq<Pion.IceCandidate>)
    requires CandidatesFit(cs)
    ensures Received(Encoded(cs)) == Lines(cs)
  {
    if cs != [] {
      var front, last := cs[..|cs| - 1], cs[|cs| - 1];
      Enc.DecodeEncodeCandidate(last);
      ReceivedDecoded(Encoded(front), Enc.EncodeCandidate(last), Pion.CandidateLine(last));
      assert CandidatesFit(front);
      ReceivedEncoded(front);
    }
  }

  // ---- handling an offer ----

  /** What the handler does not decide itself: whether creating the local
      video track fails, the identity of that track, and what the peer
      library answers while CreatePublisher runs. */
  datatype HandleEnv = HandleEnv(trackFails: bool, track: nat, peer: W.PeerEnv)

  /** How handleMessage ends. */
  datatype Handled =
    | NotAnOffer                         // proto.Unmarshal failed
    | Panicked                           // offer.Meta is nil and is dereferenced
    | NotJson                            // offer.Sdp is not a JSON description
    | TrackFailed                        // CreateLocalTrack failed
    | PublisherFailed(outcome: W.Outcome) // CreatePublisher did not return nil
    | Answered(publication: Publication)

  /** The publication of the answer: to `AnswerTopicPrefix/id/trackSource`,
      its JSON text in `sdp` and no meta. */
  function AnswerPublication(config: Config, meta: Pb.Meta, answer: Pion.SessionDescription): Publication {
    Publication(MetaTopic(config.answerTopicPrefix, meta), config.qos, config.retained,
                Enc.EncodeSDP(Some(answer), None))
  }

  /** handleMessage, with signalPeerConnection inlined: a fresh signaller
      gets the offer on its signal channel, CreatePublisher answers it, and
      the answer is taken back from the channel and published. */
  function Handle(config: Config, payload: Bytes, env: HandleEnv): (r: Handled)
    ensures r.NotAnOffer? <==> Pb.UnmarshalSessionDescription(payload).None?
    ensures r.Panicked? <==> Pb.UnmarshalSessionDescription(payload).Some?
                             && Pb.UnmarshalSessionDescription(payload).value.meta.None?
    ensures r.NotJson? ==> Pion.ParseDescriptionJson(Pb.UnmarshalSessionDescription(payload).value.sdp).None?
    ensures r.TrackFailed? ==> env.trackFails
    ensures r.PublisherFailed? ==> r.outcome != W.Done
    ensures r.Answered? ==>
      && !env.trackFails
      && Pb.UnmarshalSessionDescription(payload).Some?
      && Pb.UnmarshalSessionDescription(payload).value.meta.Some?
      && r.publication == AnswerPublication(config, Pb.UnmarshalSessionDescription(payload).value.meta.value,
                                            env.peer.signalling.answer)
  {
    match Pb.UnmarshalSessionDescription(payload)
    case None => NotAnOffer
    case Some(offer) =>
      if offer.meta.None? then Panicked
      else match Pion.ParseDescriptionJson(offer.sdp)
        case None => NotJson
        case Some(sdp) =>
          if env.trackFails then TrackFailed
          else
            var s := W.Create(W.PublisherRole, env.track, [Some(sdp)], [], env.peer);
            if s.outcome != W.Done then PublisherFailed(s.outcome)
            else Answered(AnswerPublication(config, offer.meta.value, env.peer.signalling.answer))
  }

  /** An offer whose `sdp` is not JSON is rejected before a track is
      created: the outcome does not depend on the environment at all. */
  lemma {:induction false} NotJsonIgnoresEnv(config: Config, payload: Bytes, e1: HandleEnv, e2: HandleEnv)
    requires Handle(config, payload, e1).NotJson?
    ensures Handle(config, payload, e2).NotJson?
  {
  }

  /** Signalling never blocks or panics here: the offer is on the channel
      before CreatePublisher reads it. */
  lemma {:induction false} PublisherNeverBlocks(config: Config, payload: Bytes, env: HandleEnv)
    requires Handle(config, payload, env).PublisherFailed?
    ensures Handle(config, payload, env).outcome.Failed?
  {
  }

  /** The published answer carries no meta, and the edge decodes it back
      to the answer the library created. */
  lemma {:induction false} AnswerDecodes(config: Config, payload: Bytes, env: HandleEnv)
    requires Handle(config, payload, env).Answered?
    requires Pion.KnownSdpType(env.peer.signalling.answer.sdpType)
    requires |env.peer.signalling.answer.sdp| + 2 < TWO_32
    ensures var p := Handle(config, payload, env).publication.payload;
      && Pb.UnmarshalSessionDescription(p).Some?
      && Pb.UnmarshalSessionDescription(p).value.meta.None?
      && Enc.DecodeSDP(p) == Enc.Value(env.peer.signalling.answer)
  {
    Enc.EncodeSDPContents(Some(env.peer.signalling.answer), None);
    Enc.DecodeEncodeSDP(env.peer.signalling.answer, None);
  }

  /** Answers go to one topic only when the offers carry the same meta. */
  lemma {:induction false} AnswerTopicIdentifiesOffer(config: Config, p1: Bytes, e1: HandleEnv, p2: Bytes, e2: HandleEnv)
    requires Handle(config, p1, e1).Answered? && Handle(config, p2, e2).Answered?
    requires Handle(config, p1, e1).publication.topic == Handle(config, p2, e2).publication.topic
    ensures Pb.UnmarshalSessionDescription(p1).value.meta == Pb.UnmarshalSessionDescription(p2).value.meta
  {
    MetaTopicInjective(config.answerTopicPrefix,
      Pb.UnmarshalSessionDescription(p1).value.meta.value,
      Pb.UnmarshalSessionDescription(p2).value.meta.value);
  }

  /** A Publisher: its configuration, the shared session map, and the
      MQTT publications it has made. */
  class Publisher {
    const config: Config
    const sessions: Sessions
    var published: seq<Publication>

    constructor(config: Config, sessions: Sessions)
      ensures this.config == config && this.sessions == sessions && published == []
    {
      this.config := config;
      this.sessions := sessions;
      published := [];
    }

    /** The registerSession callback: store `track` under the key of
        `meta`, reporting whether the key was already there. */
    method RegisterSession(meta: Pb.Meta, track: nat) returns (reRegistered: bool)
      modifies sessions`tracks
      ensures sessions.tracks == Registered(old(sessions.tracks), meta, track)
      ensures reRegistered <==> MetaKey(meta) in old(sessions.tracks)
    {
      var key := Topics.SessionKey(meta.id, meta.trackSource as int);
      reRegistered := key in sessions.tracks;
      sessions.tracks := sessions.tracks[key := track];
    }

    /** The sendCandidate callback: publish the encoded candidate to
        `CandidateSendTopicPrefix/id/trackSource`; delivery errors are
        only logged, so it always returns nil. */
    method SendCandidate(meta: Pb.Meta, c: Pion.IceCandidate) returns (err: bool)
      modifies this`published
      ensures !err
      ensures published == old(published) + [Publication(MetaTopic(config.candidateSendTopicPrefix, meta),
                                                         config.qos, config.retained, Enc.EncodeCandidate(c))]
    {
      var topic := Topics.Topic(config.candidateSendTopicPrefix, meta.id, meta.trackSource as int);
      published := published + [Publication(topic, config.qos, config.retained, Enc.EncodeCandidate(c))];
      err := false;
    }

    /** The topic recvCandidate subscribes to. */
    function RecvCandidateTopic(meta: Pb.Meta): (r: Bytes)
      ensures r == MetaTopic(config.candidateRecvTopicPrefix, meta)
    {
      Topics.Topic(config.candidateRecvTopicPrefix, meta.id, meta.trackSource as int)
    }

    /** The MQTT message handler of handleMessage. */
    method HandleMessage(payload: Bytes, env: HandleEnv) returns (r: Handled)
      modifies this`published
      ensures r == Handle(config, payload, env)
      ensures published == old(published) + (if r.Answered? then [r.publication] else [])
    {
      var decoded := Pb.UnmarshalSessionDescription(payload);
      if decoded.None? {
        return NotAnOffer;
      }
      var offer := decoded.value;
      if offer.meta.None? {
        return Panicked;
      }
      var parsed := Pion.ParseDescriptionJson(offer.sdp);
      if parsed.None? {
        return NotJson;
      }
      if env.trackFails {
        return TrackFailed;
      }
      var outcome, pc, answer := W.SignalFresh(W.PublisherRole, env.track, parsed.value, env.peer);
      if outcome != W.Done {
        return PublisherFailed(outcome);
      }
      var topic := Topics.Topic(config.answerTopicPrefix, offer.meta.value.id, offer.meta.value.trackSource as int);
      var publication := Publication(topic, config.qos, config.retained, Enc.EncodeSDP(answer, None));
      published := published + [publication];
      r := Answered(publication);
    }
  }
}
