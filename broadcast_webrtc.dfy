/** The WebRTC half of the older broadcast service (`internal/broadcast`,
    package broadcast): one session per publisher, whose offer and answer
    travel over Go channels as the flat protobuf description of that
    package's schema (id, track source, SDP type, SDP bytes). */
module BroadcastRtc {
  import opened Wrappers
  import opened ByteStrings
  import Pion
  import Pb = SignalPb
  import W = HubWebRtc

  /** `peerPublisher` and `peerSubscriber` (`actor` is an `int`). */
  const PEER_PUBLISHER: int := 0
  const PEER_SUBSCRIBER: int := 1

  /** `"publisher"` and `"subscriber"`. */
  const PUBLISHER_NAME: Bytes := [0x70, 0x75, 0x62, 0x6C, 0x69, 0x73, 0x68, 0x65, 0x72]
  const SUBSCRIBER_NAME: Bytes := [0x73, 0x75, 0x62, 0x73, 0x63, 0x72, 0x69, 0x62, 0x65, 0x72]

  /** `actor.string`: "publisher" for peerPublisher, "subscriber" for
      every other value. */
  function ActorName(a: int): (r: Bytes)
    ensures r == PUBLISHER_NAME <==> a == PEER_PUBLISHER
    ensures r == SUBSCRIBER_NAME <==> a != PEER_PUBLISHER
  {
    if a == PEER_PUBLISHER then PUBLISHER_NAME else SUBSCRIBER_NAME
  }

  /** This schema's `pb.SessionDescription`; `sdpType` is an `int32`. */
  datatype SessionDescription = SessionDescription(id: Bytes, trackSource: Pb.TrackSource, sdpType: int, description: Bytes)

  /** `pbSdp2webrtcSdp`: the type and the bytes, nothing else. */
  function PbToWebRtc(sdp: SessionDescription): (r: Pion.SessionDescription)
    ensures r.sdpType == sdp.sdpType && r.sdp == sdp.description
  {
    Pion.SessionDescription(sdp.sdpType, sdp.description)
  }

  /** `webrtcSdp2pbSdp`: the type cut to `int32`, the text as bytes, and
      no id or track source. */
  function WebRtcToPb(d: Pion.SessionDescription): (r: SessionDescription)
    ensures r.id == [] && r.trackSource == Pb.UNKNOWN && IsInt32(r.sdpType) && r.description == d.sdp
  {
    SessionDescription([], Pb.UNKNOWN, WrapInt32(d.sdpType), d.sdp)
  }

  /** Every description whose type fits an `int32` (all SDP types do)
      survives the trip through the channel. */
  lemma {:induction false} WebRtcPbRoundTrip(d: Pion.SessionDescription)
    requires IsInt32(d.sdpType)
    ensures PbToWebRtc(WebRtcToPb(d)) == d
  {
  }

  /** The other way round only the id and the track source are lost. */
  lemma {:induction false} PbWebRtcRoundTrip(sdp: SessionDescription)
    requires IsInt32(sdp.sdpType)
    ensures WebRtcToPb(PbToWebRtc(sdp)) == sdp.(id := [], trackSource := Pb.UNKNOWN)
  {
  }

  /** A pair of offer and answer channels (`publisherChans`,
      `subscriberChans`); a nil entry is a nil pointer. */
  class Chans {
    var offers: seq<Option<SessionDescription>>
    var answers: seq<SessionDescription>

    constructor()
      ensures offers == [] && answers == []
    {
      offers := [];
      answers := [];
    }

    /** `offerChan <- offer`; the channel's buffer size is not modelled. */
    method SendOffer(offer: Option<SessionDescription>)
      modifies this`offers
      ensures offers == old(offers) + [offer]
    {
      offers := offers + [offer];
    }

    /** `<-answerChan`, when an answer is waiting. */
    method TakeAnswer() returns (answer: SessionDescription)
      requires answers != []
      modifies this`answers
      ensures answer == old(answers)[0] && answers == old(answers)[1..]
    {
      answer := answers[0];
      answers := answers[1..];
    }
  }

  /** What the peer library answers while createPeerConnection runs. */
  datatype AnswerEnv = AnswerEnv(setRemoteFails: bool, createAnswerFails: bool, answer: Pion.SessionDescription, setLocalFails: bool)

  /** What createPublisher / createSubscriber are told by the library. */
  datatype PeerEnv = PeerEnv(newFails: bool, addFails: bool, answering: AnswerEnv)

  /** One session: its identity, learnt from the publisher's offer, the
      publisher channels it shares with every session, and its own
      subscriber channels. */
  class Session {
    var id: Bytes
    var trackSource: Pb.TrackSource
    const publisherChans: Chans
    const subscriberChans: Chans

    constructor(publisherChans: Chans)
      ensures this.publisherChans == publisherChans && fresh(subscriberChans)
      ensures id == [] && trackSource == Pb.UNKNOWN
      ensures subscriberChans.offers == [] && subscriberChans.answers == []
    {
      id := [];
      trackSource := Pb.UNKNOWN;
      this.publisherChans := publisherChans;
      subscriberChans := new Chans();
    }

    /** The channels `actor` reads its offer from and writes its answer to. */
    function ChansOf(actor: int): (c: Chans)
      ensures actor == PEER_PUBLISHER ==> c == publisherChans
      ensures actor != PEER_PUBLISHER ==> c == subscriberChans
    {
      if actor == PEER_PUBLISHER then publisherChans else subscriberChans
    }

    /** createPeerConnection: take the offer from the actor's channel (only
        a publisher's offer sets the session's id and track source), set
        it as the remote description, create the answer, set it as the
        local description, wait for gathering, and put the answer on the
        actor's answer channel. */
    method CreatePeerConnection(pc: Pion.PeerConnection, actor: int, env: AnswerEnv)
      returns (outcome: W.Outcome, pc': Pion.PeerConnection)
      requires publisherChans != subscriberChans
      modifies this`id, this`trackSource, publisherChans, subscriberChans
      ensures var c := ChansOf(actor);
        && unchanged(if actor == PEER_PUBLISHER then subscriberChans else publisherChans)
        && (old(c.offers) == [] ==> outcome == W.Blocked && unchanged(this, c) && pc' == pc)
        && (old(c.offers) != [] ==>
             && c.offers == old(c.offers)[1..]
             && var offer := old(c.offers)[0];
             && (offer.None? ==> outcome == W.Panicked && pc' == pc && c.answers == old(c.answers))
             && (offer.Some? && actor == PEER_PUBLISHER ==> id == offer.value.id && trackSource == offer.value.trackSource)
             && (offer.Some? && actor != PEER_PUBLISHER ==> id == old(id) && trackSource == old(trackSource))
             && (offer.Some? ==>
                  && pc'.remote == (if env.setRemoteFails then pc.remote else Some(PbToWebRtc(offer.value)))
                  && (outcome == W.Done <==> !env.setRemoteFails && !env.createAnswerFails && !env.setLocalFails)
                  && (outcome == W.Done ==> pc'.local == Some(env.answer)
                                            && c.answers == old(c.answers) + [WebRtcToPb(env.answer)])
                  && (outcome != W.Done ==> c.answers == old(c.answers) && pc'.local == pc.local)))
      ensures pc'.senders == pc.senders && pc'.closed == pc.closed
    {
      pc' := pc;
      var c := if actor == PEER_PUBLISHER then publisherChans else subscriberChans;
      if c.offers == [] {
        return W.Blocked, pc';
      }
      var offer := c.offers[0];
      c.offers := c.offers[1..];
      if offer.None? {
        return W.Panicked, pc';
      }
      if actor == PEER_PUBLISHER {
        id := offer.value.id;
        trackSource := offer.value.trackSource;
      }
      if env.setRemoteFails {
        return W.Failed(W.CouldNotSetRemote), pc';
      }
      pc' := pc'.(remote := Some(PbToWebRtc(offer.value)));
      if env.createAnswerFails {
        return W.Failed(W.CouldNotCreateAnswer), pc';
      }
      if env.setLocalFails {
        return W.Failed(W.CouldNotSetLocal), pc';
      }
      pc' := pc'.(local := Some(env.answer));
      c.answers := c.answers + [WebRtcToPb(env.answer)];
      outcome := W.Done;
    }

    /** createPublisher (`track` unused: the connection only receives) or
        createSubscriber (the connection sends `track`). */
    method CreatePeer(actor: int, track: nat, env: PeerEnv) returns (outcome: W.Outcome, pc: Pion.PeerConnection)
      requires publisherChans != subscriberChans
      modifies this`id, this`trackSource, publisherChans, subscriberChans
      ensures env.newFails ==> outcome == W.Failed(W.CouldNotCreatePeerConnection) && unchanged(this, publisherChans, subscriberChans)
      ensures !env.newFails && env.addFails ==> outcome == W.Failed(W.CouldNotAddTrack) && unchanged(this, publisherChans, subscriberChans)
      ensures !env.newFails && !env.addFails ==>
        && pc.senders == (if actor == PEER_PUBLISHER then [] else [Pion.Sender(track, false)]) && !pc.closed
        && var c := ChansOf(actor);
        && (old(c.offers) != [] ==> c.offers == old(c.offers)[1..])
        && (old(c.offers) != [] && old(c.offers)[0].Some? && !env.answering.setRemoteFails
            && !env.answering.createAnswerFails && !env.answering.setLocalFails ==>
              outcome == W.Done && c.answers == old(c.answers) + [WebRtcToPb(env.answering.answer)])
    {
      if env.newFails {
        return W.Failed(W.CouldNotCreatePeerConnection), Pion.NewPeerConnection([]);
      }
      if env.addFails {
        return W.Failed(W.CouldNotAddTrack), Pion.NewPeerConnection([]);
      }
      var initial := Pion.NewPeerConnection(if actor == PEER_PUBLISHER then [] else [Pion.Sender(track, false)]);
      outcome, pc := CreatePeerConnection(initial, actor, env.answering);
    }
  }

  /** The ICE state handler createPeerConnection installs: Failed closes
      the connection (an error there panics) without stopping its
      senders; every other state only logs. */
  function OnIceConnectionStateChange(state: int, pc: Pion.PeerConnection, closeFails: bool): (r: (W.Outcome, Pion.PeerConnection))
    ensures state == Pion.ICE_FAILED && closeFails ==> r.0 == W.Panicked
    ensures state == Pion.ICE_FAILED && !closeFails ==> r == (W.Done, pc.(closed := true))
    ensures state != Pion.ICE_FAILED ==> r == (W.Done, pc)
    ensures r.1.senders == pc.senders
  {
    if state != Pion.ICE_FAILED then (W.Done, pc)
    else if closeFails then (W.Panicked, pc)
    else (W.Done, pc.(closed := true))
  }
}
