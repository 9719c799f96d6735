/** The cloud's subscriber side (`internal/broadcast/subscriber`): one
    WebSocket connection of a browser, read message by message. An offer
    for a registered session gets a subscriber peer that sends the
    publisher's track and an answer back on the socket; a candidate is
    queued for the peer of its track source. The first bad message ends
    the connection. */
module HubSubscriber {
  import opened Wrappers
  import opened ByteStrings
  import Pion
  import Pb = SignalPb
  import Topics
  import W = HubWebRtc
  import HubPublisher

  /** `"video-offer"`. */
  const VIDEO_OFFER: Bytes := [0x76, 0x69, 0x64, 0x65, 0x6F, 0x2D, 0x6F, 0x66, 0x66, 0x65, 0x72]
  /** `"video-answer"`. */
  const VIDEO_ANSWER: Bytes := [0x76, 0x69, 0x64, 0x65, 0x6F, 0x2D, 0x61, 0x6E, 0x73, 0x77, 0x65, 0x72]
  /** `"new-ice-candidate"`. */
  const NEW_ICE_CANDIDATE: Bytes := [0x6E, 0x65, 0x77, 0x2D, 0x69, 0x63, 0x65, 0x2D, 0x63, 0x61, 0x6E, 0x64, 0x69, 0x64, 0x61, 0x74, 0x65]

  /** `incomingMessage` after its `data` has been unmarshalled both ways
      the handler may try: None where `json.Unmarshal(msg.Data, …)` fails. */
  datatype Incoming = Incoming(event: Bytes, offer: Option<Pb.SessionDescription>, candidate: Option<Pb.IceCandidate>)

  /** The `incomingMessage` of an `event` whose `data` member is `data`
      (None when the message has none): the two unmarshals of `data` the
      handler may try. A missing `data` is an error, `null` leaves both
      messages at their zero values, an object is decoded member by
      member, and any other value is an error. */
  function IncomingOfJson(event: Bytes, data: Option<Pb.JsonValue>): (r: Incoming)
    ensures r.event == event
    ensures data.None? ==> r.offer.None? && r.candidate.None?
    ensures data == Some(Pb.JsonNull) ==>
      r.offer == Some(Pb.EmptySessionDescription) && r.candidate == Some(Pb.EmptyIceCandidate)
    ensures data.Some? && !data.value.JsonNull? && !data.value.JsonObject? ==> r.offer.None? && r.candidate.None?
    ensures data.Some? && data.value.JsonObject? ==> r.offer == Pb.SessionDescriptionOfJson(data.value.members)
    ensures data.Some? && data.value.JsonObject? ==> r.candidate == Pb.IceCandidateOfJson(data.value.members)
  {
    if data.None? then Incoming(event, None, None)
    else if data.value.JsonNull? then Incoming(event, Some(Pb.EmptySessionDescription), Some(Pb.EmptyIceCandidate))
    else if data.value.JsonObject? then
      Incoming(event, Pb.SessionDescriptionOfJson(data.value.members), Pb.IceCandidateOfJson(data.value.members))
    else Incoming(event, None, None)
  }

  /** A browser that sends a SessionDescription as `data` has it read back
      as the offer, with its meta and sdp. */
  lemma {:induction false} OfferDataReadBack(d: Pb.SessionDescription)
    ensures IncomingOfJson(VIDEO_OFFER, Some(Pb.JsonObject(Pb.SessionDescriptionJson(d)))).offer == Some(d)
  {
    Pb.SessionDescriptionJsonRoundTrip(d);
  }

  /** ... and an ICECandidate as `data` is read back as the candidate. */
  lemma {:induction false} CandidateDataReadBack(c: Pb.IceCandidate)
    ensures IncomingOfJson(NEW_ICE_CANDIDATE, Some(Pb.JsonObject(Pb.IceCandidateJson(c)))).candidate == Some(c)
  {
    Pb.IceCandidateJsonRoundTrip(c);
  }

  /** One `c.Read`, and what the world answers if the message is an offer:
      the peer library during CreateSubscriber and whether writing the
      reply fails. A text message that is not JSON has `msg` None. */
  datatype Frame =
    | ReadFailed
    | NotText
    | Text(msg: Option<Incoming>, peer: W.PeerEnv, writeFails: bool)

  /** `outgoingMessage` with a SessionDescription as its data. */
  datatype Outgoing = Outgoing(event: Bytes, data: Pb.SessionDescription)

  /** Why processMessage returned. `Waiting`: the frames ran out while it
      is still reading. */
  datatype End =
    | Waiting
    | ReadError
    | NotTextMessage
    | NotJson
    | BadData
    | BadMeta
    | NoSession
    | BadSdp
    | SubscriberFailed(outcome: W.Outcome)
    | WriteFailed
    | BadCandidate

  /** What the loop has produced: the socket writes, the candidates in the
      DRONE and the MONITOR channel, and the subscriber peers created. */
  datatype State = State(writes: seq<Outgoing>, drone: seq<Bytes>, monitor: seq<Bytes>, peers: seq<Pion.PeerConnection>)

  const Start := State([], [], [], [])

  datatype Step = Continue(next: State) | Stop(end: End, last: State)

  /** The track source whose channel receives a candidate: DRONE for
      DRONE, MONITOR for every other value. */
  function CandidateQueue(t: Pb.TrackSource): (r: Pb.TrackSource)
    ensures r == Pb.DRONE || r == Pb.MONITOR
    ensures r == Pb.DRONE <==> t == Pb.DRONE
  {
    if t == Pb.DRONE then Pb.DRONE else Pb.MONITOR
  }

  /** The meta check of both message kinds: present, with a non-empty id. */
  predicate GoodMeta(meta: Option<Pb.Meta>) {
    meta.Some? && meta.value.id != []
  }

  /** The reply to an offer: its own meta, the answer's JSON in `sdp`. */
  function AnswerReply(offer: Pb.SessionDescription, answer: Pion.SessionDescription): Outgoing {
    Outgoing(VIDEO_ANSWER, Pb.SessionDescription(offer.meta, Pion.DescriptionJson(Some(answer))))
  }

  /** The "video-offer" case. */
  function OfferStep(sessions: map<Bytes, nat>, st: State, m: Incoming, peer: W.PeerEnv, writeFails: bool): (r: Step)
    ensures r.Continue? ==>
      && m.offer.Some? && GoodMeta(m.offer.value.meta)
      && HubPublisher.MetaKey(m.offer.value.meta.value) in sessions
      && Pion.ParseDescriptionJson(m.offer.value.sdp).Some?
      && !writeFails
      && r.next.writes == st.writes + [AnswerReply(m.offer.value, peer.signalling.answer)]
      && r.next.drone == st.drone && r.next.monitor == st.monitor
      && |r.next.peers| == |st.peers| + 1
  {
    match m.offer
    case None => Stop(BadData, st)
    case Some(offer) =>
      if !GoodMeta(offer.meta) then Stop(BadMeta, st)
      else
        var key := HubPublisher.MetaKey(offer.meta.value);
        if key !in sessions then Stop(NoSession, st)
        else match Pion.ParseDescriptionJson(offer.sdp)
          case None => Stop(BadSdp, st)
          case Some(sdp) =>
            var s := W.Create(W.SubscriberRole, sessions[key], [Some(sdp)], [], peer);
            if s.outcome != W.Done then Stop(SubscriberFailed(s.outcome), st)
            else
              var created := st.(peers := st.peers + [s.pc]);
              if writeFails then Stop(WriteFailed, created)
              else Continue(created.(writes := st.writes + [AnswerReply(offer, peer.signalling.answer)]))
  }

  /** The "new-ice-candidate" case. */
  function CandidateStep(sessions: map<Bytes, nat>, st: State, m: Incoming): (r: Step)
    ensures r.Continue? ==>
      && m.candidate.Some? && GoodMeta(m.candidate.value.meta)
      && HubPublisher.MetaKey(m.candidate.value.meta.value) in sessions
      && Pion.ParseCandidateInitJson(m.candidate.value.candidate).Some?
      && r.next.writes == st.writes && r.next.peers == st.peers
      && var c := Pion.ParseCandidateInitJson(m.candidate.value.candidate).value.candidate;
         if m.candidate.value.meta.value.trackSource == Pb.DRONE
         then r.next.drone == st.drone + [c] && r.next.monitor == st.monitor
         else r.next.drone == st.drone && r.next.monitor == st.monitor + [c]
    ensures r.Stop? ==> r.last == st
  {
    match m.candidate
    case None => Stop(BadData, st)
    case Some(candidate) =>
      if !GoodMeta(candidate.meta) then Stop(BadMeta, st)
      else if HubPublisher.MetaKey(candidate.meta.value) !in sessions then Stop(NoSession, st)
      else match Pion.ParseCandidateInitJson(candidate.candidate)
        case None => Stop(BadCandidate, st)
        case Some(init) =>
          if CandidateQueue(candidate.meta.value.trackSource) == Pb.DRONE
          then Continue(st.(drone := st.drone + [init.candidate]))
          else Continue(st.(monitor := st.monitor + [init.candidate]))
  }

  /** One turn of the loop. */
  function FrameStep(sessions: map<Bytes, nat>, st: State, f: Frame): (r: Step)
    ensures f.ReadFailed? ==> r == Stop(ReadError, st)
    ensures f.NotText? ==> r == Stop(NotTextMessage, st)
    ensures f.Text? && f.msg.None? ==> r == Stop(NotJson, st)
    ensures f.Text? && f.msg.Some? && f.msg.value.event !in {VIDEO_OFFER, NEW_ICE_CANDIDATE} ==> r == Continue(st)
  {
    match f
    case ReadFailed => Stop(ReadError, st)
    case NotText => Stop(NotTextMessage, st)
    case Text(msg, peer, writeFails) =>
      match msg
      case None => Stop(NotJson, st)
      case Some(m) =>
        if m.event == VIDEO_OFFER then OfferStep(sessions, st, m, peer, writeFails)
        else if m.event == NEW_ICE_CANDIDATE then CandidateStep(sessions, st, m)
        else Continue(st)
  }

  /** `"data": null` unmarshals to messages without meta, so either kind
      of message ends the loop at the metadata check. */
  lemma {:induction false} NullDataEndsAtMeta(sessions: map<Bytes, nat>, st: State, event: Bytes, peer: W.PeerEnv, writeFails: bool)
    requires event == VIDEO_OFFER || event == NEW_ICE_CANDIDATE
    ensures FrameStep(sessions, st, Text(Some(IncomingOfJson(event, Some(Pb.JsonNull))), peer, writeFails)) == Stop(BadMeta, st)
  {
  }

  /** A message without `data`, or with `data` that is not an object or
      null, ends the loop as bad data. */
  lemma {:induction false} NonObjectDataIsBad(sessions: map<Bytes, nat>, st: State, event: Bytes, data: Option<Pb.JsonValue>, peer: W.PeerEnv, writeFails: bool)
    requires event == VIDEO_OFFER || event == NEW_ICE_CANDIDATE
    requires data.None? || (!data.value.JsonNull? && !data.value.JsonObject?)
    ensures FrameStep(sessions, st, Text(Some(IncomingOfJson(event, data)), peer, writeFails)) == Stop(BadData, st)
  {
  }

  /** The loop from state `st` over `frames`: it ends at the first frame
      that stops it, or waits for more when they run out. */
  function Run(sessions: map<Bytes, nat>, frames: seq<Frame>, st: State): (End, State)
    decreases |frames|
  {
    if frames == [] then (Waiting, st)
    else match FrameStep(sessions, st, frames[0])
      case Stop(end, last) => (end, last)
      case Continue(next) => Run(sessions, frames[1..], next)
  }

  /** Only `Waiting` leaves the loop open to further frames: once it has
      stopped, frames sent afterwards change nothing. */
  lemma {:induction false} RunStopsForGood(sessions: map<Bytes, nat>, frames: seq<Frame>, more: seq<Frame>, st: State)
    requires Run(sessions, frames, st).0 != Waiting
    ensures Run(sessions, frames + more, st) == Run(sessions, frames, st)
    decreases |frames|
  {
    assert (frames + more)[0] == frames[0];
    match FrameStep(sessions, st, frames[0])
    case Stop(_, _) =>
    case Continue(next) =>
      assert (frames + more)[1..] == frames[1..] + more;
      RunStopsForGood(sessions, frames[1..], more, next);
  }

  /** Waiting means every frame was consumed, so more frames continue the
      same loop from where it stands. */
  lemma {:induction false} RunWaitingContinues(sessions: map<Bytes, nat>, frames: seq<Frame>, more: seq<Frame>, st: State)
    requires Run(sessions, frames, st).0 == Waiting
    ensures Run(sessions, frames + more, st) == Run(sessions, more, Run(sessions, frames, st).1)
    decreases |frames|
  {
    if frames == [] {
      assert frames + more == more;
    } else {
      assert (frames + more)[0] == frames[0];
      match FrameStep(sessions, st, frames[0])
      case Stop(_, _) =>
      case Continue(next) =>
        assert (frames + more)[1..] == frames[1..] + more;
        RunWaitingContinues(sessions, frames[1..], more, next);
    }
  }

  /** The loop only ever appends: earlier writes, candidates and peers stay
      where they are. */
  lemma {:induction false} RunExtends(sessions: map<Bytes, nat>, frames: seq<Frame>, st: State)
    ensures var r := Run(sessions, frames, st).1;
      && st.writes <= r.writes && st.drone <= r.drone && st.monitor <= r.monitor && st.peers <= r.peers
    decreases |frames|
  {
    if frames != [] {
      match FrameStep(sessions, st, frames[0])
      case Stop(_, _) =>
      case Continue(next) => RunExtends(sessions, frames[1..], next);
    }
  }

  predicate AllAnswers(writes: seq<Outgoing>) {
    forall i | 0 <= i < |writes| :: writes[i].event == VIDEO_ANSWER && GoodMeta(writes[i].data.meta)
  }

  lemma {:induction false} FrameStepWritesAnswers(sessions: map<Bytes, nat>, st: State, f: Frame)
    requires AllAnswers(st.writes)
    ensures FrameStep(sessions, st, f).Continue? ==> AllAnswers(FrameStep(sessions, st, f).next.writes)
  {
    if f.Text? && f.msg.Some? && f.msg.value.event == VIDEO_OFFER && FrameStep(sessions, st, f).Continue? {
      var w := FrameStep(sessions, st, f).next.writes;
      assert w == st.writes + [AnswerReply(f.msg.value.offer.value, f.peer.signalling.answer)];
    }
  }

  /** Every answer written is a "video-answer" whose meta is the offer's
      meta, which has a non-empty id. */
  lemma {:induction false} RunWritesAnswers(sessions: map<Bytes, nat>, frames: seq<Frame>, st: State)
    requires AllAnswers(st.writes)
    ensures AllAnswers(Run(sessions, frames, st).1.writes)
    decreases |frames|
  {
    if frames != [] {
      match FrameStep(sessions, st, frames[0])
      case Stop(_, _) =>
      case Continue(next) =>
        FrameStepWritesAnswers(sessions, st, frames[0]);
        RunWritesAnswers(sessions, frames[1..], next);
    }
  }

  /** A subscriber peer sends exactly the track registered under the
      offer's key, and has the offer as its remote description and the
      answer as its local one. */
  lemma {:induction false} OfferPeerSendsRegisteredTrack(sessions: map<Bytes, nat>, st: State, m: Incoming, peer: W.PeerEnv, writeFails: bool)
    requires OfferStep(sessions, st, m, peer, writeFails).Continue?
    ensures var pc := OfferStep(sessions, st, m, peer, writeFails).next.peers[|st.peers|];
      && pc.senders == [Pion.Sender(sessions[HubPublisher.MetaKey(m.offer.value.meta.value)], false)]
      && pc.remote == Pion.ParseDescriptionJson(m.offer.value.sdp)
      && pc.local == Some(peer.signalling.answer)
  {
  }

  /** The answer in a reply reads back as the answer the library made. */
  lemma {:induction false} AnswerReplyParses(offer: Pb.SessionDescription, answer: Pion.SessionDescription)
    requires Pion.KnownSdpType(answer.sdpType)
    ensures Pion.ParseDescriptionJson(AnswerReply(offer, answer).data.sdp) == Some(answer)
    ensures AnswerReply(offer, answer).data.meta == offer.meta
  {
    Pion.DescriptionJsonRoundTrip(answer);
  }

  /** A candidate whose meta names track source UNKNOWN is queued for the
      MONITOR peers. */
  lemma {:induction false} UnknownCandidatesGoToMonitor(sessions: map<Bytes, nat>, st: State, m: Incoming)
    requires CandidateStep(sessions, st, m).Continue?
    requires m.candidate.value.meta.value.trackSource == Pb.UNKNOWN
    ensures CandidateStep(sessions, st, m).next.drone == st.drone
    ensures CandidateStep(sessions, st, m).next.monitor
         == st.monitor + [Pion.ParseCandidateInitJson(m.candidate.value.candidate).value.candidate]
  {
  }

  /** A candidate channel: its values and whether it is closed. */
  class CandidateChan {
    var items: seq<Bytes>
    var closed: bool

    constructor()
      ensures items == [] && !closed
    {
      items := [];
      closed := false;
    }

    /** `ch <- c` (the buffer of two is not modelled). */
    method Send(c: Bytes)
      requires !closed
      modifies this
      ensures items == old(items) + [c] && !closed
    {
      items := items + [c];
    }

    method Close()
      modifies this
      ensures closed && items == old(items)
    {
      closed := true;
    }
  }

  /** One turn of the loop, in place: the offer case signals through a
      fresh signaller, a candidate goes to its channel. */
  method HandleFrame(sessions: HubPublisher.Sessions, f: Frame, writes: seq<Outgoing>, peers: seq<Pion.PeerConnection>,
                     drone: CandidateChan, monitor: CandidateChan)
    returns (stop: Option<End>, writes': seq<Outgoing>, peers': seq<Pion.PeerConnection>)
    requires drone != monitor && !drone.closed && !monitor.closed
    modifies drone, monitor
    ensures !drone.closed && !monitor.closed
    ensures var r := FrameStep(sessions.tracks, State(writes, old(drone.items), old(monitor.items), peers), f);
      var st := State(writes', drone.items, monitor.items, peers');
      match r
      case Stop(end, last) => stop == Some(end) && st == last
      case Continue(next) => stop == None && st == next
  {
    writes', peers' := writes, peers;
    if f.ReadFailed? {
      return Some(ReadError), writes', peers';
    }
    if f.NotText? {
      return Some(NotTextMessage), writes', peers';
    }
    if f.msg.None? {
      return Some(NotJson), writes', peers';
    }
    var m := f.msg.value;
    if m.event == VIDEO_OFFER {
      stop, writes', peers' := HandleOffer(sessions, m, f.peer, f.writeFails, writes, peers, drone.items, monitor.items);
    } else if m.event == NEW_ICE_CANDIDATE {
      stop := HandleCandidate(sessions, m, writes, peers, drone, monitor);
    } else {
      stop := None;
    }
  }

  /** The "video-offer" case in place: a fresh signaller holds the offer,
      the subscriber peer is created from it, and its answer is written. */
  method HandleOffer(sessions: HubPublisher.Sessions, m: Incoming, peer: W.PeerEnv, writeFails: bool,
                     writes: seq<Outgoing>, peers: seq<Pion.PeerConnection>, drone: seq<Bytes>, monitor: seq<Bytes>)
    returns (stop: Option<End>, writes': seq<Outgoing>, peers': seq<Pion.PeerConnection>)
    ensures var r := OfferStep(sessions.tracks, State(writes, drone, monitor, peers), m, peer, writeFails);
      var st := State(writes', drone, monitor, peers');
      match r
      case Stop(end, last) => stop == Some(end) && st == last
      case Continue(next) => stop == None && st == next
  {
    writes', peers' := writes, peers;
    if m.offer.None? {
      return Some(BadData), writes', peers';
    }
    var offer := m.offer.value;
    if !GoodMeta(offer.meta) {
      return Some(BadMeta), writes', peers';
    }
    var key := Topics.SessionKey(offer.meta.value.id, offer.meta.value.trackSource as int);
    if key !in sessions.tracks {
      return Some(NoSession), writes', peers';
    }
    var parsed := Pion.ParseDescriptionJson(offer.sdp);
    if parsed.None? {
      return Some(BadSdp), writes', peers';
    }
    var outcome, pc, answer := W.SignalFresh(W.SubscriberRole, sessions.tracks[key], parsed.value, peer);
    if outcome != W.Done {
      return Some(SubscriberFailed(outcome)), writes', peers';
    }
    peers' := peers + [pc];
    if writeFails {
      return Some(WriteFailed), writes', peers';
    }
    writes' := writes + [Outgoing(VIDEO_ANSWER, Pb.SessionDescription(offer.meta, Pion.DescriptionJson(answer)))];
    stop := None;
  }

  /** The "new-ice-candidate" case in place: the candidate is sent on the
      channel of its track source. */
  method HandleCandidate(sessions: HubPublisher.Sessions, m: Incoming, writes: seq<Outgoing>, peers: seq<Pion.PeerConnection>,
                         drone: CandidateChan, monitor: CandidateChan)
    returns (stop: Option<End>)
    requires drone != monitor && !drone.closed && !monitor.closed
    modifies drone, monitor
    ensures !drone.closed && !monitor.closed
    ensures var r := CandidateStep(sessions.tracks, State(writes, old(drone.items), old(monitor.items), peers), m);
      var st := State(writes, drone.items, monitor.items, peers);
      match r
      case Stop(end, last) => stop == Some(end) && st == last
      case Continue(next) => stop == None && st == next
  {
    if m.candidate.None? {
      return Some(BadData);
    }
    var candidate := m.candidate.value;
    if !GoodMeta(candidate.meta) {
      return Some(BadMeta);
    }
    var key := Topics.SessionKey(candidate.meta.value.id, candidate.meta.value.trackSource as int);
    if key !in sessions.tracks {
      return Some(NoSession);
    }
    var init := Pion.ParseCandidateInitJson(candidate.candidate);
    if init.None? {
      return Some(BadCandidate);
    }
    if candidate.meta.value.trackSource == Pb.DRONE {
      drone.Send(init.value.candidate);
    } else {
      monitor.Send(init.value.candidate);
    }
    stop := None;
  }

  /** processMessage over the frames the socket delivers: both candidate
      channels are made at the start and closed however the loop ends. */
  method ProcessMessage(sessions: HubPublisher.Sessions, frames: seq<Frame>)
    returns (end: End, writes: seq<Outgoing>, peers: seq<Pion.PeerConnection>, drone: CandidateChan, monitor: CandidateChan)
    ensures fresh(drone) && fresh(monitor) && drone != monitor
    ensures drone.closed && monitor.closed
    ensures (end, State(writes, drone.items, monitor.items, peers)) == Run(sessions.tracks, frames, Start)
  {
    drone := new CandidateChan();
    monitor := new CandidateChan();
    writes, peers := [], [];
    end := Waiting;
    var i := 0;
    var stopped := false;
    while i < |frames| && !stopped
      invariant 0 <= i <= |frames|
      invariant fresh(drone) && fresh(monitor) && !drone.closed && !monitor.closed
      invariant drone != monitor && (!stopped ==> end == Waiting)
      invariant !stopped ==>
        Run(sessions.tracks, frames, Start) == Run(sessions.tracks, frames[i..], State(writes, drone.items, monitor.items, peers))
      invariant stopped ==> Run(sessions.tracks, frames, Start) == (end, State(writes, drone.items, monitor.items, peers))
      decreases |frames| - i, if stopped then 0 else 1
    {
      var stop;
      stop, writes, peers := HandleFrame(sessions, frames[i], writes, peers, drone, monitor);
      if stop.Some? {
        end := stop.value;
        stopped := true;
      } else {
        assert frames[i..][1..] == frames[i + 1..];
        i := i + 1;
      }
    }
    assert !stopped ==> frames[i..] == [];
    drone.Close();
    monitor.Close();
  }
}
