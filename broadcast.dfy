/** The older broadcast service (`internal/broadcast/broadcast.go`):
    sessions start one after another; each started session registers its
    subscriber channels under the publisher's (id, track source), and a
    browser's WebSocket subscription is routed to the channels of the pair
    its offer names. */
module Broadcast {
  import opened Wrappers
  import opened ByteStrings
  import Pion
  import Pb = SignalPb
  import W = HubWebRtc
  import Rtc = BroadcastRtc

  /** `map[machineID]subscriber`, generic in what it stores per pair. */
  type Registry<V> = map<Bytes, map<Pb.TrackSource, V>>

  /** The Broadcast callback's update: the id now maps to a fresh inner
      map holding only `t`. */
  function Register<V>(m: Registry<V>, id: Bytes, t: Pb.TrackSource, v: V): Registry<V> {
    m[id := map[t := v]]
  }

  /** Registering a track source of an id forgets every other track
      source of the same id, and leaves the other ids alone. */
  lemma {:induction false} RegisterReplacesInner<V>(m: Registry<V>, id: Bytes, t: Pb.TrackSource, v: V, t2: Pb.TrackSource, id2: Bytes)
    requires t2 != t && id2 != id
    ensures t in Register(m, id, t, v)[id] && Register(m, id, t, v)[id][t] == v
    ensures t2 !in Register(m, id, t, v)[id]
    ensures id2 in Register(m, id, t, v) <==> id2 in m
    ensures id2 in m ==> Register(m, id, t, v)[id2] == m[id2]
  {
  }

  /** The lookup in handleSubscription: both the id and the track source
      must be present. */
  function Lookup<V>(m: Registry<V>, id: Bytes, t: Pb.TrackSource): (r: Option<V>)
    ensures r.Some? <==> id in m && t in m[id]
    ensures r.Some? ==> r.value == m[id][t]
  {
    if id in m && t in m[id] then Some(m[id][t]) else None
  }

  /** After two sessions of one id start, in either track source order,
      only the later one is found. */
  lemma {:induction false} SecondSessionShadowsFirst<V>(m: Registry<V>, id: Bytes, t1: Pb.TrackSource, v1: V, t2: Pb.TrackSource, v2: V)
    requires t1 != t2
    ensures Lookup(Register(Register(m, id, t1, v1), id, t2, v2), id, t1).None?
    ensures Lookup(Register(Register(m, id, t1, v1), id, t2, v2), id, t2) == Some(v2)
  {
    RegisterReplacesInner(Register(m, id, t1, v1), id, t2, v2, t1, id + [0]);
  }

  // ---- the session loop ----

  /** How one session's start ended: with an error, or with the publisher
      half connected and the session's identity known. */
  datatype Start = StartFailed | Started(id: Bytes, trackSource: Pb.TrackSource)

  /** The first failed start, or |starts|. */
  function FirstFailure(starts: seq<Start>): (k: nat)
    ensures k <= |starts|
    ensures forall i | 0 <= i < k :: starts[i].Started?
    ensures k < |starts| ==> starts[k].StartFailed?
  {
    if starts == [] then 0
    else if starts[0].StartFailed? then 0
    else 1 + FirstFailure(starts[1..])
  }

  /** The (id, track sources) the registry holds, forgetting the channels. */
  function Shape<V>(m: Registry<V>): map<Bytes, set<Pb.TrackSource>> {
    map id | id in m :: m[id].Keys
  }

  /** The shape after the successful starts of `starts`, in order. */
  function Expected(shape: map<Bytes, set<Pb.TrackSource>>, starts: seq<Start>): map<Bytes, set<Pb.TrackSource>>
    requires forall i | 0 <= i < |starts| :: starts[i].Started?
  {
    if starts == [] then shape
    else
      var last := starts[|starts| - 1];
      Expected(shape, starts[..|starts| - 1])[last.id := {last.trackSource}]
  }

  lemma {:induction false} ShapeRegister<V>(m: Registry<V>, id: Bytes, t: Pb.TrackSource, v: V)
    ensures Shape(Register(m, id, t, v)) == Shape(m)[id := {t}]
  {
    var a, b := Shape(Register(m, id, t, v)), Shape(m)[id := {t}];
    assert a.Keys == b.Keys;
    assert (map[t := v]).Keys == {t};
  }

  /** Every id a start registered holds exactly one track source: the
      one of the last start with that id. */
  lemma {:induction false} ExpectedLastWins(shape: map<Bytes, set<Pb.TrackSource>>, starts: seq<Start>, j: nat)
    requires forall i | 0 <= i < |starts| :: starts[i].Started?
    requires j < |starts|
    requires forall i | j < i < |starts| :: starts[i].id != starts[j].id
    ensures starts[j].id in Expected(shape, starts)
    ensures Expected(shape, starts)[starts[j].id] == {starts[j].trackSource}
  {
    if j < |starts| - 1 {
      ExpectedLastWins(shape, starts[..|starts| - 1], j);
    }
  }

  /** At most one error ends Broadcast (`Stopped`); while every start
      succeeds the loop goes on (`Running`). */
  datatype Loop = Running | Stopped

  /** The service: the registry of subscriber channels. */
  class Service {
    var sessions: Registry<Rtc.Chans>

    constructor()
      ensures sessions == map[]
    {
      sessions := map[];
    }

    /** The callback passed to `s.start`. */
    method Middle(id: Bytes, t: Pb.TrackSource, chans: Rtc.Chans)
      modifies this`sessions
      ensures sessions == Register(old(sessions), id, t, chans)
    {
      var inner := map[t := chans];
      sessions := sessions[id := inner];
    }

    /** Broadcast's loop over the sessions' starts: each session gets fresh
        subscriber channels that are registered once its start succeeds;
        the first failure returns the error. */
    method Sessions(starts: seq<Start>) returns (loop: Loop)
      modifies this`sessions
      ensures loop == Stopped <==> FirstFailure(starts) < |starts|
      ensures Shape(sessions) == Expected(Shape(old(sessions)), starts[..FirstFailure(starts)])
    {
      var i := 0;
      loop := Running;
      while i < |starts|
        invariant 0 <= i <= |starts|
        invariant forall j | 0 <= j < i :: starts[j].Started?
        invariant Shape(sessions) == Expected(Shape(old(sessions)), starts[..i])
      {
        if starts[i].StartFailed? {
          FirstFailureAt(starts, i);
          return Stopped;
        }
        var chans := new Rtc.Chans();
        ShapeRegister(sessions, starts[i].id, starts[i].trackSource, chans);
        Middle(starts[i].id, starts[i].trackSource, chans);
        assert starts[..i + 1][..i] == starts[..i];
        i := i + 1;
      }
      FirstFailureAt(starts, i);
      assert starts[..i] == starts;
    }
  }

  lemma {:induction false} FirstFailureAt(starts: seq<Start>, k: nat)
    requires k <= |starts|
    requires forall j | 0 <= j < k :: starts[j].Started?
    requires k < |starts| ==> starts[k].StartFailed?
    ensures FirstFailure(starts) == k
  {
    if k > 0 {
      FirstFailureAt(starts[1..], k - 1);
    }
  }

  // ---- a subscription ----

  /** One WebSocket write: the text "wrong id" or a description. */
  datatype WsMessage = WrongId | Answer(sdp: Rtc.SessionDescription)

  /** How the first half of a subscription ends: panicked (the read or the
      write failed), blocked for good on the nil channel after writing
      "wrong id", or with the offer forwarded to a session. */
  datatype Routed = RoutePanicked | BlockedOnNil | Forwarded(chans: Rtc.Chans)

  /** The channels `offer` is routed to, as a frame. */
  function Target(registry: Registry<Rtc.Chans>, offer: Option<Rtc.SessionDescription>): set<Rtc.Chans> {
    if offer.Some? && Lookup(registry, offer.value.id, offer.value.trackSource).Some?
    then {Lookup(registry, offer.value.id, offer.value.trackSource).value}
    else {}
  }

  /** handleSubscription up to `offerChan <- &offer`. `offer` is None when
      `wsjson.Read` fails. */
  method Route(registry: Registry<Rtc.Chans>, offer: Option<Rtc.SessionDescription>, writeFails: bool)
    returns (r: Routed, written: seq<WsMessage>)
    modifies Target(registry, offer)`offers
    ensures offer.None? ==> r == RoutePanicked && written == []
    ensures offer.Some? ==> match Lookup(registry, offer.value.id, offer.value.trackSource)
      case None => written == [WrongId] && r == (if writeFails then RoutePanicked else BlockedOnNil)
      case Some(chans) => written == [] && r == Forwarded(chans) && chans.offers == old(chans.offers) + [offer]
  {
    written := [];
    if offer.None? {
      return RoutePanicked, written;
    }
    var found := Lookup(registry, offer.value.id, offer.value.trackSource);
    if found.None? {
      written := [WrongId];
      r := if writeFails then RoutePanicked else BlockedOnNil;
      return;
    }
    found.value.SendOffer(offer);
    r := Forwarded(found.value);
  }

  /** The end of handleSubscription: wait for the session's answer, write
      it (a write error panics), then close normally. Returns None when it
      is still waiting. */
  method Reply(chans: Rtc.Chans, writeFails: bool) returns (closedNormally: Option<bool>, written: seq<WsMessage>)
    modifies chans`answers
    ensures old(chans.answers) == [] ==> closedNormally.None? && written == [] && chans.answers == []
    ensures old(chans.answers) != [] ==>
      && closedNormally == Some(!writeFails)
      && written == [Answer(old(chans.answers)[0])]
      && chans.answers == old(chans.answers)[1..]
  {
    if chans.answers == [] {
      return None, [];
    }
    var answer := chans.TakeAnswer();
    written := [Answer(answer)];
    closedNormally := Some(!writeFails);
  }

  /** A subscription to a registered session, with the session's
      subscriber loop running between the forward and the reply: exactly
      one offer reaches the session, and the browser gets exactly the
      session's answer before the socket closes normally. */
  method Subscribe(session: Rtc.Session, registry: Registry<Rtc.Chans>, offer: Rtc.SessionDescription,
                   track: nat, env: Rtc.PeerEnv)
    returns (closedNormally: Option<bool>, written: seq<WsMessage>)
    requires session.publisherChans != session.subscriberChans
    requires Lookup(registry, offer.id, offer.trackSource) == Some(session.subscriberChans)
    requires session.subscriberChans.offers == [] && session.subscriberChans.answers == []
    requires !env.newFails && !env.addFails
    requires !env.answering.setRemoteFails && !env.answering.createAnswerFails && !env.answering.setLocalFails
    modifies session`id, session`trackSource, session.publisherChans, session.subscriberChans
    ensures closedNormally == Some(true)
    ensures written == [Answer(Rtc.WebRtcToPb(env.answering.answer))]
    ensures session.subscriberChans.offers == [] && session.subscriberChans.answers == []
  {
    var routed, w1 := Route(registry, Some(offer), false);
    assert session.subscriberChans.offers == [Some(offer)];
    var outcome, pc := session.CreatePeer(Rtc.PEER_SUBSCRIBER, track, env);
    var w2;
    closedNormally, w2 := Reply(session.subscriberChans, false);
    written := w1 + w2;
  }
}
