/** The edge publisher of `internal/livestream`: the subscriber counter
    that starts and stops the live stream, the bounded burst of peer
    connection retries, and the buffer of locally gathered ICE candidates
    that waits for the cloud's answer. Each handler is one sequential step
    on the publisher's fields; a blocking receive is the boundary between
    two steps. */
module EdgePublisher {
  import opened ByteStrings
  import opened Wrappers
  import Pion
  import PeerClose
  import Topics
  import Attempts
  import Pb = SignalPb

  /** `maxBurstRetries`. */
  const MAX_BURST_RETRIES: nat := 10

  // ---- listenSubscriber: the subscriber counter ----

  /** The topic the hub reports subscriber states on. */
  function HookStreamTopic(prefix: Bytes, meta: Pb.Meta): Bytes {
    Topics.Topic(prefix, meta.id, meta.trackSource as int)
  }

  /** The state behind listenSubscriber: `subscriberCounter` (a uint32),
      the generation of the stream context (every cancel renews it, so
      generations below `ctx` are cancelled), and for every live stream
      started, the generation of the context it was handed. */
  datatype Listener = Listener(counter: nat, ctx: nat, streams: seq<nat>)

  /** One message on the hook-stream topic. */
  function SubscriberStep(l: Listener, payload: Bytes): (r: Listener)
    requires l.counter < TWO_32
    ensures r.counter < TWO_32 && r.counter <= l.counter + 1
    ensures Atoi(payload).None? ==> r == l
    ensures Atoi(payload) == Some(Pion.ICE_CONNECTED) ==>
      && r.counter == IncUint32(l.counter) && r.ctx == l.ctx
      && (l.counter == 0 ==> r.streams == l.streams + [l.ctx])
      && (l.counter != 0 ==> r.streams == l.streams)
    ensures Atoi(payload) == Some(Pion.ICE_DISCONNECTED) && l.counter == 0 ==> r == l
    ensures Atoi(payload) == Some(Pion.ICE_DISCONNECTED) && l.counter > 0 ==>
      && r.counter == l.counter - 1 && r.streams == l.streams
      && (r.ctx != l.ctx <==> r.counter == 0)
    ensures Atoi(payload).Some? && Atoi(payload).value !in {Pion.ICE_CONNECTED, Pion.ICE_DISCONNECTED} ==> r == l
  {
    match Atoi(payload)
    case None => l
    case Some(state) =>
      if state == Pion.ICE_CONNECTED then
        Listener(IncUint32(l.counter), l.ctx, if l.counter == 0 then l.streams + [l.ctx] else l.streams)
      else if state == Pion.ICE_DISCONNECTED && l.counter > 0 then
        if l.counter == 1 then Listener(0, l.ctx + 1, l.streams) else l.(counter := l.counter - 1)
      else l
  }

  /** A sequence of messages, in order. */
  function SubscriberSteps(l: Listener, payloads: seq<Bytes>): (r: Listener)
    requires l.counter + |payloads| < TWO_32
    ensures r.counter <= l.counter + |payloads|
    decreases |payloads|
  {
    if payloads == [] then l else SubscriberSteps(SubscriberStep(l, payloads[0]), payloads[1..])
  }

  /** How many streams were started under context generation `ctx`. */
  function Live(streams: seq<nat>, ctx: nat): nat {
    if streams == [] then 0
    else Live(streams[..|streams| - 1], ctx) + (if streams[|streams| - 1] == ctx then 1 else 0)
  }

  /** Exactly one stream runs under the live context while subscribers are
      counted, none otherwise; no stream holds a context not yet made. */
  predicate Tracked(l: Listener) {
    && (forall i | 0 <= i < |l.streams| :: l.streams[i] <= l.ctx)
    && Live(l.streams, l.ctx) == (if l.counter > 0 then 1 else 0)
  }

  lemma {:induction false} LiveSnoc(streams: seq<nat>, x: nat, ctx: nat)
    ensures Live(streams + [x], ctx) == Live(streams, ctx) + (if x == ctx then 1 else 0)
  {
    assert (streams + [x])[..|streams|] == streams;
  }

  lemma {:induction false} LiveNone(streams: seq<nat>, ctx: nat)
    requires forall i | 0 <= i < |streams| :: streams[i] < ctx
    ensures Live(streams, ctx) == 0
    decreases |streams|
  {
    if streams != [] {
      LiveNone(streams[..|streams| - 1], ctx);
    }
  }

  /** Every message keeps the stream in step with the counter, as long as
      the counter does not wrap around. */
  lemma {:induction false} SubscriberStepTracked(l: Listener, payload: Bytes)
    requires l.counter + 1 < TWO_32 && Tracked(l)
    ensures Tracked(SubscriberStep(l, payload))
  {
    var r := SubscriberStep(l, payload);
    if Atoi(payload) == Some(Pion.ICE_CONNECTED) && l.counter == 0 {
      LiveSnoc(l.streams, l.ctx, l.ctx);
      assert forall i | 0 <= i < |r.streams| :: r.streams[i] <= r.ctx by {
        assert forall i | 0 <= i < |l.streams| :: r.streams[i] == l.streams[i];
      }
    } else if r.ctx != l.ctx {
      LiveNone(l.streams, l.ctx + 1);
    }
  }

  lemma {:induction false} SubscriberStepsTracked(l: Listener, payloads: seq<Bytes>)
    requires l.counter + |payloads| < TWO_32 && Tracked(l)
    ensures Tracked(SubscriberSteps(l, payloads))
    decreases |payloads|
  {
    if payloads != [] {
      SubscriberStepTracked(l, payloads[0]);
      SubscriberStepsTracked(SubscriberStep(l, payloads[0]), payloads[1..]);
    }
  }

  /** At 0xFFFF_FFFF subscribers one more wraps the counter to 0 while the
      stream keeps running. */
  lemma {:induction false} CounterWrapKeepsStream(l: Listener, payload: Bytes)
    requires Tracked(l) && l.counter == TWO_32 - 1
    requires Atoi(payload) == Some(Pion.ICE_CONNECTED)
    ensures SubscriberStep(l, payload).counter == 0
    ensures Live(SubscriberStep(l, payload).streams, SubscriberStep(l, payload).ctx) == 1
  {
  }

  /** The edge's own ICE reconnection zeroes the counter without cancelling
      the stream, so the next subscriber starts a second stream under the
      same context. */
  lemma {:induction false} ReconnectThenSubscriberStartsSecondStream(l: Listener, payload: Bytes)
    requires Tracked(l) && 0 < l.counter < TWO_32
    requires Atoi(payload) == Some(Pion.ICE_CONNECTED)
    ensures var r := SubscriberStep(l.(counter := 0), payload);
      Live(r.streams, r.ctx) == 2 && r.counter == 1
  {
    LiveSnoc(l.streams, l.ctx, l.ctx);
  }

  // ---- handleICEConnectionStateChange: the burst of retries ----

  /** The retry counter after an ICE failure: a full burst first waits the
      group interval and starts over from 0, then the retry is counted. */
  function BurstAfterFailure(n: nat): (r: nat)
    requires n < TWO_32
    ensures r < TWO_32
    ensures n <= MAX_BURST_RETRIES ==> 1 <= r <= MAX_BURST_RETRIES
    ensures n < MAX_BURST_RETRIES ==> r == n + 1
    ensures n == MAX_BURST_RETRIES ==> r == 1
  {
    IncUint32(if n == MAX_BURST_RETRIES then 0 else n)
  }

  /** The close of a failed connection reports an error. */
  predicate CloseFails(pc: Pion.PeerConnection, env: PeerClose.CloseEnv) {
    PeerClose.FirstFailure(|pc.senders|, env).Some? || env.closeFails
  }

  // ---- createPeerConnection ----

  /** The steps of createPeerConnection that can fail before the answer;
      `SendOfferStep` is an encoding error in sendOffer. */
  datatype ConnectStep = NewPeerConnectionStep | AddTrackStep | CreateOfferStep | SetLocalStep | SendOfferStep

  datatype ConnectError =
    | CouldNotCreatePeerConnection
    | CouldNotAddTrack
    | CouldNotCreateOffer
    | CouldNotSetLocal
    | CouldNotSendOffer
    | CouldNotSetRemote
    | CouldNotSendCandidate

  /** What the library answers up to the offer: the failing steps and the
      offer it creates. */
  datatype OfferEnv = OfferEnv(fails: set<ConnectStep>, offer: Pion.SessionDescription)

  /** The first part of createPeerConnection, up to the wait for the
      answer: the error it returns, the connection (None when none was
      made) and the offer published, if any. */
  datatype Started = Started(err: Option<ConnectError>, pc: Option<Pion.PeerConnection>, published: Option<Pion.SessionDescription>)

  function StartConnection(track: nat, env: OfferEnv): (r: Started)
    ensures r.err.None? <==> r.published.Some?
    ensures r.err.None? ==> r.pc == Some(Pion.PeerConnection(Some(env.offer), None, [Pion.Sender(track, false)], false, []))
    ensures r.pc.None? <==> NewPeerConnectionStep in env.fails
    ensures r.pc.Some? ==> r.pc.value.remote.None? && !r.pc.value.closed
  {
    if NewPeerConnectionStep in env.fails then Started(Some(CouldNotCreatePeerConnection), None, None)
    else
      var withTrack := Pion.NewPeerConnection([Pion.Sender(track, false)]);
      if AddTrackStep in env.fails then Started(Some(CouldNotAddTrack), Some(Pion.NewPeerConnection([])), None)
      else if CreateOfferStep in env.fails then Started(Some(CouldNotCreateOffer), Some(withTrack), None)
      else if SetLocalStep in env.fails then Started(Some(CouldNotSetLocal), Some(withTrack), None)
      else
        var offered := withTrack.(local := Some(env.offer));
        if SendOfferStep in env.fails then Started(Some(CouldNotSendOffer), Some(offered), None)
        else Started(None, Some(offered), Some(env.offer))
  }

  class Publisher {
    const meta: Pb.Meta
    /** `burstRetriesNo`. */
    var burstRetries: nat
    var subscriberCounter: nat
    /** The context generation of the one listenSubscriber call. */
    var ctx: nat
    /** The context generation each live stream was started with. */
    var streams: seq<nat>
    /** `pendingCandidates`. */
    var pending: seq<Pion.IceCandidate>
    /** The candidates sendCandidate delivered, in order. */
    var sentCandidates: seq<Pion.IceCandidate>
    /** The offers sendOffer published, in order. */
    var offers: seq<Pion.SessionDescription>

    /** The counters fit their uint32 fields and a burst never exceeds
        `maxBurstRetries`. */
    predicate Valid()
      reads this
    {
      burstRetries <= MAX_BURST_RETRIES && subscriberCounter < TWO_32
    }

    function ListenerState(): Listener
      reads this
    {
      Listener(subscriberCounter, ctx, streams)
    }

    constructor(meta: Pb.Meta)
      ensures this.meta == meta && Valid()
      ensures burstRetries == 0 && subscriberCounter == 0 && ctx == 0 && streams == []
      ensures pending == [] && sentCandidates == [] && offers == []
      ensures Tracked(ListenerState())
    {
      this.meta := meta;
      burstRetries := 0;
      subscriberCounter := 0;
      ctx := 0;
      streams := [];
      pending := [];
      sentCandidates := [];
      offers := [];
    }

    /** The subscription callback of listenSubscriber. */
    method OnSubscriberMessage(payload: Bytes)
      requires Valid()
      modifies this`subscriberCounter, this`ctx, this`streams
      ensures Valid()
      ensures ListenerState() == SubscriberStep(old(ListenerState()), payload)
    {
      var state := Atoi(payload);
      if state.None? {
        return;
      }
      if state.value == Pion.ICE_CONNECTED {
        if subscriberCounter == 0 {
          streams := streams + [ctx];
        }
        subscriberCounter := IncUint32(subscriberCounter);
      } else if state.value == Pion.ICE_DISCONNECTED {
        if subscriberCounter == 0 {
          return;
        }
        subscriberCounter := subscriberCounter - 1;
        if subscriberCounter > 0 {
          return;
        }
        ctx := ctx + 1;
      }
    }

    /** The OnICECandidate callback of a connection `pc`: nil is ignored,
        a candidate is buffered while `pc` has no remote description and is
        sent at once otherwise (`sendOk`: sendCandidate succeeded; a failed
        send is only logged). */
    method OnIceCandidate(c: Option<Pion.IceCandidate>, pc: Pion.PeerConnection, sendOk: bool)
      modifies this`pending, this`sentCandidates
      ensures c.None? || pc.remote.Some? ==> pending == old(pending)
      ensures c.Some? && pc.remote.None? ==> pending == old(pending) + [c.value]
      ensures c.Some? && pc.remote.Some? && sendOk ==> sentCandidates == old(sentCandidates) + [c.value]
      ensures c.None? || pc.remote.None? || !sendOk ==> sentCandidates == old(sentCandidates)
    {
      if c.None? {
        return;
      }
      if pc.remote.None? {
        pending := pending + [c.value];
        return;
      }
      if sendOk {
        sentCandidates := sentCandidates + [c.value];
      }
    }

    /** createPeerConnection up to the wait for the answer. */
    method CreatePeerConnection(track: nat, env: OfferEnv) returns (err: Option<ConnectError>, pc: Option<Pion.PeerConnection>)
      modifies this`offers
      ensures var s := StartConnection(track, env);
        && err == s.err && pc == s.pc
        && offers == old(offers) + (if s.published.Some? then [s.published.value] else [])
    {
      if NewPeerConnectionStep in env.fails {
        return Some(CouldNotCreatePeerConnection), None;
      }
      var p := Pion.NewPeerConnection([]);
      if AddTrackStep in env.fails {
        return Some(CouldNotAddTrack), Some(p);
      }
      p := p.(senders := [Pion.Sender(track, false)]);
      if CreateOfferStep in env.fails {
        return Some(CouldNotCreateOffer), Some(p);
      }
      if SetLocalStep in env.fails {
        return Some(CouldNotSetLocal), Some(p);
      }
      p := p.(local := Some(env.offer));
      if SendOfferStep in env.fails {
        return Some(CouldNotSendOffer), Some(p);
      }
      offers := offers + [env.offer];
      return None, Some(p);
    }

    /** The flush after the answer is applied: pending candidates are sent
        in order, the first send error (at a position in `sendFails`) ends
        the loop and is returned, and the buffer is emptied either way. */
    method FlushPending(sendFails: set<nat>) returns (err: bool)
      modifies this`pending, this`sentCandidates
      ensures var k := Attempts.Completed(|old(pending)|, sendFails);
        && sentCandidates == old(sentCandidates) + old(pending)[..k]
        && err == (k < |old(pending)|)
      ensures pending == []
    {
      var i := 0;
      var failed := false;
      while i < |pending| && !failed
        invariant 0 <= i <= |pending| && pending == old(pending)
        invariant forall j | 0 <= j < i :: j !in sendFails
        invariant failed ==> i < |pending| && i in sendFails
        invariant sentCandidates == old(sentCandidates) + pending[..i]
        decreases |pending| - i, if failed then 0 else 1
      {
        if i in sendFails {
          failed := true;
        } else {
          sentCandidates := sentCandidates + [pending[i]];
          assert pending[..i + 1] == pending[..i] + [pending[i]];
          i := i + 1;
        }
      }
      assert i == Attempts.Completed(|pending|, sendFails);
      err := failed;
      pending := [];  // emptyPendingCandidate
    }

    /** The rest of createPeerConnection, once the answer channel yields:
        a nil answer returns success and leaves everything as it was; a
        failed SetRemoteDescription returns its error; otherwise the answer
        becomes the remote description and the buffer is flushed. */
    method OnAnswer(pc: Pion.PeerConnection, answer: Option<Pion.SessionDescription>, setRemoteFails: bool, sendFails: set<nat>)
      returns (err: Option<ConnectError>, pc': Pion.PeerConnection)
      modifies this`pending, this`sentCandidates
      ensures answer.None? || setRemoteFails ==>
        && pending == old(pending) && sentCandidates == old(sentCandidates) && pc' == pc
        && err == (if answer.None? then None else Some(CouldNotSetRemote))
      ensures answer.Some? && !setRemoteFails ==>
        var k := Attempts.Completed(|old(pending)|, sendFails);
        && pc' == pc.(remote := answer)
        && pending == [] && sentCandidates == old(sentCandidates) + old(pending)[..k]
        && err == (if k < |old(pending)| then Some(CouldNotSendCandidate) else None)
    {
      if answer.None? {
        return None, pc;
      }
      if setRemoteFails {
        return Some(CouldNotSetRemote), pc;
      }
      pc' := pc.(remote := answer);
      var failed := FlushPending(sendFails);
      err := if failed then Some(CouldNotSendCandidate) else None;
    }

    /** The ICE state handler of connection `pc`. Failed: the connection is
        closed (an error there panics); a full burst waits the group interval
        and resets the counter; a new connection is started (its error is
        only logged) and the retry is counted. Connected: the burst counter
        and a positive subscriber counter go to 0. Other states: nothing. */
    method OnIceConnectionStateChange(state: int, pc: Pion.PeerConnection, closeEnv: PeerClose.CloseEnv, track: nat, retry: OfferEnv)
      returns (outcome: IceOutcome)
      requires Valid()
      modifies this`burstRetries, this`subscriberCounter, this`offers
      ensures Valid()
      ensures state == Pion.ICE_FAILED && CloseFails(pc, closeEnv) ==>
        outcome == Panicked && unchanged(this)
      ensures state == Pion.ICE_FAILED && !CloseFails(pc, closeEnv) ==>
        var s := StartConnection(track, retry);
        && outcome.Retried?
        && outcome.waited == (old(burstRetries) == MAX_BURST_RETRIES)
        && outcome.err == s.err && outcome.pc == s.pc
        && burstRetries == BurstAfterFailure(old(burstRetries))
        && subscriberCounter == old(subscriberCounter)
        && offers == old(offers) + (if s.published.Some? then [s.published.value] else [])
      ensures state == Pion.ICE_CONNECTED ==>
        outcome == CountersReset && burstRetries == 0 && subscriberCounter == 0 && offers == old(offers)
      ensures state != Pion.ICE_FAILED && state != Pion.ICE_CONNECTED ==>
        outcome == NoAction && unchanged(this)
    {
      if state == Pion.ICE_FAILED {
        var closed, cerr := PeerClose.ClosePeerConnection(Some(pc), closeEnv);
        if cerr.Some? {
          return Panicked;
        }
        var n := burstRetries;
        if n == MAX_BURST_RETRIES {
          burstRetries := 0;  // after the burst-group interval
        }
        var err, retried := CreatePeerConnection(track, retry);
        burstRetries := IncUint32(burstRetries);
        return Retried(n == MAX_BURST_RETRIES, closed.value, err, retried);
      }
      if state == Pion.ICE_CONNECTED {
        burstRetries := 0;
        if subscriberCounter > 0 {
          subscriberCounter := 0;
        }
        return CountersReset;
      }
      return NoAction;
    }
  }

  datatype IceOutcome =
    | Panicked
    | Retried(waited: bool, closed: Pion.PeerConnection, err: Option<ConnectError>, pc: Option<Pion.PeerConnection>)
    | CountersReset
    | NoAction
}
