/** The cloud side of one WebRTC session (`internal/broadcast/webrtc`):
    the offer arrives on the signal channel, the answer goes back on it,
    and the ICE candidates gathered before the remote description exists
    wait in a buffer that is flushed after the answer. Publishers and
    subscribers share this code; they differ in the callbacks they pass. */
module HubWebRtc {
  import opened Wrappers
  import opened ByteStrings
  import Pion
  import PeerClose
  import Attempts

  /** `SignalChan` is made with a buffer of one. */
  const SIGNAL_CAPACITY: nat := 1

  datatype HubError =
    | CouldNotCreatePeerConnection
    | CouldNotAddTrack
    | CouldNotSetRemote
    | CouldNotCreateAnswer
    | CouldNotSetLocal
    | CouldNotSendCandidate

  /** How a step ends: blocked on a channel for good, panicked (a nil
      offer is dereferenced), returned an error, or returned nil. */
  datatype Outcome = Blocked | Panicked | Failed(err: HubError) | Done

  /** What the library and the candidate sender answer during the
      signalling of one connection. */
  datatype AnswerEnv = AnswerEnv(
    setRemoteFails: bool,
    createAnswerFails: bool,
    answer: Pion.SessionDescription,
    setLocalFails: bool,
    sendFails: set<nat>)

  /** The signal channel, the connection and the candidates the flush
      delivered, after signalPeerConnection. */
  datatype Signalled = Signalled(
    outcome: Outcome,
    pc: Pion.PeerConnection,
    signal: seq<Option<Pion.SessionDescription>>,
    sent: seq<Pion.IceCandidate>)

  /** signalPeerConnection: take the offer, set it as the remote
      description, create the answer, set it as the local description,
      put it on the signal channel, then send the pending candidates in
      order up to the first error. */
  function Signal(signal: seq<Option<Pion.SessionDescription>>, pending: seq<Pion.IceCandidate>,
                  pc: Pion.PeerConnection, env: AnswerEnv): (r: Signalled)
    requires |signal| <= SIGNAL_CAPACITY
    ensures signal == [] ==> r == Signalled(Blocked, pc, signal, [])
    ensures signal != [] && signal[0].None? ==> r == Signalled(Panicked, pc, [], [])
    // each library error is returned at once: the offer has been taken,
    // nothing is put back on the channel and nothing is sent
    ensures signal != [] && signal[0].Some? && env.setRemoteFails ==>
      r.outcome == Failed(CouldNotSetRemote) && r.signal == [] && r.sent == []
    ensures signal != [] && signal[0].Some? && !env.setRemoteFails && env.createAnswerFails ==>
      r.outcome == Failed(CouldNotCreateAnswer) && r.signal == [] && r.sent == []
    ensures signal != [] && signal[0].Some? && !env.setRemoteFails && !env.createAnswerFails && env.setLocalFails ==>
      r.outcome == Failed(CouldNotSetLocal) && r.signal == [] && r.sent == []
    // the remote description is set before anything else is tried
    ensures signal != [] && signal[0].Some? ==>
      r.pc.remote == (if env.setRemoteFails then pc.remote else signal[0])
    // a local description exists only after the answer was created
    ensures r.pc.local != pc.local ==>
      r.pc.local == Some(env.answer) && !env.setRemoteFails && !env.createAnswerFails
    // the answer is emitted only once it is the local description
    ensures Some(env.answer) in r.signal ==> r.pc.local == Some(env.answer)
    // candidates are sent only after the answer was emitted, in order
    ensures r.sent != [] ==> r.signal == [Some(env.answer)]
    // once the answer is out, the pending candidates are sent in order up
    // to the first send error, which is returned
    ensures signal != [] && signal[0].Some? && !env.setRemoteFails && !env.createAnswerFails && !env.setLocalFails ==>
      var k := Attempts.Completed(|pending|, env.sendFails);
      && r.signal == [Some(env.answer)] && r.pc.local == Some(env.answer)
      && r.sent == pending[..k]
      && r.outcome == (if k < |pending| then Failed(CouldNotSendCandidate) else Done)
    ensures r.outcome == Done <==>
      && signal != [] && signal[0].Some? && !env.setRemoteFails && !env.createAnswerFails && !env.setLocalFails
      && forall i | 0 <= i < |pending| :: i !in env.sendFails
    ensures r.outcome == Done ==> r.sent == pending && r.signal == [Some(env.answer)]
    ensures |r.signal| <= SIGNAL_CAPACITY
  {
    if signal == [] then Signalled(Blocked, pc, signal, [])
    else match signal[0]
      case None => Signalled(Panicked, pc, [], [])
      case Some(offer) =>
        if env.setRemoteFails then Signalled(Failed(CouldNotSetRemote), pc, [], [])
        else
          var withRemote := pc.(remote := Some(offer));
          if env.createAnswerFails then Signalled(Failed(CouldNotCreateAnswer), withRemote, [], [])
          else if env.setLocalFails then Signalled(Failed(CouldNotSetLocal), withRemote, [], [])
          else
            var answered := withRemote.(local := Some(env.answer));
            var k := Attempts.Completed(|pending|, env.sendFails);
            Signalled(if k < |pending| then Failed(CouldNotSendCandidate) else Done,
                      answered, [Some(env.answer)], pending[..k])
  }

  /** Whose connection is made: a publisher receives one video transceiver,
      a subscriber sends the publisher's track. */
  datatype Role = PublisherRole | SubscriberRole

  /** What the library answers for the whole of CreatePublisher or
      CreateSubscriber. */
  datatype PeerEnv = PeerEnv(newFails: bool, addFails: bool, signalling: AnswerEnv)

  /** The connection CreatePublisher or CreateSubscriber starts from. */
  function InitialConnection(role: Role, track: nat): Pion.PeerConnection {
    match role
    case PublisherRole => Pion.NewPeerConnection([])
    case SubscriberRole => Pion.NewPeerConnection([Pion.Sender(track, false)])
  }

  /** CreatePublisher / CreateSubscriber: make the connection, add the
      transceiver or the track, then signal. */
  function Create(role: Role, track: nat, signal: seq<Option<Pion.SessionDescription>>,
                  pending: seq<Pion.IceCandidate>, env: PeerEnv): (r: Signalled)
    requires |signal| <= SIGNAL_CAPACITY
    ensures env.newFails ==> r.outcome == Failed(CouldNotCreatePeerConnection) && r.signal == signal && r.sent == []
    ensures !env.newFails && env.addFails ==> r.outcome == Failed(CouldNotAddTrack) && r.signal == signal && r.sent == []
    ensures !env.newFails && !env.addFails ==> r == Signal(signal, pending, InitialConnection(role, track), env.signalling)
  {
    if env.newFails then Signalled(Failed(CouldNotCreatePeerConnection), Pion.NewPeerConnection([]), signal, [])
    else if env.addFails then Signalled(Failed(CouldNotAddTrack), Pion.NewPeerConnection([]), signal, [])
    else Signal(signal, pending, InitialConnection(role, track), env.signalling)
  }

  /** With an offer waiting and nothing buffered, a session that signals
      without error leaves exactly its answer on the channel and the
      offer as the remote description. */
  lemma {:induction false} CreateAnswers(role: Role, track: nat, offer: Pion.SessionDescription, env: PeerEnv)
    requires Create(role, track, [Some(offer)], [], env).outcome == Done
    ensures var r := Create(role, track, [Some(offer)], [], env);
      && r.signal == [Some(env.signalling.answer)]
      && r.pc.remote == Some(offer) && r.pc.local == Some(env.signalling.answer)
  {
  }

  // ---- the Noop callbacks ----

  /** `NoopSendCandidateFunc`: never an error. */
  function NoopSendCandidate(c: Pion.IceCandidate): (err: bool)
    ensures !err
  {
    false
  }

  /** `NoopRecvCandidateFunc`: a channel closed before anything is sent
      on it, so ranging over it yields nothing. */
  function NoopRecvCandidate(): (r: seq<Bytes>)
    ensures |r| == 0
  {
    []
  }

  /** The remote candidates signalCandidate adds, in order: those whose
      AddICECandidate does not fail (a failure is only logged). */
  function Accepted(received: seq<Bytes>, addFails: set<nat>): (r: seq<Pion.IceCandidateInit>)
    ensures |r| <= |received|
  {
    if received == [] then []
    else
      var last := |received| - 1;
      Accepted(received[..last], addFails) + (if last in addFails then [] else [Pion.IceCandidateInit(received[last])])
  }

  lemma {:induction false} AcceptedSnoc(received: seq<Bytes>, c: Bytes, addFails: set<nat>)
    ensures Accepted(received + [c], addFails)
      == Accepted(received, addFails) + (if |received| in addFails then [] else [Pion.IceCandidateInit(c)])
  {
    assert (received + [c])[..|received|] == received;
  }

  /** Only received candidates are added. */
  lemma {:induction false} AcceptedFromReceived(received: seq<Bytes>, addFails: set<nat>)
    ensures forall x | x in Accepted(received, addFails) :: x.candidate in received
    decreases |received|
  {
    if received != [] {
      var init := received[..|received| - 1];
      AcceptedFromReceived(init, addFails);
      forall x | x in Accepted(received, addFails)
        ensures x.candidate in received
      {
        if x in Accepted(init, addFails) {
          var j :| 0 <= j < |init| && init[j] == x.candidate;
          assert received[j] == x.candidate;
        } else {
          assert x.candidate == received[|received| - 1];
        }
      }
    }
  }

  /** With no failure every received candidate is added, in order. */
  lemma {:induction false} AcceptedAll(received: seq<Bytes>)
    ensures |Accepted(received, {})| == |received|
    ensures forall i | 0 <= i < |received| :: Accepted(received, {})[i] == Pion.IceCandidateInit(received[i])
    decreases |received|
  {
    if received != [] {
      var last := |received| - 1;
      var init := received[..last];
      AcceptedAll(init);
      var a := Accepted(init, {});
      assert Accepted(received, {}) == a + [Pion.IceCandidateInit(received[last])];
      forall i | 0 <= i < |received|
        ensures Accepted(received, {})[i] == Pion.IceCandidateInit(received[i])
      {
        if i < last {
          assert init[i] == received[i];
        }
      }
    }
  }

  /** signalCandidate: add each received remote candidate to `pc`. */
  method SignalCandidate(pc: Pion.PeerConnection, received: seq<Bytes>, addFails: set<nat>) returns (pc': Pion.PeerConnection)
    ensures pc' == pc.(addedRemoteCandidates := pc.addedRemoteCandidates + Accepted(received, addFails))
  {
    pc' := pc;
    var i := 0;
    while i < |received|
      invariant 0 <= i <= |received|
      invariant pc' == pc.(addedRemoteCandidates := pc'.addedRemoteCandidates)
      invariant pc'.addedRemoteCandidates == pc.addedRemoteCandidates + Accepted(received[..i], addFails)
    {
      AcceptedSnoc(received[..i], received[i], addFails);
      assert received[..i + 1] == received[..i] + [received[i]];
      if i !in addFails {
        pc' := pc'.(addedRemoteCandidates := pc'.addedRemoteCandidates + [Pion.IceCandidateInit(received[i])]);
      }
      i := i + 1;
    }
    assert received[..i] == received;
  }

  /** A subscriber's Noop receiver adds no remote candidate. */
  lemma {:induction false} NoopRecvAddsNothing(addFails: set<nat>)
    ensures Accepted(NoopRecvCandidate(), addFails) == []
  {
  }

  /** With the Noop sender the flush delivers every pending candidate. */
  lemma {:induction false} NoopSendFlushesAll(pending: seq<Pion.IceCandidate>, signal: seq<Option<Pion.SessionDescription>>,
                           pc: Pion.PeerConnection, env: AnswerEnv)
    requires |signal| <= SIGNAL_CAPACITY && env.sendFails == {}
    requires signal != [] && signal[0].Some?
    requires !env.setRemoteFails && !env.createAnswerFails && !env.setLocalFails
    ensures Signal(signal, pending, pc, env).outcome == Done
    ensures Signal(signal, pending, pc, env).sent == pending
  {
    Attempts.CompletedAll(|pending|);
  }

  /** A library call the ICE handler makes, in order. */
  datatype Call = HookStream | RegisterSession

  class WebRtc {
    /** `SignalChan`: nil entries are nil description pointers. */
    var signal: seq<Option<Pion.SessionDescription>>
    /** `pendingCandidates`. */
    var pending: seq<Pion.IceCandidate>
    /** The candidates sendCandidate delivered, in order. */
    var sent: seq<Pion.IceCandidate>
    /** The hookStream / registerSession calls, in order. */
    var calls: seq<Call>

    predicate Valid()
      reads this
    {
      |signal| <= SIGNAL_CAPACITY
    }

    constructor()
      ensures Valid() && signal == [] && pending == [] && sent == [] && calls == []
    {
      signal := [];
      pending := [];
      sent := [];
      calls := [];
    }

    /** `w.SignalChan <- d`, when the channel has room. */
    method PutSignal(d: Option<Pion.SessionDescription>)
      requires Valid() && |signal| < SIGNAL_CAPACITY
      modifies this`signal
      ensures Valid() && signal == old(signal) + [d]
    {
      signal := signal + [d];
    }

    /** `<-w.SignalChan`, when the channel holds a value. */
    method TakeSignal() returns (d: Option<Pion.SessionDescription>)
      requires Valid() && signal != []
      modifies this`signal
      ensures Valid() && d == old(signal)[0] && signal == old(signal)[1..]
    {
      d := signal[0];
      signal := signal[1..];
    }

    /** The OnICECandidate callback of `pc`: nil is ignored, a candidate is
        buffered while `pc` has no remote description and sent at once
        otherwise (`sendOk`: sendCandidate succeeded; a failure is only
        logged). */
    method OnIceCandidate(c: Option<Pion.IceCandidate>, pc: Pion.PeerConnection, sendOk: bool)
      modifies this`pending, this`sent
      ensures c.None? || pc.remote.Some? ==> pending == old(pending)
      ensures c.Some? && pc.remote.None? ==> pending == old(pending) + [c.value]
      ensures c.Some? && pc.remote.Some? && sendOk ==> sent == old(sent) + [c.value]
      ensures c.None? || pc.remote.None? || !sendOk ==> sent == old(sent)
    {
      if c.None? {
        return;
      }
      if pc.remote.None? {
        pending := pending + [c.value];
        return;
      }
      if sendOk {
        sent := sent + [c.value];
      }
    }

    /** The flush at the end of signalPeerConnection: the pending
        candidates are sent in order until the first error. The buffer is
        left as it is: nothing in this file ever empties it. */
    method FlushPending(sendFails: set<nat>) returns (failed: bool)
      modifies this`sent
      ensures var k := Attempts.Completed(|pending|, sendFails);
        sent == old(sent) + pending[..k] && failed == (k < |pending|)
    {
      var i := 0;
      failed := false;
      while i < |pending| && !failed
        invariant 0 <= i <= |pending|
        invariant forall j | 0 <= j < i :: j !in sendFails
        invariant failed ==> i < |pending| && i in sendFails
        invariant sent == old(sent) + pending[..i]
        decreases |pending| - i, if failed then 0 else 1
      {
        if i in sendFails {
          failed := true;
        } else {
          sent := sent + [pending[i]];
          assert pending[..i + 1] == pending[..i] + [pending[i]];
          i := i + 1;
        }
      }
      Attempts.CompletedIs(|pending|, sendFails, i);
    }

    method SignalPeerConnection(pc: Pion.PeerConnection, env: AnswerEnv) returns (outcome: Outcome, pc': Pion.PeerConnection)
      requires Valid()
      modifies this`signal, this`sent
      ensures Valid()
      ensures var r := Signal(old(signal), pending, pc, env);
        && outcome == r.outcome && pc' == r.pc && signal == r.signal && sent == old(sent) + r.sent
    {
      pc' := pc;
      if signal == [] {
        return Blocked, pc';
      }
      var offer := TakeSignal();
      if offer.None? {
        return Panicked, pc';
      }
      if env.setRemoteFails {
        return Failed(CouldNotSetRemote), pc';
      }
      pc' := pc'.(remote := offer);
      if env.createAnswerFails {
        return Failed(CouldNotCreateAnswer), pc';
      }
      if env.setLocalFails {
        return Failed(CouldNotSetLocal), pc';
      }
      pc' := pc'.(local := Some(env.answer));
      PutSignal(Some(env.answer));
      var failed := FlushPending(env.sendFails);
      outcome := if failed then Failed(CouldNotSendCandidate) else Done;
    }

    /** CreatePublisher (`role` PublisherRole) or CreateSubscriber with the
        publisher's `track`. */
    method CreatePeer(role: Role, track: nat, env: PeerEnv) returns (outcome: Outcome, pc: Pion.PeerConnection)
      requires Valid()
      modifies this`signal, this`sent
      ensures Valid()
      ensures var r := Create(role, track, old(signal), pending, env);
        && outcome == r.outcome && pc == r.pc && signal == r.signal && sent == old(sent) + r.sent
    {
      if env.newFails {
        return Failed(CouldNotCreatePeerConnection), Pion.NewPeerConnection([]);
      }
      if env.addFails {
        return Failed(CouldNotAddTrack), Pion.NewPeerConnection([]);
      }
      outcome, pc := SignalPeerConnection(InitialConnection(role, track), env.signalling);
    }

    /** The ICE state handler of `pc`: Failed closes the connection (an
        error there panics); Connected calls hookStream, then
        registerSession; every other state does nothing. */
    method OnIceConnectionStateChange(state: int, pc: Pion.PeerConnection, closeEnv: PeerClose.CloseEnv)
      returns (outcome: Outcome, pc': Pion.PeerConnection)
      modifies this`calls
      ensures state == Pion.ICE_CONNECTED ==> calls == old(calls) + [HookStream, RegisterSession] && outcome == Done && pc' == pc
      ensures state != Pion.ICE_CONNECTED ==> calls == old(calls)
      ensures state == Pion.ICE_FAILED ==>
        (outcome == Panicked <==> PeerClose.FirstFailure(|pc.senders|, closeEnv).Some? || closeEnv.closeFails)
      ensures state == Pion.ICE_FAILED && outcome == Done ==> pc'.closed && pc'.senders == []
      ensures state != Pion.ICE_FAILED && state != Pion.ICE_CONNECTED ==> outcome == Done && pc' == pc
    {
      pc' := pc;
      outcome := Done;
      if state == Pion.ICE_FAILED {
        var closed, err := PeerClose.ClosePeerConnection(Some(pc), closeEnv);
        if err.Some? {
          return Panicked, pc;
        }
        pc' := closed.value;
      } else if state == Pion.ICE_CONNECTED {
        calls := calls + [HookStream, RegisterSession];
      }
    }
  }

  /** The round both hub handlers run with a fresh signaller: the offer is
      put on its signal channel, the peer connection is created from it,
      and when that succeeds the answer is taken back off the channel. */
  method SignalFresh(role: Role, track: nat, offer: Pion.SessionDescription, env: PeerEnv)
    returns (outcome: Outcome, pc: Pion.PeerConnection, answer: Option<Pion.SessionDescription>)
    ensures var s := Create(role, track, [Some(offer)], [], env);
      outcome == s.outcome && pc == s.pc
    ensures outcome == Done ==> answer == Some(env.signalling.answer)
  {
    var w := new WebRtc();
    w.PutSignal(Some(offer));
    outcome, pc := w.CreatePeer(role, track, env);
    answer := None;
    if outcome == Done {
      CreateAnswers(role, track, offer, env);
      answer := w.TakeSignal();
    }
  }
}
