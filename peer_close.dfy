/** `closePeerConnection`, which the hub and the edge define with the same
    body: stop and remove every RTP sender in order, giving up at the first
    error, then close the connection. */
module PeerClose {
  import opened Wrappers
  import opened Pion

  datatype CloseError = StopSenderFailed | RemoveTrackFailed | CloseFailed

  /** What the library calls answer: the loop positions whose `Stop` or
      `RemoveTrack` fails, and whether `Close` fails. */
  datatype CloseEnv = CloseEnv(stopFails: set<nat>, removeFails: set<nat>, closeFails: bool)

  predicate FailsAt(env: CloseEnv, i: nat) {
    i in env.stopFails || i in env.removeFails
  }

  /** The first loop position at which a sender step fails, if any. */
  function FirstFailure(n: nat, env: CloseEnv): (r: Option<nat>)
    ensures r.Some? ==> r.value < n && FailsAt(env, r.value)
    ensures r.Some? ==> forall j | 0 <= j < r.value :: !FailsAt(env, j)
    ensures r.None? ==> forall j | 0 <= j < n :: !FailsAt(env, j)
  {
    if n == 0 then None
    else match FirstFailure(n - 1, env)
      case Some(i) => Some(i)
      case None => if FailsAt(env, n - 1) then Some(n - 1) else None
  }

  /** nil succeeds and changes nothing. Otherwise, with the first failing
      position i: before i every sender was stopped and removed; at i a
      failed Stop leaves the sender as it was and a failed RemoveTrack leaves
      it stopped in place; the connection stays open. Without a failure
      every sender is gone, the connection is closed and Close's own result
      is returned. */
  method ClosePeerConnection(pc: Option<PeerConnection>, env: CloseEnv)
    returns (pc': Option<PeerConnection>, err: Option<CloseError>)
    ensures pc.None? ==> pc' == None && err == None
    ensures pc.Some? ==> pc'.Some?
    ensures pc.Some? ==> pc'.value.local == pc.value.local && pc'.value.remote == pc.value.remote
    ensures pc.Some? ==> pc'.value.addedRemoteCandidates == pc.value.addedRemoteCandidates
    ensures pc.Some? && FirstFailure(|pc.value.senders|, env).None? ==>
      && pc'.value.senders == [] && pc'.value.closed
      && err == (if env.closeFails then Some(CloseFailed) else None)
    ensures pc.Some? && FirstFailure(|pc.value.senders|, env).Some? ==>
      var i := FirstFailure(|pc.value.senders|, env).value;
      var old_ := pc.value.senders;
      && pc'.value.closed == pc.value.closed
      && (i in env.stopFails ==> err == Some(StopSenderFailed) && pc'.value.senders == old_[i..])
      && (i !in env.stopFails ==>
            err == Some(RemoveTrackFailed) && pc'.value.senders == [old_[i].(stopped := true)] + old_[i + 1..])
  {
    if pc.None? {
      return None, None;
    }
    var p := pc.value;
    var snapshot := p.senders;  // GetSenders() is read once, before the loop
    var i := 0;
    while i < |snapshot|
      invariant 0 <= i <= |snapshot|
      invariant p == pc.value.(senders := snapshot[i..])
      invariant forall j | 0 <= j < i :: !FailsAt(env, j)
    {
      if i in env.stopFails {
        FirstFailureIs(|snapshot|, env, i);
        return Some(p), Some(StopSenderFailed);
      }
      var stopped := snapshot[i].(stopped := true);
      if i in env.removeFails {
        FirstFailureIs(|snapshot|, env, i);
        return Some(p.(senders := [stopped] + snapshot[i + 1..])), Some(RemoveTrackFailed);
      }
      p := p.(senders := snapshot[i + 1..]);
      i := i + 1;
    }
    FirstFailureNone(|snapshot|, env);
    p := p.(closed := true);
    if env.closeFails {
      return Some(p), Some(CloseFailed);
    }
    return Some(p), None;
  }

  lemma {:induction false} FirstFailureIs(n: nat, env: CloseEnv, i: nat)
    requires i < n && FailsAt(env, i)
    requires forall j | 0 <= j < i :: !FailsAt(env, j)
    ensures FirstFailure(n, env) == Some(i)
  {
  }

  lemma {:induction false} FirstFailureNone(n: nat, env: CloseEnv)
    requires forall j | 0 <= j < n :: !FailsAt(env, j)
    ensures FirstFailure(n, env) == None
  {
  }

  /** With no senders only Close can fail. */
  lemma {:induction false} NoSendersOnlyClose(env: CloseEnv)
    ensures FirstFailure(0, env) == None
  {
  }
}
