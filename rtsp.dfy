/** The RTSP packet loop of the edge: the H.264 stream of the camera feed
    arrives as packets whose data carry a 4-byte length in front of the
    unit; the loop drops it, puts a start code (ITU-T H.264, Annex B.1) in
    front and, on keyframes, the SPS and PPS of the feed, and writes each
    packet as a sample lasting until the next one. */
module Rtsp {
  import opened ByteStrings
  import opened Wrappers
  import opened Media

  /** `annexbNALUStartCode()`. */
  function StartCode(): Bytes {
    [0x00, 0x00, 0x00, 0x01]
  }

  /** One stream of the session: whether it is H.264, and its parameter
      sets as the H.264 codec data reports them. */
  datatype Codec = Codec(isH264: bool, sps: Bytes, pps: Bytes)

  /** A packet of the queue: stream index, keyframe flag, data and
      presentation time in nanoseconds (an `int64`). */
  datatype Packet = Packet(idx: int, isKeyFrame: bool, data: Bytes, time: int)

  /** How the track's `WriteSample` answered. */
  datatype WriteResult = WriteOk | WriteClosedPipe | WriteFailed

  /** A packet with what the environment does around it: the answer of
      the write it causes and whether the context is done right after. */
  datatype Arrival = Arrival(pkt: Packet, write: WriteResult, done: bool)

  /** How `consumeRTSP` ends. `NoCodec` and `ShortPacket` are Go's index
      and slice out of range; `Waiting` is the loop blocked on an empty
      queue once the given arrivals are used up. */
  datatype StreamEnd =
    | DialError
    | NoCodec
    | WrongCodec
    | ShortPacket
    | WriteError
    | ContextDone
    | Waiting

  datatype Run = Run(samples: seq<Sample>, end: StreamEnd, previousTime: int)

  /** The sample data of one video packet of at least 4 bytes: the data
      without its first 4 bytes, behind a start code, the SPS, a start
      code and the PPS when the packet is a keyframe. */
  function Payload(codec: Codec, pkt: Packet): Bytes
    requires |pkt.data| >= 4
  {
    if pkt.isKeyFrame then StartCode() + codec.sps + StartCode() + codec.pps + StartCode() + pkt.data[4..]
    else pkt.data[4..]
  }

  /** The inner loop from `previousTime` on over the arrivals. */
  function StreamFrom(arrivals: seq<Arrival>, codec: Codec, previousTime: int): Run
    decreases |arrivals|
  {
    if arrivals == [] then Run([], Waiting, previousTime)
    else
      var a := arrivals[0];
      if a.pkt.idx != 0 then StreamFrom(arrivals[1..], codec, previousTime)
      else if |a.pkt.data| < 4 then Run([], ShortPacket, previousTime)
      else
        var sample := Sample(Payload(codec, a.pkt), WrapInt64(a.pkt.time - previousTime));
        if a.write == WriteFailed then Run([sample], WriteError, a.pkt.time)
        else if a.done then Run([sample], ContextDone, a.pkt.time)
        else
          var rest := StreamFrom(arrivals[1..], codec, a.pkt.time);
          Run([sample] + rest.samples, rest.end, rest.previousTime)
  }

  /** The whole of `consumeRTSP` for one dial: `None` is a dial error,
      otherwise the codecs of the session. */
  function ConsumeSpec(dial: Option<seq<Codec>>, arrivals: seq<Arrival>): Run {
    match dial
    case None => Run([], DialError, 0)
    case Some(codecs) =>
      if codecs == [] then Run([], NoCodec, 0)
      else if !codecs[0].isH264 then Run([], WrongCodec, 0)
      else StreamFrom(arrivals, codecs[0], 0)
  }

  /** The packet loop. The model ends where Go would wait on an empty queue. */
  method ConsumeRtsp(dial: Option<seq<Codec>>, arrivals: seq<Arrival>) returns (samples: seq<Sample>, end: StreamEnd)
    ensures samples == ConsumeSpec(dial, arrivals).samples
    ensures end == ConsumeSpec(dial, arrivals).end
  {
    if dial.None? {
      return [], DialError;
    }
    var codecs := dial.value;
    if |codecs| == 0 {
      return [], NoCodec;
    }
    if !codecs[0].isH264 {
      return [], WrongCodec;
    }
    var codec := codecs[0];
    ghost var goal := StreamFrom(arrivals, codec, 0);
    var previousTime := 0;
    samples := [];
    end := Waiting;
    var i := 0;
    var running := true;
    while running && i < |arrivals|
      invariant 0 <= i <= |arrivals|
      invariant running ==> end == Waiting && goal == Prepend(samples, StreamFrom(arrivals[i..], codec, previousTime))
      invariant !running ==> goal.samples == samples && goal.end == end
      decreases |arrivals| - i, running
    {
      var a := arrivals[i];
      StreamFromFirst(arrivals[i..], codec, previousTime);
      assert arrivals[i..][0] == a && arrivals[i..][1..] == arrivals[i + 1..];
      if a.pkt.idx != 0 {
        i := i + 1;
        continue;
      }
      if |a.pkt.data| < 4 {
        end := ShortPacket;
        running := false;
        assert samples + [] == samples;
      } else {
        var sample := PacketSample(codec, a.pkt, previousTime);
        previousTime := a.pkt.time;
        samples := samples + [sample];
        if a.write == WriteFailed {
          end := WriteError;
          running := false;
        } else if a.done {
          end := ContextDone;
          running := false;
        } else {
          i := i + 1;
        }
      }
    }
    if running {
      assert arrivals[i..] == [];
      assert samples + [] == samples;
    }
  }

  /** The sample of one video packet: the data without its first 4
      bytes, then on a keyframe five prepends in front of it, timed from
      `previousTime`. */
  method PacketSample(codec: Codec, pkt: Packet, previousTime: int) returns (s: Sample)
    requires |pkt.data| >= 4
    ensures s == Sample(Payload(codec, pkt), WrapInt64(pkt.time - previousTime))
  {
    var data := pkt.data[4..];
    if pkt.isKeyFrame {
      data := StartCode() + data;
      data := codec.pps + data;
      data := StartCode() + data;
      data := codec.sps + data;
      data := StartCode() + data;
      PrependOrder(codec.sps, codec.pps, pkt.data[4..]);
    }
    s := Sample(data, WrapInt64(pkt.time - previousTime));
  }

  /** The loop at its first arrival. */
  lemma {:induction false} StreamFromFirst(arrivals: seq<Arrival>, codec: Codec, previousTime: int)
    requires arrivals != []
    ensures var a := arrivals[0];
      StreamFrom(arrivals, codec, previousTime) ==
        if a.pkt.idx != 0 then StreamFrom(arrivals[1..], codec, previousTime)
        else if |a.pkt.data| < 4 then Run([], ShortPacket, previousTime)
        else
          var sample := Sample(Payload(codec, a.pkt), WrapInt64(a.pkt.time - previousTime));
          if a.write == WriteFailed then Run([sample], WriteError, a.pkt.time)
          else if a.done then Run([sample], ContextDone, a.pkt.time)
          else Prepend([sample], StreamFrom(arrivals[1..], codec, a.pkt.time))
  {
  }

  /** The five prepends of the loop build the keyframe payload. */
  lemma {:induction false} PrependOrder(sps: Bytes, pps: Bytes, stripped: Bytes)
    ensures StartCode() + (sps + (StartCode() + (pps + (StartCode() + stripped))))
         == StartCode() + sps + StartCode() + pps + StartCode() + stripped
  {
  }

  function Prepend(samples: seq<Sample>, r: Run): Run {
    Run(samples + r.samples, r.end, r.previousTime)
  }

  // ---- Properties ----

  /** The video packets of the queue: those of stream index 0. */
  function Video(arrivals: seq<Arrival>): seq<Packet> {
    if arrivals == [] then []
    else if arrivals[0].pkt.idx == 0 then [arrivals[0].pkt] + Video(arrivals[1..])
    else Video(arrivals[1..])
  }

  /** Sample `s` is made of packet `p` and lasts from `since` to the
      packet's time. */
  predicate SampleOf(s: Sample, codec: Codec, p: Packet, since: int) {
    |p.data| >= 4 && s == Sample(Payload(codec, p), WrapInt64(p.time - since))
  }

  /** When the sample of the k-th video packet starts: at the packet
      before it, or at `previousTime` for the first. */
  function Since(video: seq<Packet>, previousTime: int, k: nat): int
    requires k < |video|
  {
    if k == 0 then previousTime else video[k - 1].time
  }

  /** Sample k is made of the k-th video packet, and lasts from the
      previous video packet (or from `previousTime` for the first). */
  predicate SamplesOfVideo(samples: seq<Sample>, video: seq<Packet>, codec: Codec, previousTime: int) {
    && |samples| <= |video|
    && forall k | 0 <= k < |samples| :: SampleOf(samples[k], codec, video[k], Since(video, previousTime, k))
  }

  /** The same, one sample at a time: the first sample is made of the
      first video packet and the rest of the rest, timed from it. */
  predicate SamplesFrom(samples: seq<Sample>, video: seq<Packet>, codec: Codec, previousTime: int)
    decreases |samples|
  {
    samples != [] ==>
      && video != [] && SampleOf(samples[0], codec, video[0], previousTime)
      && SamplesFrom(samples[1..], video[1..], codec, video[0].time)
  }

  /** The two descriptions agree. */
  lemma {:induction false} SamplesFromIndexed(samples: seq<Sample>, video: seq<Packet>, codec: Codec, previousTime: int)
    requires SamplesFrom(samples, video, codec, previousTime)
    ensures SamplesOfVideo(samples, video, codec, previousTime)
    decreases |samples|
  {
    if samples != [] {
      var ss, vv := samples[1..], video[1..];
      SamplesFromIndexed(ss, vv, codec, video[0].time);
      forall k | 0 < k < |samples|
        ensures SampleOf(samples[k], codec, video[k], Since(video, previousTime, k))
      {
        var j := k - 1;
        assert ss[j] == samples[k] && vv[j] == video[k];
        assert Since(vv, video[0].time, j) == Since(video, previousTime, k);
      }
    }
  }

  /** The loop turns the video packets into samples one after the other. */
  lemma {:induction false} StreamSamplesInOrder(arrivals: seq<Arrival>, codec: Codec, previousTime: int)
    ensures SamplesFrom(StreamFrom(arrivals, codec, previousTime).samples, Video(arrivals), codec, previousTime)
    decreases |arrivals|
  {
    if arrivals != [] {
      var a := arrivals[0];
      if a.pkt.idx != 0 {
        StreamSamplesInOrder(arrivals[1..], codec, previousTime);
      } else if |a.pkt.data| >= 4 {
        var s0 := Sample(Payload(codec, a.pkt), WrapInt64(a.pkt.time - previousTime));
        if a.write == WriteFailed || a.done {
          assert [s0][1..] == [];
        } else {
          var rest := StreamFrom(arrivals[1..], codec, a.pkt.time).samples;
          StreamSamplesInOrder(arrivals[1..], codec, a.pkt.time);
          assert ([s0] + rest)[1..] == rest;
        }
      }
    }
  }

  /** Every sample comes from the video packet of the same rank, in queue
      order: the other streams are skipped, the first 4 bytes dropped, a
      keyframe prefixed with the parameter sets. */
  lemma {:induction false} StreamSamples(arrivals: seq<Arrival>, codec: Codec, previousTime: int)
    ensures SamplesOfVideo(StreamFrom(arrivals, codec, previousTime).samples, Video(arrivals), codec, previousTime)
  {
    StreamSamplesInOrder(arrivals, codec, previousTime);
    SamplesFromIndexed(StreamFrom(arrivals, codec, previousTime).samples, Video(arrivals), codec, previousTime);
  }

  function TotalDuration(samples: seq<Sample>): int {
    if samples == [] then 0 else samples[0].duration + TotalDuration(samples[1..])
  }

  predicate TimesFit(arrivals: seq<Arrival>) {
    forall k | 0 <= k < |arrivals| :: IsInt64(arrivals[k].pkt.time)
  }

  /** The time of the n-th video packet, or `previousTime` for none. */
  function LastTime(video: seq<Packet>, n: nat, previousTime: int): int
    decreases n
  {
    if n == 0 || video == [] then previousTime else LastTime(video[1..], n - 1, video[0].time)
  }

  /** The durations of samples made one after the other sum, in `int64`
      arithmetic, to the time of the last packet. */
  lemma {:induction false} SamplesFromTotal(samples: seq<Sample>, video: seq<Packet>, codec: Codec, previousTime: int)
    requires SamplesFrom(samples, video, codec, previousTime)
    requires IsInt64(LastTime(video, |samples|, previousTime))
    ensures WrapInt64(previousTime + TotalDuration(samples)) == LastTime(video, |samples|, previousTime)
    decreases |samples|
  {
    if samples != [] {
      var t := video[0].time;
      SamplesFromTotal(samples[1..], video[1..], codec, t);
      DurationTelescopes(previousTime, t, TotalDuration(samples[1..]), LastTime(video, |samples|, previousTime));
    }
  }

  /** The loop ends with `previousTime` at the time of its last sample. */
  lemma {:induction false} StreamLastTime(arrivals: seq<Arrival>, codec: Codec, previousTime: int)
    ensures var r := StreamFrom(arrivals, codec, previousTime);
      r.previousTime == LastTime(Video(arrivals), |r.samples|, previousTime)
    decreases |arrivals|
  {
    if arrivals != [] {
      var a := arrivals[0];
      StreamFromFirst(arrivals, codec, previousTime);
      if a.pkt.idx != 0 {
        StreamLastTime(arrivals[1..], codec, previousTime);
      } else if |a.pkt.data| >= 4 && a.write != WriteFailed && !a.done {
        StreamLastTime(arrivals[1..], codec, a.pkt.time);
      }
    }
  }

  /** Packets times are `int64` values, so the time of any of them is. */
  lemma {:induction false} LastTimeFits(arrivals: seq<Arrival>, n: nat, previousTime: int)
    requires TimesFit(arrivals) && IsInt64(previousTime)
    ensures IsInt64(LastTime(Video(arrivals), n, previousTime))
    decreases |arrivals|
  {
    if arrivals != [] {
      var a := arrivals[0];
      assert IsInt64(a.pkt.time) && TimesFit(arrivals[1..]);
      if a.pkt.idx != 0 {
        LastTimeFits(arrivals[1..], n, previousTime);
      } else if n > 0 {
        LastTimeFits(arrivals[1..], n - 1, a.pkt.time);
      }
    }
  }

  /** `previousTime` is the start plus the sum of the durations written so
      far, in `int64` arithmetic: the durations telescope. */
  lemma {:induction false} PreviousTimeIsTotal(arrivals: seq<Arrival>, codec: Codec, previousTime: int)
    requires IsInt64(previousTime) && TimesFit(arrivals)
    ensures var r := StreamFrom(arrivals, codec, previousTime);
      WrapInt64(previousTime + TotalDuration(r.samples)) == r.previousTime
  {
    var r := StreamFrom(arrivals, codec, previousTime);
    StreamSamplesInOrder(arrivals, codec, previousTime);
    StreamLastTime(arrivals, codec, previousTime);
    LastTimeFits(arrivals, |r.samples|, previousTime);
    SamplesFromTotal(r.samples, Video(arrivals), codec, previousTime);
  }

  /** A duration from `previousTime` to `t`, added to `previousTime`,
      reaches `t` modulo 2^64. */
  lemma {:induction false} DurationTelescopes(previousTime: int, t: int, total: int, last: int)
    requires WrapInt64(t + total) == last
    ensures WrapInt64(previousTime + (WrapInt64(t - previousTime) + total)) == last
  {
    var d := WrapInt64(t - previousTime);
    assert (previousTime + d + total) - (t + total) == d - (t - previousTime);
    WrapInt64Congruent(previousTime + (d + total), t + total);
  }

  /** Without wrap-around the durations sum to the last time written. */
  lemma {:induction false} PreviousTimeIsSum(arrivals: seq<Arrival>, codec: Codec)
    requires TimesFit(arrivals)
    ensures var r := StreamFrom(arrivals, codec, 0);
      IsInt64(TotalDuration(r.samples)) ==> TotalDuration(r.samples) == r.previousTime
  {
    PreviousTimeIsTotal(arrivals, codec, 0);
  }

  /** Packets of other streams change nothing. */
  lemma {:induction false} OtherStreamSkipped(a: Arrival, arrivals: seq<Arrival>, codec: Codec, previousTime: int)
    requires a.pkt.idx != 0
    ensures StreamFrom([a] + arrivals, codec, previousTime) == StreamFrom(arrivals, codec, previousTime)
  {
    assert ([a] + arrivals)[1..] == arrivals;
  }

  /** A closed pipe is tolerated: the loop goes on as after a good write. */
  lemma {:induction false} ClosedPipeTolerated(a: Arrival, arrivals: seq<Arrival>, codec: Codec, previousTime: int)
    requires a.pkt.idx == 0 && |a.pkt.data| >= 4 && !a.done
    ensures StreamFrom([a.(write := WriteClosedPipe)] + arrivals, codec, previousTime)
         == StreamFrom([a.(write := WriteOk)] + arrivals, codec, previousTime)
  {
    assert ([a.(write := WriteClosedPipe)] + arrivals)[1..] == arrivals;
    assert ([a.(write := WriteOk)] + arrivals)[1..] == arrivals;
  }

  /** Any other write error ends the loop right after that sample. */
  lemma {:induction false} WriteErrorAborts(a: Arrival, arrivals: seq<Arrival>, codec: Codec, previousTime: int)
    requires a.pkt.idx == 0 && |a.pkt.data| >= 4 && a.write == WriteFailed
    ensures StreamFrom([a] + arrivals, codec, previousTime).end == WriteError
    ensures |StreamFrom([a] + arrivals, codec, previousTime).samples| == 1
  {
  }

  /** The packet loop itself only ends on a short packet, a write error,
      a done context, or waits for more packets. */
  lemma {:induction false} StreamFromEnds(arrivals: seq<Arrival>, codec: Codec, previousTime: int)
    ensures StreamFrom(arrivals, codec, previousTime).end in {ShortPacket, WriteError, ContextDone, Waiting}
    decreases |arrivals|
  {
    if arrivals != [] {
      StreamFromEnds(arrivals[1..], codec, previousTime);
      StreamFromEnds(arrivals[1..], codec, arrivals[0].pkt.time);
    }
  }

  /** Only an H.264 first stream is streamed; the others are ignored. */
  lemma {:induction false} CodecCheck(codecs: seq<Codec>, arrivals: seq<Arrival>)
    ensures ConsumeSpec(Some(codecs), arrivals).end == NoCodec <==> codecs == []
    ensures ConsumeSpec(Some(codecs), arrivals).end == WrongCodec <==> codecs != [] && !codecs[0].isH264
    ensures codecs != [] && codecs[0].isH264 ==>
      ConsumeSpec(Some(codecs), arrivals) == ConsumeSpec(Some([codecs[0]]), arrivals)
  {
    if codecs != [] {
      StreamFromEnds(arrivals, codecs[0], 0);
    }
  }
}
