/** Start-up of the edge side (`internal/livestream/livestream.go`): the
    machine id read once into a package variable, and the two publisher
    constructors, of which the deport one switches from RTSP to RTP on
    the configured protocol. */
module LivestreamInit {
  import opened Wrappers
  import opened ByteStrings
  import Pb = SignalPb

  /** `"\n"` and `"rtp"`. */
  const NEWLINE_TEXT: Bytes := [NEWLINE]
  const PROTOCOL_RTP: Bytes := [0x72, 0x74, 0x70]

  /** `bytes.TrimSuffix(s, "\n")`: at most one trailing newline goes. */
  function TrimNewline(s: Bytes): (r: Bytes)
    ensures |s| > 0 && s[|s| - 1] == NEWLINE ==> r + NEWLINE_TEXT == s
    ensures !(|s| > 0 && s[|s| - 1] == NEWLINE) ==> r == s
  {
    if |s| > 0 && s[|s| - 1] == NEWLINE then s[..|s| - 1] else s
  }

  /** Only one newline is removed: "a\n\n" keeps one. */
  lemma {:induction false} TrimNewlineOnce(s: Bytes)
    ensures TrimNewline(s + [NEWLINE, NEWLINE]) == s + [NEWLINE]
  {
    assert (s + [NEWLINE, NEWLINE])[..|s| + 1] == s + [NEWLINE];
  }

  /** Trimming twice gives what trimming once gives exactly when the text
      does not end in two newlines. */
  lemma {:induction false} TrimNewlineIdempotence(s: Bytes)
    ensures TrimNewline(TrimNewline(s)) == TrimNewline(s)
        <==> !(|s| >= 2 && s[|s| - 1] == NEWLINE && s[|s| - 2] == NEWLINE)
  {
    if |s| >= 2 && s[|s| - 1] == NEWLINE && s[|s| - 2] == NEWLINE {
      assert |TrimNewline(TrimNewline(s))| == |s| - 2;
    }
  }

  /** `os.ReadFile("/etc/machine-id")`: an error, or the content, which Go
      may return as a nil slice. */
  datatype Read = ReadError | Content(data: Option<Bytes>)

  /** How the byte stream reaches the track. */
  datatype TrackKind = RtpTrack | SampleTrack
  datatype Consumer = RtpListener | ConsumeRtsp

  /** The drone's stream source options. */
  datatype DroneConfig = DroneConfig(host: Bytes, port: int)

  /** The deport's stream source options. */
  datatype DeportConfig = DeportConfig(protocol: Bytes, host: Bytes, port: int, addr: Bytes)

  /** `host + ":" + strconv.Itoa(port)`. */
  function HostPort(host: Bytes, port: int): (r: Bytes)
    ensures |r| == |host| + 1 + |Decimal(port)|
    ensures r[..|host|] == host && r[|host|] == COLON && r[|host| + 1..] == Decimal(port)
  {
    host + [COLON] + Decimal(port)
  }

  /** The text after the host and the colon reads back as the port. */
  lemma {:induction false} HostPortSplits(host: Bytes, port: int)
    requires IsInt64(port)
    ensures Atoi(HostPort(host, port)[|host| + 1..]) == Some(port)
  {
    AtoiDecimal(port);
  }

  /** The fields of a publisher that the constructors set. */
  class Publisher {
    var meta: Pb.Meta
    var track: TrackKind
    var streamSource: Bytes
    var liveStream: Consumer

    constructor(meta: Pb.Meta, track: TrackKind, streamSource: Bytes, liveStream: Consumer)
      ensures this.meta == meta && this.track == track && this.streamSource == streamSource && this.liveStream == liveStream
    {
      this.meta := meta;
      this.track := track;
      this.streamSource := streamSource;
      this.liveStream := liveStream;
    }
  }

  /** The package state set by `init`. */
  class Machine {
    var id: Bytes

    constructor()
      ensures id == []
    {
      id := [];
    }

    /** `init`: a read error or a nil content panics (returns true);
        otherwise the id is the content without one trailing newline. */
    method Init(read: Read) returns (panicked: bool)
      modifies this`id
      ensures panicked <==> read.ReadError? || read.data.None?
      ensures panicked ==> id == old(id)
      ensures !panicked ==> id == TrimNewline(read.data.value)
    {
      if read.ReadError? || read.data.None? {
        return true;
      }
      id := TrimNewline(read.data.value);
      panicked := false;
    }

    /** NewDronePublisher: DRONE, an RTP track fed by the RTP listener from
        host:port. */
    method NewDronePublisher(config: DroneConfig) returns (p: Publisher)
      ensures fresh(p)
      ensures p.meta == Pb.Meta(id, Pb.DRONE) && p.track == RtpTrack && p.liveStream == RtpListener
      ensures p.streamSource == HostPort(config.host, config.port)
    {
      p := new Publisher(Pb.Meta(id, Pb.DRONE), RtpTrack, HostPort(config.host, config.port), RtpListener);
    }

    /** NewDeportPublisher: MONITOR with the RTSP defaults, overwritten by
        the RTP track, host:port and the RTP listener when the protocol is
        exactly "rtp". */
    method NewDeportPublisher(config: DeportConfig) returns (p: Publisher)
      ensures fresh(p) && p.meta == Pb.Meta(id, Pb.MONITOR)
      ensures config.protocol == PROTOCOL_RTP ==>
        p.track == RtpTrack && p.streamSource == HostPort(config.host, config.port) && p.liveStream == RtpListener
      ensures config.protocol != PROTOCOL_RTP ==>
        p.track == SampleTrack && p.streamSource == config.addr && p.liveStream == ConsumeRtsp
    {
      p := new Publisher(Pb.Meta(id, Pb.MONITOR), SampleTrack, config.addr, ConsumeRtsp);
      if config.protocol == PROTOCOL_RTP {
        p.track := RtpTrack;
        p.streamSource := HostPort(config.host, config.port);
        p.liveStream := RtpListener;
      }
    }
  }

  /** Both publishers made after one `init` carry the same machine id and
      differ in their track source. */
  method BothPublishers(m: Machine, drone: DroneConfig, deport: DeportConfig) returns (a: Publisher, b: Publisher)
    ensures a.meta.id == b.meta.id == m.id
    ensures a.meta.trackSource != b.meta.trackSource
  {
    a := m.NewDronePublisher(drone);
    b := m.NewDeportPublisher(deport);
  }
}
