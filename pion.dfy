/** The parts of the pion WebRTC library the signalling code touches, as
    opaque values: session descriptions and their JSON text, ICE
    candidates and their `candidate:` line, ICE connection states, and a
    peer connection reduced to its description slots, its RTP senders and
    its closed flag. The JSON text is an injective stand-in encoding with
    a left-inverse decoder, not the real JSON grammar. */
module Pion {
  import opened ByteStrings
  import opened Wrappers

  // ---- SDPType (Go `int`, 0 is the zero value, no named type) ----

  const SDP_TYPE_OFFER: int := 1
  const SDP_TYPE_PRANSWER: int := 2
  const SDP_TYPE_ANSWER: int := 3
  const SDP_TYPE_ROLLBACK: int := 4

  predicate KnownSdpType(t: int) { SDP_TYPE_OFFER <= t <= SDP_TYPE_ROLLBACK }

  /** `webrtc.SessionDescription`: the type and the SDP text. */
  datatype SessionDescription = SessionDescription(sdpType: int, sdp: Bytes)

  const ZeroDescription := SessionDescription(0, [])

  /** First byte of the text of a JSON object, and the text `null`. */
  const OBJECT_OPEN: byte := 0x7B
  const NULL_TEXT: Bytes := [0x6E, 0x75, 0x6C, 0x6C]

  /** The type as the JSON encoder writes it: a known type by its own name,
      any other number as the one name the decoder rejects. */
  function TypeTag(t: int): (r: byte)
    ensures KnownSdpType(t) ==> r as int == t
    ensures !KnownSdpType(t) ==> r == 0
  {
    if KnownSdpType(t) then t as byte else 0
  }

  /** `json.Marshal(*webrtc.SessionDescription)`; a nil pointer is `null`. */
  function DescriptionJson(d: Option<SessionDescription>): (r: Bytes)
    ensures |r| >= 1
  {
    match d
    case None => NULL_TEXT
    case Some(x) => [OBJECT_OPEN, TypeTag(x.sdpType)] + x.sdp
  }

  /** `json.Unmarshal` into a zero `webrtc.SessionDescription`: None is a
      JSON error (malformed text or an unknown type name); `null` leaves the
      zero value. */
  function ParseDescriptionJson(b: Bytes): (r: Option<SessionDescription>)
    ensures r.Some? && b != NULL_TEXT ==> KnownSdpType(r.value.sdpType)
  {
    if b == NULL_TEXT then Some(ZeroDescription)
    else if |b| >= 2 && b[0] == OBJECT_OPEN && KnownSdpType(b[1] as int) then
      Some(SessionDescription(b[1] as int, b[2..]))
    else None
  }

  /** Every description with a known type survives its JSON text. */
  lemma {:induction false} DescriptionJsonRoundTrip(d: SessionDescription)
    requires KnownSdpType(d.sdpType)
    ensures ParseDescriptionJson(DescriptionJson(Some(d))) == Some(d)
  {
    var b := DescriptionJson(Some(d));
    assert b[0] != NULL_TEXT[0];
    assert b[2..] == d.sdp;
  }

  /** An unknown type is written, but reading it back is a JSON error. */
  lemma {:induction false} DescriptionJsonUnknownType(d: SessionDescription)
    requires !KnownSdpType(d.sdpType)
    ensures ParseDescriptionJson(DescriptionJson(Some(d))) == None
  {
    assert DescriptionJson(Some(d))[0] != NULL_TEXT[0];
  }

  /** The decoder is a left inverse: whatever it accepts is the text of
      what it returns. */
  lemma {:induction false} ParseDescriptionJsonLeftInverse(b: Bytes)
    requires ParseDescriptionJson(b).Some?
    ensures b == NULL_TEXT || DescriptionJson(ParseDescriptionJson(b)) == b
  {
    if b != NULL_TEXT {
      var d := ParseDescriptionJson(b).value;
      assert DescriptionJson(Some(d)) == [b[0], b[1]] + b[2..];
    }
  }

  /** The encoding is injective on descriptions with a known type. */
  lemma {:induction false} DescriptionJsonInjective(d1: SessionDescription, d2: SessionDescription)
    requires KnownSdpType(d1.sdpType) && KnownSdpType(d2.sdpType)
    requires DescriptionJson(Some(d1)) == DescriptionJson(Some(d2))
    ensures d1 == d2
  {
    DescriptionJsonRoundTrip(d1);
    DescriptionJsonRoundTrip(d2);
  }

  /** The empty string is not JSON. */
  lemma {:induction false} EmptyIsNotJson()
    ensures ParseDescriptionJson([]).None?
  {
  }

  // ---- ICE candidates ----

  /** `*webrtc.ICECandidate`, held by the rendering of its fields that
      pion's `ToJSON` puts after `candidate:`. */
  datatype IceCandidate = IceCandidate(attributes: Bytes)

  /** The bytes of `candidate:`. */
  const CANDIDATE_PREFIX: Bytes := [0x63, 0x61, 0x6E, 0x64, 0x69, 0x64, 0x61, 0x74, 0x65, 0x3A]

  /** `c.ToJSON().Candidate`. */
  function CandidateLine(c: IceCandidate): (r: Bytes)
    ensures |r| == |CANDIDATE_PREFIX| + |c.attributes|
    ensures r[..|CANDIDATE_PREFIX|] == CANDIDATE_PREFIX && r[|CANDIDATE_PREFIX|..] == c.attributes
  {
    CANDIDATE_PREFIX + c.attributes
  }

  /** The `candidate:` line determines the candidate. */
  lemma {:induction false} CandidateLineInjective(c1: IceCandidate, c2: IceCandidate)
    requires CandidateLine(c1) == CandidateLine(c2)
    ensures c1 == c2
  {
    assert CandidateLine(c1)[|CANDIDATE_PREFIX|..] == CandidateLine(c2)[|CANDIDATE_PREFIX|..];
  }

  /** `webrtc.ICECandidateInit` as far as this code fills it. */
  datatype IceCandidateInit = IceCandidateInit(candidate: Bytes)

  /** `json.Marshal(webrtc.ICECandidateInit)`: the stand-in text is the
      object marker followed by the candidate line. */
  function CandidateInitJson(c: IceCandidateInit): (r: Bytes)
    ensures |r| >= 1 && r[0] == OBJECT_OPEN
  {
    [OBJECT_OPEN] + c.candidate
  }

  /** `json.Unmarshal` into a zero `webrtc.ICECandidateInit`: None is a
      JSON error; `null` leaves the zero value. */
  function ParseCandidateInitJson(b: Bytes): (r: Option<IceCandidateInit>)
    ensures b == [] ==> r.None?
  {
    if b == NULL_TEXT then Some(IceCandidateInit([]))
    else if |b| >= 1 && b[0] == OBJECT_OPEN then Some(IceCandidateInit(b[1..]))
    else None
  }

  lemma {:induction false} CandidateInitJsonRoundTrip(c: IceCandidateInit)
    ensures ParseCandidateInitJson(CandidateInitJson(c)) == Some(c)
  {
    assert CandidateInitJson(c)[0] != NULL_TEXT[0];
    assert CandidateInitJson(c)[1..] == c.candidate;
  }

  // ---- ICEConnectionState ----

  const ICE_NEW: int := 1
  const ICE_CHECKING: int := 2
  const ICE_CONNECTED: int := 3
  const ICE_COMPLETED: int := 4
  const ICE_DISCONNECTED: int := 5
  const ICE_FAILED: int := 6
  const ICE_CLOSED: int := 7

  // ---- Peer connection ----

  datatype Sender = Sender(track: nat, stopped: bool)

  /** `*webrtc.PeerConnection` reduced to what the signalling code reads
      and changes. */
  datatype PeerConnection = PeerConnection(
    local: Option<SessionDescription>,
    remote: Option<SessionDescription>,
    senders: seq<Sender>,
    closed: bool,
    addedRemoteCandidates: seq<IceCandidateInit>)

  /** A fresh connection: no descriptions, no candidates, open. */
  function NewPeerConnection(senders: seq<Sender>): PeerConnection {
    PeerConnection(None, None, senders, false, [])
  }
}
