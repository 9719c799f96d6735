/** The helpers that wrap a pion session description or candidate in the
    protobuf messages of the signalling schema: the description travels as
    its JSON text in `sdp`, next to an optional `meta`; a candidate travels
    as its `candidate:` line with no meta. */
module SignalEncoding {
  import opened ByteStrings
  import opened Wrappers
  import Pb = SignalPb
  import Pion

  /** The three exits of a decoder: a value, a returned error, or a panic. */
  datatype Decoded<T> = Value(value: T) | Failed | Panicked

  /** `EncodeSDP`: the JSON text of the description (`null` for a nil
      pointer) in `sdp`, the given meta (nil included) in `meta`. Neither
      marshal step fails for these types. */
  function EncodeSDP(sdp: Option<Pion.SessionDescription>, meta: Option<Pb.Meta>): Bytes {
    Pb.MarshalSessionDescription(Pb.SessionDescription(meta, Pion.DescriptionJson(sdp)))
  }

  /** `DecodeSDP`: a payload that is not a SessionDescription is an error;
      an `sdp` that is not JSON of a description panics; `meta` is never read. */
  function DecodeSDP(payload: Bytes): (r: Decoded<Pion.SessionDescription>)
    ensures r.Failed? <==> Pb.UnmarshalSessionDescription(payload).None?
    ensures r.Panicked? <==> (Pb.UnmarshalSessionDescription(payload).Some?
      && Pion.ParseDescriptionJson(Pb.UnmarshalSessionDescription(payload).value.sdp).None?)
  {
    match Pb.UnmarshalSessionDescription(payload)
    case None => Failed
    case Some(msg) =>
      match Pion.ParseDescriptionJson(msg.sdp)
      case None => Panicked
      case Some(d) => Value(d)
  }

  /** A description and meta with room for their length prefixes. */
  predicate Fits(sdp: Option<Pion.SessionDescription>, meta: Option<Pb.Meta>) {
    && (sdp.Some? ==> |sdp.value.sdp| + 2 < TWO_32)
    && (meta.Some? ==> Pb.MetaFits(meta.value))
  }

  /** The payload holds exactly the JSON text and the meta it was given. */
  lemma {:induction false} EncodeSDPContents(sdp: Option<Pion.SessionDescription>, meta: Option<Pb.Meta>)
    requires Fits(sdp, meta)
    ensures Pb.UnmarshalSessionDescription(EncodeSDP(sdp, meta))
      == Some(Pb.SessionDescription(meta, Pion.DescriptionJson(sdp)))
  {
    Pb.SessionDescriptionRoundTrip(Pb.SessionDescription(meta, Pion.DescriptionJson(sdp)));
  }

  /** Encoding, with or without meta, never gives the empty payload. */
  lemma {:induction false} EncodeSDPNonEmpty(sdp: Option<Pion.SessionDescription>, meta: Option<Pb.Meta>)
    ensures |EncodeSDP(sdp, meta)| > 0
  {
    Pb.MarshalNonEmpty(Pb.SessionDescription(meta, Pion.DescriptionJson(sdp)));
  }

  /** Decoding an encoded description gives back its type and SDP text,
      whatever the meta was. */
  lemma {:induction false} DecodeEncodeSDP(d: Pion.SessionDescription, meta: Option<Pb.Meta>)
    requires Pion.KnownSdpType(d.sdpType) && Fits(Some(d), meta)
    ensures DecodeSDP(EncodeSDP(Some(d), meta)) == Value(d)
  {
    EncodeSDPContents(Some(d), meta);
    Pion.DescriptionJsonRoundTrip(d);
  }

  /** The meta never influences the decoded result, even on the error and
      panic paths. */
  lemma {:induction false} DecodeSDPIgnoresMeta(sdp: Option<Pion.SessionDescription>, m1: Option<Pb.Meta>, m2: Option<Pb.Meta>)
    requires Fits(sdp, m1) && Fits(sdp, m2)
    ensures DecodeSDP(EncodeSDP(sdp, m1)) == DecodeSDP(EncodeSDP(sdp, m2))
  {
    EncodeSDPContents(sdp, m1);
    EncodeSDPContents(sdp, m2);
  }

  /** A description whose type has no name encodes but makes the decoder
      panic. */
  lemma {:induction false} DecodeSDPUnknownTypePanics(d: Pion.SessionDescription, meta: Option<Pb.Meta>)
    requires !Pion.KnownSdpType(d.sdpType) && Fits(Some(d), meta)
    ensures DecodeSDP(EncodeSDP(Some(d), meta)) == Panicked
  {
    EncodeSDPContents(Some(d), meta);
    Pion.DescriptionJsonUnknownType(d);
  }

  /** The empty payload is a valid empty message whose `sdp` "" is not
      JSON: decoding it panics instead of returning an error. */
  lemma {:induction false} DecodeSDPEmptyPayloadPanics()
    ensures DecodeSDP([]) == Panicked
  {
    Pb.EmptyPayloadDecodes();
    Pion.EmptyIsNotJson();
  }

  /** A payload holding only an unknown group field decodes to the empty
      message as well, and so panics in the same way. */
  lemma {:induction false} DecodeSDPEmptyGroupPanics()
    ensures DecodeSDP([0x1B, 0x1C]) == Panicked
  {
    Pb.EmptyGroupDecodes();
    Pion.EmptyIsNotJson();
  }

  /** `EncodeCandidate`: only the `candidate:` line, no meta. */
  function EncodeCandidate(c: Pion.IceCandidate): Bytes {
    Pb.MarshalIceCandidate(Pb.IceCandidate(None, Pion.CandidateLine(c)))
  }

  /** `DecodeCandidate`: the `candidate` field, or an error. */
  function DecodeCandidate(payload: Bytes): (r: Option<Bytes>)
    ensures r.Some? <==> Pb.UnmarshalIceCandidate(payload).Some?
  {
    match Pb.UnmarshalIceCandidate(payload)
    case None => None
    case Some(msg) => Some(msg.candidate)
  }

  /** Decoding an encoded candidate gives its `candidate:` line, which is
      never empty. */
  lemma {:induction false} DecodeEncodeCandidate(c: Pion.IceCandidate)
    requires |c.attributes| + 10 < TWO_32
    ensures DecodeCandidate(EncodeCandidate(c)) == Some(Pion.CandidateLine(c))
    ensures DecodeCandidate(EncodeCandidate(c)).value != []
  {
    Pb.IceCandidateRoundTrip(Pb.IceCandidate(None, Pion.CandidateLine(c)));
  }
}
