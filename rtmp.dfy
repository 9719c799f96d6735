/** The RTMP video handler of the edge: it turns the AVC payload of an FLV
    video tag into an H.264 Annex B byte stream (ITU-T H.264, Annex B.1)
    and keeps the last SPS and PPS units it has seen, so that a keyframe
    without them can be prefixed. AVCC NAL units carry a 4-byte big-endian
    length; the AVCDecoderConfigurationRecord (ISO/IEC 14496-15, section
    5.2.4.1) carries the parameter sets with 2-byte lengths. */
module Rtmp {
  import opened ByteStrings
  import opened Wrappers
  import opened Media

  const HEADER_LENGTH_FIELD: nat := 4
  /** NAL header bytes of an SPS (type 7) and a PPS (type 8) with
      nal_ref_idc 3 (ITU-T H.264, section 7.3.1 and Table 7-1). */
  const SPS_ID: byte := 0x67
  const PPS_ID: byte := 0x68

  /** flvtag's AVCPacketType and FrameType numbers. */
  const AVC_SEQUENCE_HEADER: int := 0
  const AVC_NALU: int := 1
  const FRAME_KEY: int := 1

  /** `time.Second / 30` in nanoseconds. */
  const FRAME_DURATION: int := 1_000_000_000 / 30

  /** `annexBPrefix()`: the Annex B start code. */
  function AnnexBPrefix(): Bytes {
    [0x00, 0x00, 0x00, 0x01]
  }

  /** How a call of `OnVideo` ends. `Panic` stands for Go's index or slice
      out of range; where a slice stays within the buffer's spare
      capacity Go instead reads bytes past the length, which the model
      does not follow. */
  datatype VideoOutcome =
    | WroteSample(sample: Sample)
    | NoSample
    | ParseError(msg: string)
    | Panic

  /** The messages of the two errors the sequence header can return. */
  const SPS_ERROR: string := "failed to parse SPS"
  const PPS_ERROR: string := "failed to parse PPS"

  // ---- NALU mode ----

  datatype NaluState = NaluState(sps: Bytes, pps: Bytes, hasSpsPps: bool, out: Bytes)
  datatype Scan = Scan(st: NaluState, panicked: bool)

  /** One unit read: the caches and the output after the unit `unit`
      whose first byte (read even when the unit is empty) is `head`. */
  function NaluStep(st: NaluState, head: byte, unit: Bytes): NaluState {
    var st1 :=
      if head == SPS_ID then st.(hasSpsPps := true, sps := AnnexBPrefix() + unit)
      else if head == PPS_ID then st.(hasSpsPps := true, pps := AnnexBPrefix() + unit)
      else st;
    st1.(out := st1.out + AnnexBPrefix() + unit)
  }

  /** What one turn of the NALU loop finds at an offset of the buffer: the
      end, a read out of range, or a unit (its first byte, its bytes, and
      how many bytes it took with its header). */
  datatype NaluRead = NaluEnd | NaluOutOfRange | NaluUnit(head: byte, unit: Bytes, taken: nat)

  /** One turn of the NALU loop at `offset`: it stops without error at the
      end of the buffer and when the declared length, added to the offset
      of the header, reaches the end (checked before the 4-byte header is
      skipped); a read past the end is out of range. */
  function ReadNalu(data: Bytes, offset: nat): (r: NaluRead)
    requires offset <= |data|
    // the loop ends at the end of the buffer, or where the declared length
    // from the header's offset reaches the end
    ensures r.NaluEnd? <==>
      offset == |data| || (offset + HEADER_LENGTH_FIELD <= |data| && offset + BigEndian32(data, offset) >= |data|)
    // Go's slice or index expression panics: the header is cut short, or
    // the unit's first byte or its bytes lie past the end
    ensures r.NaluOutOfRange? <==>
      && offset < |data|
      && (|| offset + HEADER_LENGTH_FIELD > |data|
          || (&& offset + BigEndian32(data, offset) < |data|
              && (offset + HEADER_LENGTH_FIELD >= |data|
                  || offset + HEADER_LENGTH_FIELD + BigEndian32(data, offset) > |data|)))
    // otherwise the unit is the declared number of bytes after the header,
    // and its head is the byte right after the header
    ensures r.NaluUnit? ==>
      && offset + HEADER_LENGTH_FIELD < |data|
      && r.taken == HEADER_LENGTH_FIELD + BigEndian32(data, offset)
      && offset + r.taken <= |data|
      && r.head == data[offset + HEADER_LENGTH_FIELD]
      && r.unit == data[offset + HEADER_LENGTH_FIELD..offset + r.taken]
  {
    if offset == |data| then NaluEnd
    else if offset + HEADER_LENGTH_FIELD > |data| then NaluOutOfRange
    else
      var len := BigEndian32(data, offset);
      if offset + len >= |data| then NaluEnd
      else if offset + HEADER_LENGTH_FIELD >= |data| || offset + HEADER_LENGTH_FIELD + len > |data| then NaluOutOfRange
      else NaluUnit(data[offset + HEADER_LENGTH_FIELD],
                    data[offset + HEADER_LENGTH_FIELD..offset + HEADER_LENGTH_FIELD + len],
                    HEADER_LENGTH_FIELD + len)
  }

  /** The NALU loop from `offset` on. */
  function NaluScan(data: Bytes, offset: nat, st: NaluState): Scan
    requires offset <= |data|
    decreases |data| - offset
  {
    match ReadNalu(data, offset)
    case NaluEnd => Scan(st, false)
    case NaluOutOfRange => Scan(st, true)
    case NaluUnit(head, unit, taken) => NaluScan(data, offset + taken, NaluStep(st, head, unit))
  }

  // ---- Sequence header ----

  /** What one turn of a parameter-set loop finds at an offset of the
      record: a read out of range (of the 2-byte length or of the byte
      after it, which come first, or of the unit), a first byte other than
      `id`, or a unit and how many bytes it took with its length. */
  datatype SetRead = SetOutOfRange | SetMismatch | SetUnit(unit: Bytes, taken: nat)

  function ReadParameterSet(data: Bytes, offset: nat, id: byte): (r: SetRead)
    requires offset <= |data|
    ensures r.SetUnit? ==> r.taken == 2 + |r.unit| && offset + r.taken <= |data|
    ensures r.SetUnit? ==>
      && offset + 2 < |data|
      && r.taken == 2 + BigEndian16(data, offset)
      && r.unit == data[offset + 2..offset + r.taken]
      && data[offset + 2] == id
    ensures r.SetMismatch? <==> offset + 2 < |data| && data[offset + 2] != id
    ensures r.SetOutOfRange? <==>
      offset + 2 >= |data| || (data[offset + 2] == id && offset + 2 + BigEndian16(data, offset) > |data|)
  {
    if offset + 2 >= |data| then SetOutOfRange
    else if data[offset + 2] != id then SetMismatch
    else if offset + 2 + BigEndian16(data, offset) > |data| then SetOutOfRange
    else SetUnit(data[offset + 2..offset + 2 + BigEndian16(data, offset)], 2 + BigEndian16(data, offset))
  }

  datatype SetsStatus = SetsParsed | SetsMismatch | SetsOutOfRange
  datatype SetsParse = SetsParse(acc: Bytes, offset: nat, status: SetsStatus)

  /** `count` parameter sets from `offset` on, each appended after a start
      code to `acc`; `offset` of the result is where the loop stopped, which
      never moves back and stays within the buffer. */
  function ParseParameterSets(data: Bytes, offset: nat, count: nat, id: byte, acc: Bytes): (r: SetsParse)
    requires offset <= |data|
    ensures offset <= r.offset <= |data|
    ensures r.status != SetsParsed ==> 0 < count
    decreases count
  {
    if count == 0 then SetsParse(acc, offset, SetsParsed)
    else match ReadParameterSet(data, offset, id)
      case SetOutOfRange => SetsParse(acc, offset, SetsOutOfRange)
      case SetMismatch => SetsParse(acc, offset, SetsMismatch)
      case SetUnit(unit, taken) => ParseParameterSets(data, offset + taken, count - 1, id, acc + AnnexBPrefix() + unit)
  }

  datatype HeaderResult = HeaderResult(outcome: VideoOutcome, sps: Bytes)

  /** The sequence-header branch: the SPS count is the low five bits of
      byte 5; the SPS cache is reset (after byte 5 was read), then both the
      SPS entries from byte 6 on and the PPS entries after the PPS count
      byte are appended to it. */
  function SequenceHeader(buf: Bytes, sps: Bytes): HeaderResult {
    if |buf| <= 5 then HeaderResult(Panic, sps)
    else
      var r1 := ParseParameterSets(buf, 6, buf[5] as int % 0x20, SPS_ID, []);
      if r1.status == SetsMismatch then HeaderResult(ParseError(SPS_ERROR), r1.acc)
      else if r1.status == SetsOutOfRange || r1.offset >= |buf| then HeaderResult(Panic, r1.acc)
      else PpsEntries(buf, r1.offset, r1.acc)
  }

  /** The PPS half of the sequence header, from the PPS count byte at
      `offset` on, appending to the SPS cache `acc`. */
  function PpsEntries(buf: Bytes, offset: nat, acc: Bytes): HeaderResult
    requires offset < |buf|
  {
    var r2 := ParseParameterSets(buf, offset + 1, buf[offset] as int, PPS_ID, acc);
    if r2.status == SetsMismatch then HeaderResult(ParseError(PPS_ERROR), r2.acc)
    else if r2.status == SetsOutOfRange then HeaderResult(Panic, r2.acc)
    else HeaderResult(NoSample, r2.acc)
  }

  // ---- The whole handler step ----

  datatype VideoResult = VideoResult(outcome: VideoOutcome, sps: Bytes, pps: Bytes)

  /** What `OnVideo` returns and leaves in the two caches. */
  function VideoStep(sps: Bytes, pps: Bytes, packetType: int, frameType: int, data: Bytes): VideoResult {
    if packetType == AVC_NALU then
      var sc := NaluScan(data, 0, NaluState(sps, pps, false, []));
      if sc.panicked then VideoResult(Panic, sc.st.sps, sc.st.pps)
      else
        var out := if frameType == FRAME_KEY && !sc.st.hasSpsPps then sc.st.sps + sc.st.pps + sc.st.out else sc.st.out;
        VideoResult(WroteSample(Sample(out, FRAME_DURATION)), sc.st.sps, sc.st.pps)
    else if packetType == AVC_SEQUENCE_HEADER then
      var h := SequenceHeader(data, sps);
      VideoResult(h.outcome, h.sps, pps)
    else VideoResult(NoSample, sps, pps)
  }

  // ---- Pieces of a buffer ----

  /** `piece` occurs in `data` at `offset`. */
  predicate At(data: Bytes, offset: nat, piece: Bytes) {
    offset + |piece| <= |data| && forall j | offset <= j < offset + |piece| :: data[j] == piece[j - offset]
  }

  lemma {:induction false} AtSplit(data: Bytes, offset: nat, a: Bytes, b: Bytes)
    requires At(data, offset, a + b)
    ensures At(data, offset, a) && At(data, offset + |a|, b)
  {
    forall i | 0 <= i < |b|
      ensures data[offset + |a| + i] == b[i]
    {
      assert (a + b)[|a| + i] == b[i];
    }
  }

  lemma {:induction false} AtSlice(data: Bytes, offset: nat, piece: Bytes)
    requires At(data, offset, piece)
    ensures data[offset..offset + |piece|] == piece
  {
  }

  lemma {:induction false} AtEnd(pre: Bytes, piece: Bytes)
    ensures At(pre + piece, |pre|, piece)
  {
  }

  lemma {:induction false} AtExtend(data: Bytes, post: Bytes, offset: nat, piece: Bytes)
    requires At(data, offset, piece)
    ensures At(data + post, offset, piece)
  {
  }

  lemma {:induction false} AtWhole(data: Bytes)
    ensures At(data, 0, data)
  {
    assert data[0..|data|] == data;
  }

  // ---- Well-formed NALU input and what comes out of it ----

  /** Units that fit a 4-byte length, none empty. */
  predicate Frameable(units: seq<Bytes>)
    decreases |units|
  {
    units != [] ==> 0 < |units[0]| < TWO_32 && Frameable(units[1..])
  }

  /** The AVCC form: each unit behind its 4-byte big-endian length. */
  function Framed(units: seq<Bytes>): Bytes {
    if units == [] then [] else BigEndianBytes32(|units[0]|) + units[0] + Framed(units[1..])
  }

  /** The Annex B form: each unit behind a start code. */
  function AnnexB(units: seq<Bytes>): Bytes {
    if units == [] then [] else AnnexBPrefix() + units[0] + AnnexB(units[1..])
  }

  /** The cache after the units: start code plus the last unit whose first
      byte is `id`, or `cached` when there is none. */
  function LastWith(units: seq<Bytes>, id: byte, cached: Bytes): Bytes {
    if units == [] then cached
    else LastWith(units[1..], id, if |units[0]| > 0 && units[0][0] == id then AnnexBPrefix() + units[0] else cached)
  }

  predicate IsParameterSet(u: Bytes) {
    |u| > 0 && (u[0] == SPS_ID || u[0] == PPS_ID)
  }

  /** Some unit is an SPS or a PPS. */
  predicate HasParameterSet(units: seq<Bytes>) {
    units != [] && (IsParameterSet(units[0]) || HasParameterSet(units[1..]))
  }

  /** The size of the units, each behind its 4-byte length. */
  function FramedSize(units: seq<Bytes>): nat {
    if units == [] then 0 else 4 + |units[0]| + FramedSize(units[1..])
  }

  /** The units lie at `offset`, each behind a length that reads back as
      its size. */
  predicate FramedAt(data: Bytes, offset: nat, units: seq<Bytes>)
    decreases |units|
  {
    && offset + FramedSize(units) <= |data|
    && (units != [] ==>
          && offset + 4 + |units[0]| <= |data| && BigEndian32(data, offset) == |units[0]|
          && At(data, offset + 4, units[0])
          && FramedAt(data, offset + 4 + |units[0]|, units[1..]))
  }

  /** One framed unit holds its length and then the unit, and the rest
      follows it. */
  lemma {:induction false} FramedUnit(data: Bytes, offset: nat, u: Bytes, rest: Bytes)
    requires |u| < TWO_32 && At(data, offset, BigEndianBytes32(|u|) + u + rest)
    ensures offset + 4 + |u| <= |data| && BigEndian32(data, offset) == |u| && At(data, offset + 4, u)
    ensures At(data, offset + 4 + |u|, rest)
  {
    var h := BigEndianBytes32(|u|);
    AtSplit(data, offset, h + u, rest);
    AtSplit(data, offset, h, u);
    assert h == [data[offset], data[offset + 1], data[offset + 2], data[offset + 3]] by {
      assert h[0] == data[offset] && h[1] == data[offset + 1] && h[2] == data[offset + 2] && h[3] == data[offset + 3];
    }
    BigEndian32OfBytes(|u|, data, offset);
  }

  /** The AVCC form of units that fit lays them out one after the other. */
  lemma {:induction false} FramedUnits(data: Bytes, offset: nat, units: seq<Bytes>)
    requires Frameable(units) && At(data, offset, Framed(units))
    ensures FramedAt(data, offset, units) && |Framed(units)| == FramedSize(units)
    decreases |units|
  {
    if units != [] {
      FramedUnit(data, offset, units[0], Framed(units[1..]));
      FramedUnits(data, offset + 4 + |units[0]|, units[1..]);
    }
  }

  /** A framed unit with more of the buffer after it: the loop reads its
      length and converts it. */
  lemma {:induction false} ReadNaluFramed(data: Bytes, offset: nat, units: seq<Bytes>)
    requires units != [] && 0 < |units[0]| && FramedAt(data, offset, units) && offset + FramedSize(units) == |data|
    ensures ReadNalu(data, offset) == NaluUnit(units[0][0], units[0], 4 + |units[0]|)
  {
    AtSlice(data, offset + 4, units[0]);
  }

  /** The state the scan reaches after the well-formed units. */
  function AfterUnits(units: seq<Bytes>, st: NaluState): NaluState {
    NaluState(LastWith(units, SPS_ID, st.sps), LastWith(units, PPS_ID, st.pps),
              st.hasSpsPps || HasParameterSet(units), st.out + AnnexB(units))
  }

  lemma {:induction false} AfterUnitsStep(units: seq<Bytes>, st: NaluState)
    requires units != [] && |units[0]| > 0
    ensures AfterUnits(units, st) == AfterUnits(units[1..], NaluStep(st, units[0][0], units[0]))
  {
    var u := units[0];
    var st1 := NaluStep(st, u[0], u);
    assert st1.out == st.out + AnnexBPrefix() + u;
    assert st.out + AnnexB(units) == st1.out + AnnexB(units[1..]);
  }

  /** The scan goes on after a unit it reads. */
  lemma {:induction false} NaluScanUnit(data: Bytes, offset: nat, st: NaluState, u: Bytes)
    requires offset <= |data| && 0 < |u| && ReadNalu(data, offset) == NaluUnit(u[0], u, 4 + |u|)
    ensures NaluScan(data, offset, st) == NaluScan(data, offset + 4 + |u|, NaluStep(st, u[0], u))
  {
  }

  /** The units framed at `offset`, up to the end of the buffer, are all
      converted in order. */
  lemma {:induction false} NaluScanFramed(data: Bytes, offset: nat, units: seq<Bytes>, st: NaluState)
    requires Frameable(units) && FramedAt(data, offset, units) && offset + FramedSize(units) == |data|
    ensures NaluScan(data, offset, st) == Scan(AfterUnits(units, st), false)
    decreases |units|
  {
    if units != [] {
      var u := units[0];
      ReadNaluFramed(data, offset, units);
      NaluScanUnit(data, offset, st, u);
      NaluScanFramed(data, offset + 4 + |u|, units[1..], NaluStep(st, u[0], u));
      AfterUnitsStep(units, st);
    } else {
      assert AfterUnits(units, st) == st by {
        assert st.out + AnnexB(units) == st.out;
      }
    }
  }

  /** A parameter-set-free run of units leaves a cache as it was. */
  lemma {:induction false} LastWithNone(units: seq<Bytes>, id: byte, cached: Bytes)
    requires !HasParameterSet(units) && (id == SPS_ID || id == PPS_ID)
    ensures LastWith(units, id, cached) == cached
    decreases |units|
  {
    if units != [] {
      LastWithNone(units[1..], id, cached);
    }
  }

  lemma {:induction false} EmptyAcc(a: Bytes)
    ensures [] + a == a
  {
  }

  /** NALU mode on well-formed AVCC input: the sample is every unit behind
      a start code, in input order; a keyframe without SPS or PPS unit gets
      the cached SPS and PPS in front; the caches hold the last SPS and the
      last PPS unit seen. */
  lemma {:induction false} OnVideoFramedUnits(sps: Bytes, pps: Bytes, frameType: int, units: seq<Bytes>)
    requires Frameable(units)
    ensures VideoStep(sps, pps, AVC_NALU, frameType, Framed(units))
      == VideoResult(
           WroteSample(Sample(
             (if frameType == FRAME_KEY && !HasParameterSet(units) then sps + pps else []) + AnnexB(units),
             FRAME_DURATION)),
           LastWith(units, SPS_ID, sps), LastWith(units, PPS_ID, pps))
  {
    var st0 := NaluState(sps, pps, false, []);
    AtWhole(Framed(units));
    FramedUnits(Framed(units), 0, units);
    NaluScanFramed(Framed(units), 0, units, st0);
    EmptyAcc(AnnexB(units));
    var after := AfterUnits(units, st0);
    assert after.out == AnnexB(units) && after.hasSpsPps == HasParameterSet(units);
    if !HasParameterSet(units) {
      LastWithNone(units, SPS_ID, sps);
      LastWithNone(units, PPS_ID, pps);
    }
  }

  /** The guard is checked before the header is skipped: a declared length
      that, added to the header's offset, reaches the end of the buffer
      stops the scan without error and leaves the rest unconverted. */
  lemma {:induction false} NaluScanStopsAtGuard(data: Bytes, offset: nat, st: NaluState)
    requires offset + HEADER_LENGTH_FIELD <= |data| && offset + BigEndian32(data, offset) >= |data|
    ensures NaluScan(data, offset, st) == Scan(st, false)
  {
  }

  /** The guard lets a unit through whose length fits before the end only
      without its 4-byte header: here 0 + 3 < 5, but the unit would end at
      byte 7 of 5. */
  lemma {:induction false} TruncatedUnitPanics(sps: Bytes, pps: Bytes, frameType: int)
    ensures VideoStep(sps, pps, AVC_NALU, frameType, [0, 0, 0, 3, 0x65]).outcome == Panic
  {
    var buf: Bytes := [0, 0, 0, 3, 0x65];
    assert BigEndian32(buf, 0) == 3;
  }

  /** An empty NALU payload is an empty sample (plus the caches on a
      keyframe). */
  lemma {:induction false} EmptyNaluPayload(sps: Bytes, pps: Bytes)
    ensures VideoStep(sps, pps, AVC_NALU, FRAME_KEY, []).outcome == WroteSample(Sample(sps + pps, FRAME_DURATION))
  {
  }

  // ---- Well-formed configuration records ----

  /** Each set is non-empty, fits a 2-byte length and starts with `id`. */
  predicate ParameterSetsFit(sets: seq<Bytes>, id: byte)
    decreases |sets|
  {
    sets != [] ==> 0 < |sets[0]| < 0x1_0000 && sets[0][0] == id && ParameterSetsFit(sets[1..], id)
  }

  /** Parameter sets, each behind its 2-byte big-endian length. */
  function LengthPrefixed(sets: seq<Bytes>): Bytes {
    if sets == [] then [] else BigEndianBytes16(|sets[0]|) + sets[0] + LengthPrefixed(sets[1..])
  }

  /** An AVCDecoderConfigurationRecord: five leading bytes, the reserved
      bits 111 with the SPS count, the SPSs, the PPS count, the PPSs. */
  function ConfigRecord(lead: Bytes, spsList: seq<Bytes>, ppsList: seq<Bytes>): Bytes
    requires |lead| == 5 && |spsList| < 0x20 && |ppsList| < 0x100
  {
    lead + [(0xE0 + |spsList|) as byte] + LengthPrefixed(spsList) + [|ppsList| as byte] + LengthPrefixed(ppsList)
  }

  /** The size of the entries of `sets`, each behind its 2-byte length. */
  function EntriesSize(sets: seq<Bytes>): nat {
    if sets == [] then 0 else 2 + |sets[0]| + EntriesSize(sets[1..])
  }

  /** The entries of `sets` lie at `offset`, each behind a length that
      reads back as its size. */
  predicate EntriesAt(data: Bytes, offset: nat, sets: seq<Bytes>)
    decreases |sets|
  {
    && offset + EntriesSize(sets) <= |data|
    && (sets != [] ==>
          && offset + 2 + |sets[0]| <= |data| && BigEndian16(data, offset) == |sets[0]|
          && At(data, offset + 2, sets[0])
          && EntriesAt(data, offset + 2 + |sets[0]|, sets[1..]))
  }

  /** One length-prefixed entry holds its length and then the set, and
      the rest follows it. */
  lemma {:induction false} PrefixedEntry(data: Bytes, offset: nat, u: Bytes, rest: Bytes)
    requires |u| < 0x1_0000 && At(data, offset, BigEndianBytes16(|u|) + u + rest)
    ensures offset + 2 + |u| <= |data| && BigEndian16(data, offset) == |u| && At(data, offset + 2, u)
    ensures At(data, offset + 2 + |u|, rest)
  {
    var h := BigEndianBytes16(|u|);
    AtSplit(data, offset, h + u, rest);
    AtSplit(data, offset, h, u);
    assert h == [data[offset], data[offset + 1]] by {
      assert h[0] == data[offset] && h[1] == data[offset + 1];
    }
    BigEndian16OfBytes(|u|, data, offset);
  }

  /** The length-prefixed form of well-formed sets lays out their entries. */
  lemma {:induction false} LengthPrefixedEntries(data: Bytes, offset: nat, sets: seq<Bytes>, id: byte)
    requires ParameterSetsFit(sets, id) && At(data, offset, LengthPrefixed(sets))
    ensures EntriesAt(data, offset, sets) && |LengthPrefixed(sets)| == EntriesSize(sets)
    decreases |sets|
  {
    if sets != [] {
      PrefixedEntry(data, offset, sets[0], LengthPrefixed(sets[1..]));
      FitRest(sets, id);
      LengthPrefixedEntries(data, offset + 2 + |sets[0]|, sets[1..], id);
    }
  }

  lemma {:induction false} FitRest(sets: seq<Bytes>, id: byte)
    requires sets != [] && ParameterSetsFit(sets, id)
    ensures 0 < |sets[0]| < 0x1_0000 && sets[0][0] == id && ParameterSetsFit(sets[1..], id)
  {
  }

  /** A well-formed entry at `offset` is read whole. */
  lemma {:induction false} ReadEntry(data: Bytes, offset: nat, sets: seq<Bytes>, id: byte)
    requires sets != [] && ParameterSetsFit(sets, id) && EntriesAt(data, offset, sets)
    ensures ReadParameterSet(data, offset, id) == SetUnit(sets[0], 2 + |sets[0]|)
  {
    FitRest(sets, id);
    AtSlice(data, offset + 2, sets[0]);
  }

  lemma {:induction false} AnnexBFirst(acc: Bytes, units: seq<Bytes>)
    requires units != []
    ensures acc + AnnexBPrefix() + units[0] + AnnexB(units[1..]) == acc + AnnexB(units)
  {
  }

  /** The parse goes on after an entry it reads, to the same result. */
  lemma {:induction false} ParseSetsThen(data: Bytes, offset: nat, count: nat, id: byte, acc: Bytes, u: Bytes, r: SetsParse)
    requires 0 < count && offset <= |data| && ReadParameterSet(data, offset, id) == SetUnit(u, 2 + |u|)
    requires offset + 2 + |u| <= |data| && ParseParameterSets(data, offset + 2 + |u|, count - 1, id, acc + AnnexBPrefix() + u) == r
    ensures ParseParameterSets(data, offset, count, id, acc) == r
  {
  }

  /** Every entry of a well-formed run is parsed. */
  lemma {:induction false} ParseAllSets(data: Bytes, offset: nat, sets: seq<Bytes>, id: byte, acc: Bytes)
    requires ParameterSetsFit(sets, id) && EntriesAt(data, offset, sets)
    ensures ParseParameterSets(data, offset, |sets|, id, acc)
         == SetsParse(acc + AnnexB(sets), offset + EntriesSize(sets), SetsParsed)
    decreases |sets|
  {
    if sets == [] {
      assert acc + AnnexB(sets) == acc;
    } else {
      var u, rest := sets[0], sets[1..];
      ReadEntry(data, offset, sets, id);
      FitRest(sets, id);
      ParseAllSets(data, offset + 2 + |u|, rest, id, acc + AnnexBPrefix() + u);
      AnnexBFirst(acc, sets);
      ParseSetsThen(data, offset, |sets|, id, acc, u,
                    SetsParse(acc + AnnexBPrefix() + u + AnnexB(rest), offset + 2 + |u| + EntriesSize(rest), SetsParsed));
    }
  }

  /** The entry after a well-formed run has a first byte other than `id`. */
  predicate MismatchAt(data: Bytes, offset: nat, id: byte) {
    offset + 2 < |data| && data[offset + 2] != id
  }

  /** A run of good entries then one whose first byte is not `id`: the
      good ones are accumulated and the parse stops at the bad one. */
  lemma {:induction false} ParseSetsThenMismatch(data: Bytes, offset: nat, good: seq<Bytes>, id: byte, acc: Bytes)
    requires ParameterSetsFit(good, id) && EntriesAt(data, offset, good) && MismatchAt(data, offset + EntriesSize(good), id)
    ensures ParseParameterSets(data, offset, |good| + 1, id, acc)
         == SetsParse(acc + AnnexB(good), offset + EntriesSize(good), SetsMismatch)
    decreases |good|
  {
    if good == [] {
      assert acc + AnnexB(good) == acc;
    } else {
      var u, rest := good[0], good[1..];
      ReadEntry(data, offset, good, id);
      FitRest(good, id);
      ParseSetsThenMismatch(data, offset + 2 + |u|, rest, id, acc + AnnexBPrefix() + u);
      AnnexBFirst(acc, good);
      ParseSetsThen(data, offset, |good| + 1, id, acc, u,
                    SetsParse(acc + AnnexBPrefix() + u + AnnexB(rest), offset + 2 + |u| + EntriesSize(rest), SetsMismatch));
    }
  }

  /** An entry whose first byte is not `id` is a mismatch. */
  lemma {:induction false} BadEntry(data: Bytes, offset: nat, bad: Bytes, id: byte)
    requires 0 < |bad| && bad[0] != id && At(data, offset, BigEndianBytes16(|bad|) + bad)
    ensures MismatchAt(data, offset, id)
  {
    assert (BigEndianBytes16(|bad|) + bad)[2] == bad[0];
  }

  /** A buffer whose SPS entries parse as `spsList`: the count in the
      low five bits of byte 5, the entries from byte 6 on. */
  predicate SpsEntries(buf: Bytes, spsList: seq<Bytes>) {
    |buf| > 5 && buf[5] as int % 0x20 == |spsList| && EntriesAt(buf, 6, spsList)
  }

  /** Well-formed PPS entries after their count: no sample, all of them
      appended to the SPS cache. */
  lemma {:induction false} PpsEntriesParsed(buf: Bytes, offset: nat, acc: Bytes, ppsList: seq<Bytes>)
    requires ParameterSetsFit(ppsList, PPS_ID) && offset < |buf| && buf[offset] as int == |ppsList|
    requires EntriesAt(buf, offset + 1, ppsList)
    ensures PpsEntries(buf, offset, acc) == HeaderResult(NoSample, acc + AnnexB(ppsList))
  {
    ParseAllSets(buf, offset + 1, ppsList, PPS_ID, acc);
  }

  /** Good PPS entries then a bad one: "failed to parse PPS", the good
      ones appended to the SPS cache. */
  lemma {:induction false} PpsEntriesMismatch(buf: Bytes, offset: nat, acc: Bytes, good: seq<Bytes>)
    requires ParameterSetsFit(good, PPS_ID) && offset < |buf| && buf[offset] as int == |good| + 1
    requires EntriesAt(buf, offset + 1, good) && MismatchAt(buf, offset + 1 + EntriesSize(good), PPS_ID)
    ensures PpsEntries(buf, offset, acc) == HeaderResult(ParseError(PPS_ERROR), acc + AnnexB(good))
  {
    ParseSetsThenMismatch(buf, offset + 1, good, PPS_ID, acc);
  }

  /** Well-formed SPS entries after their count are all parsed into the
      emptied SPS cache. */
  lemma {:induction false} SpsEntriesParsed(buf: Bytes, spsList: seq<Bytes>)
    requires ParameterSetsFit(spsList, SPS_ID) && SpsEntries(buf, spsList)
    ensures ParseParameterSets(buf, 6, buf[5] as int % 0x20, SPS_ID, [])
         == SetsParse(AnnexB(spsList), 6 + EntriesSize(spsList), SetsParsed)
  {
    ParseAllSets(buf, 6, spsList, SPS_ID, []);
    EmptyAcc(AnnexB(spsList));
  }

  /** Once the SPS entries are parsed, the header goes on with the PPS
      count byte where they end. */
  lemma {:induction false} SequenceHeaderAfterSps(buf: Bytes, sps: Bytes, acc: Bytes, n: nat, r: HeaderResult)
    requires |buf| > 5 && n < |buf| && ParseParameterSets(buf, 6, buf[5] as int % 0x20, SPS_ID, []) == SetsParse(acc, n, SetsParsed)
    requires PpsEntries(buf, n, acc) == r
    ensures SequenceHeader(buf, sps) == r
  {
  }

  /** The sequence-header branch on SPS entries then PPS entries, all
      well formed: no sample, every SPS then every PPS in the SPS cache. */
  lemma {:induction false} SequenceHeaderParsed(buf: Bytes, sps: Bytes, spsList: seq<Bytes>, ppsList: seq<Bytes>)
    requires ParameterSetsFit(spsList, SPS_ID) && ParameterSetsFit(ppsList, PPS_ID) && SpsEntries(buf, spsList)
    requires var n := 6 + EntriesSize(spsList); n < |buf| && buf[n] as int == |ppsList| && EntriesAt(buf, n + 1, ppsList)
    ensures SequenceHeader(buf, sps) == HeaderResult(NoSample, AnnexB(spsList) + AnnexB(ppsList))
  {
    var n := 6 + EntriesSize(spsList);
    SpsEntriesParsed(buf, spsList);
    PpsEntriesParsed(buf, n, AnnexB(spsList), ppsList);
    SequenceHeaderAfterSps(buf, sps, AnnexB(spsList), n, HeaderResult(NoSample, AnnexB(spsList) + AnnexB(ppsList)));
  }

  /** Good SPS entries then a bad one: "failed to parse SPS", the good
      entries in the SPS cache. */
  lemma {:induction false} SequenceHeaderSpsMismatch(buf: Bytes, sps: Bytes, good: seq<Bytes>)
    requires ParameterSetsFit(good, SPS_ID) && |buf| > 5 && buf[5] as int % 0x20 == |good| + 1
    requires EntriesAt(buf, 6, good) && MismatchAt(buf, 6 + EntriesSize(good), SPS_ID)
    ensures SequenceHeader(buf, sps) == HeaderResult(ParseError(SPS_ERROR), AnnexB(good))
  {
    ParseSetsThenMismatch(buf, 6, good, SPS_ID, []);
    EmptyAcc(AnnexB(good));
  }

  /** Well-formed SPS entries, then good PPS entries and a bad one:
      "failed to parse PPS", every SPS and the good PPS entries in the SPS
      cache. */
  lemma {:induction false} SequenceHeaderPpsMismatch(buf: Bytes, sps: Bytes, spsList: seq<Bytes>, good: seq<Bytes>)
    requires ParameterSetsFit(spsList, SPS_ID) && ParameterSetsFit(good, PPS_ID) && SpsEntries(buf, spsList)
    requires var n := 6 + EntriesSize(spsList);
      && n < |buf| && buf[n] as int == |good| + 1
      && EntriesAt(buf, n + 1, good) && MismatchAt(buf, n + 1 + EntriesSize(good), PPS_ID)
    ensures SequenceHeader(buf, sps) == HeaderResult(ParseError(PPS_ERROR), AnnexB(spsList) + AnnexB(good))
  {
    var n := 6 + EntriesSize(spsList);
    SpsEntriesParsed(buf, spsList);
    PpsEntriesMismatch(buf, n, AnnexB(spsList), good);
    SequenceHeaderAfterSps(buf, sps, AnnexB(spsList), n, HeaderResult(ParseError(PPS_ERROR), AnnexB(spsList) + AnnexB(good)));
  }

  /** The layout of a configuration record past its first five bytes. */
  lemma {:induction false} ConfigRecordLayout(lead: Bytes, spsList: seq<Bytes>, ppsList: seq<Bytes>)
    requires |lead| == 5 && |spsList| < 0x20 && |ppsList| < 0x100
    ensures var buf := ConfigRecord(lead, spsList, ppsList);
      var n := 6 + |LengthPrefixed(spsList)|;
      && |buf| == n + 1 + |LengthPrefixed(ppsList)| && buf[5] as int % 0x20 == |spsList|
      && At(buf, 6, LengthPrefixed(spsList)) && buf[n] == |ppsList| as byte && At(buf, n + 1, LengthPrefixed(ppsList))
  {
    var b0 := lead + [(0xE0 + |spsList|) as byte];
    var b1 := b0 + LengthPrefixed(spsList);
    var b2 := b1 + [|ppsList| as byte];
    AtEnd(b0, LengthPrefixed(spsList));
    AtExtend(b1, [|ppsList| as byte], 6, LengthPrefixed(spsList));
    AtExtend(b2, LengthPrefixed(ppsList), 6, LengthPrefixed(spsList));
    AtEnd(b2, LengthPrefixed(ppsList));
  }

  /** SPS entries from byte 6 on and, after the count byte where they
      end, a second run of length-prefixed entries. */
  lemma {:induction false} TwoRunsEntries(buf: Bytes, spsList: seq<Bytes>, ppsList: seq<Bytes>, count: nat)
    requires ParameterSetsFit(spsList, SPS_ID) && ParameterSetsFit(ppsList, PPS_ID)
    requires |buf| > 5 && buf[5] as int % 0x20 == |spsList| && At(buf, 6, LengthPrefixed(spsList))
    requires var n := 6 + |LengthPrefixed(spsList)|;
      n < |buf| && buf[n] as int == count && At(buf, n + 1, LengthPrefixed(ppsList))
    ensures var n := 6 + EntriesSize(spsList);
      && SpsEntries(buf, spsList) && n < |buf| && buf[n] as int == count && EntriesAt(buf, n + 1, ppsList)
      && |LengthPrefixed(spsList)| == EntriesSize(spsList) && |LengthPrefixed(ppsList)| == EntriesSize(ppsList)
  {
    LengthPrefixedEntries(buf, 6, spsList, SPS_ID);
    LengthPrefixedEntries(buf, 6 + |LengthPrefixed(spsList)| + 1, ppsList, PPS_ID);
  }

  /** The entries of a configuration record of well-formed sets. */
  lemma {:induction false} ConfigRecordEntries(lead: Bytes, spsList: seq<Bytes>, ppsList: seq<Bytes>)
    requires |lead| == 5 && |spsList| < 0x20 && |ppsList| < 0x100
    requires ParameterSetsFit(spsList, SPS_ID) && ParameterSetsFit(ppsList, PPS_ID)
    ensures var buf := ConfigRecord(lead, spsList, ppsList);
      var n := 6 + EntriesSize(spsList);
      && SpsEntries(buf, spsList) && n < |buf| && buf[n] as int == |ppsList| && EntriesAt(buf, n + 1, ppsList)
  {
    ConfigRecordLayout(lead, spsList, ppsList);
    TwoRunsEntries(ConfigRecord(lead, spsList, ppsList), spsList, ppsList, |ppsList|);
  }

  /** A well-formed sequence header: no sample, the SPS cache becomes every
      SPS then every PPS behind start codes, the PPS cache is untouched. */
  lemma {:induction false} SequenceHeaderOfRecord(sps: Bytes, pps: Bytes, frameType: int, lead: Bytes, spsList: seq<Bytes>, ppsList: seq<Bytes>)
    requires |lead| == 5 && |spsList| < 0x20 && |ppsList| < 0x100
    requires ParameterSetsFit(spsList, SPS_ID) && ParameterSetsFit(ppsList, PPS_ID)
    ensures VideoStep(sps, pps, AVC_SEQUENCE_HEADER, frameType, ConfigRecord(lead, spsList, ppsList))
      == VideoResult(NoSample, AnnexB(spsList) + AnnexB(ppsList), pps)
  {
    ConfigRecordEntries(lead, spsList, ppsList);
    SequenceHeaderParsed(ConfigRecord(lead, spsList, ppsList), sps, spsList, ppsList);
  }

  /** A record whose SPS entries are `good` then `bad`. */
  function BadSpsRecord(lead: Bytes, good: seq<Bytes>, bad: Bytes, rest: Bytes): Bytes
    requires |lead| == 5 && |good| < 0x1F
  {
    lead + [(0xE0 + |good| + 1) as byte] + LengthPrefixed(good) + BigEndianBytes16(|bad|) + bad + rest
  }

  lemma {:induction false} BadSpsLayout(lead: Bytes, good: seq<Bytes>, bad: Bytes, rest: Bytes)
    requires |lead| == 5 && |good| < 0x1F && 0 < |bad|
    ensures var buf := BadSpsRecord(lead, good, bad, rest);
      var m := 6 + |LengthPrefixed(good)|;
      && |buf| > m + 2 && buf[5] as int % 0x20 == |good| + 1
      && At(buf, 6, LengthPrefixed(good)) && buf[m + 2] == bad[0]
  {
    var b0 := lead + [(0xE0 + |good| + 1) as byte];
    var b1 := b0 + LengthPrefixed(good);
    var b2 := b1 + BigEndianBytes16(|bad|);
    var b3 := b2 + bad;
    AtEnd(b0, LengthPrefixed(good));
    AtExtend(b1, BigEndianBytes16(|bad|), 6, LengthPrefixed(good));
    AtExtend(b2, bad, 6, LengthPrefixed(good));
    AtExtend(b3, rest, 6, LengthPrefixed(good));
  }

  lemma {:induction false} BadSpsEntries(lead: Bytes, good: seq<Bytes>, bad: Bytes, rest: Bytes)
    requires |lead| == 5 && |good| < 0x1F && ParameterSetsFit(good, SPS_ID) && 0 < |bad| && bad[0] != SPS_ID
    ensures var buf := BadSpsRecord(lead, good, bad, rest);
      && |buf| > 5 && buf[5] as int % 0x20 == |good| + 1
      && EntriesAt(buf, 6, good) && MismatchAt(buf, 6 + EntriesSize(good), SPS_ID)
  {
    var buf := BadSpsRecord(lead, good, bad, rest);
    BadSpsLayout(lead, good, bad, rest);
    LengthPrefixedEntries(buf, 6, good, SPS_ID);
  }

  /** An SPS entry whose first byte is not 0x67 fails the header with
      "failed to parse SPS", leaving the SPS cache with the entries before
      it; the PPS cache is untouched. */
  lemma {:induction false} SequenceHeaderBadSps(sps: Bytes, pps: Bytes, lead: Bytes, good: seq<Bytes>, bad: Bytes, rest: Bytes)
    requires |lead| == 5 && |good| < 0x1F && ParameterSetsFit(good, SPS_ID)
    requires 0 < |bad| && bad[0] != SPS_ID
    ensures VideoStep(sps, pps, AVC_SEQUENCE_HEADER, FRAME_KEY, BadSpsRecord(lead, good, bad, rest))
         == VideoResult(ParseError(SPS_ERROR), AnnexB(good), pps)
  {
    BadSpsEntries(lead, good, bad, rest);
    SequenceHeaderSpsMismatch(BadSpsRecord(lead, good, bad, rest), sps, good);
  }

  /** A record whose PPS entries are `good` then `bad`. */
  function BadPpsRecord(lead: Bytes, spsList: seq<Bytes>, good: seq<Bytes>, bad: Bytes, rest: Bytes): Bytes
    requires |lead| == 5 && |spsList| < 0x20 && |good| < 0xFF
  {
    lead + [(0xE0 + |spsList|) as byte] + LengthPrefixed(spsList)
    + [(|good| + 1) as byte] + LengthPrefixed(good) + BigEndianBytes16(|bad|) + bad + rest
  }

  lemma {:induction false} BadPpsLayout(lead: Bytes, spsList: seq<Bytes>, good: seq<Bytes>, bad: Bytes, rest: Bytes)
    requires |lead| == 5 && |spsList| < 0x20 && |good| < 0xFF && 0 < |bad|
    ensures var buf := BadPpsRecord(lead, spsList, good, bad, rest);
      var n := 6 + |LengthPrefixed(spsList)|;
      var m := n + 1 + |LengthPrefixed(good)|;
      && |buf| > m + 2 && buf[5] as int % 0x20 == |spsList| && buf[n] as int == |good| + 1
      && At(buf, 6, LengthPrefixed(spsList)) && At(buf, n + 1, LengthPrefixed(good)) && buf[m + 2] == bad[0]
  {
    var b0 := lead + [(0xE0 + |spsList|) as byte];
    var b1 := b0 + LengthPrefixed(spsList);
    var b2 := b1 + [(|good| + 1) as byte];
    var b3 := b2 + LengthPrefixed(good);
    var b4 := b3 + BigEndianBytes16(|bad|);
    var b5 := b4 + bad;
    AtEnd(b0, LengthPrefixed(spsList));
    AtExtend(b1, [(|good| + 1) as byte], 6, LengthPrefixed(spsList));
    AtExtend(b2, LengthPrefixed(good), 6, LengthPrefixed(spsList));
    AtExtend(b3, BigEndianBytes16(|bad|), 6, LengthPrefixed(spsList));
    AtExtend(b4, bad, 6, LengthPrefixed(spsList));
    AtExtend(b5, rest, 6, LengthPrefixed(spsList));
    AtEnd(b2, LengthPrefixed(good));
    AtExtend(b3, BigEndianBytes16(|bad|), |b2|, LengthPrefixed(good));
    AtExtend(b4, bad, |b2|, LengthPrefixed(good));
    AtExtend(b5, rest, |b2|, LengthPrefixed(good));
  }

  lemma {:induction false} BadPpsEntries(lead: Bytes, spsList: seq<Bytes>, good: seq<Bytes>, bad: Bytes, rest: Bytes)
    requires |lead| == 5 && |spsList| < 0x20 && |good| < 0xFF && 0 < |bad| && bad[0] != PPS_ID
    requires ParameterSetsFit(spsList, SPS_ID) && ParameterSetsFit(good, PPS_ID)
    ensures var buf := BadPpsRecord(lead, spsList, good, bad, rest);
      var n := 6 + EntriesSize(spsList);
      && SpsEntries(buf, spsList) && n < |buf| && buf[n] as int == |good| + 1
      && EntriesAt(buf, n + 1, good) && MismatchAt(buf, n + 1 + EntriesSize(good), PPS_ID)
  {
    var buf := BadPpsRecord(lead, spsList, good, bad, rest);
    BadPpsLayout(lead, spsList, good, bad, rest);
    TwoRunsEntries(buf, spsList, good, |good| + 1);
    assert MismatchAt(buf, 6 + |LengthPrefixed(spsList)| + 1 + |LengthPrefixed(good)|, PPS_ID);
  }

  /** A PPS entry whose first byte is not 0x68 fails the header with
      "failed to parse PPS", the SPS cache then holding every SPS and the
      PPS entries before it; the PPS cache is untouched. */
  lemma {:induction false} SequenceHeaderBadPps(sps: Bytes, pps: Bytes, lead: Bytes, spsList: seq<Bytes>, good: seq<Bytes>, bad: Bytes, rest: Bytes)
    requires |lead| == 5 && |spsList| < 0x20 && |good| < 0xFF
    requires ParameterSetsFit(spsList, SPS_ID) && ParameterSetsFit(good, PPS_ID)
    requires 0 < |bad| && bad[0] != PPS_ID
    ensures VideoStep(sps, pps, AVC_SEQUENCE_HEADER, FRAME_KEY, BadPpsRecord(lead, spsList, good, bad, rest))
         == VideoResult(ParseError(PPS_ERROR), AnnexB(spsList) + AnnexB(good), pps)
  {
    BadPpsEntries(lead, spsList, good, bad, rest);
    SequenceHeaderPpsMismatch(BadPpsRecord(lead, spsList, good, bad, rest), sps, spsList, good);
  }

  /** A header too short to hold the SPS count panics before the cache is
      reset. */
  lemma {:induction false} ShortSequenceHeaderPanics(sps: Bytes, pps: Bytes, data: Bytes)
    requires |data| <= 5
    ensures VideoStep(sps, pps, AVC_SEQUENCE_HEADER, FRAME_KEY, data) == VideoResult(Panic, sps, pps)
  {
  }

  /** Any other packet type is logged and ignored. */
  lemma {:induction false} UnknownPacketTypeIgnored(sps: Bytes, pps: Bytes, packetType: int, frameType: int, data: Bytes)
    requires packetType != AVC_NALU && packetType != AVC_SEQUENCE_HEADER
    ensures VideoStep(sps, pps, packetType, frameType, data) == VideoResult(NoSample, sps, pps)
  {
  }

  // ---- The loops of the handler ----

  /** One turn of the NALU loop at `offset`: `stop` says how the loop
      ends instead (Some(true) for a panic), otherwise the unit is
      converted and the offset moves past it. */
  method ConvertNaluAt(data: Bytes, offset: nat, st: NaluState)
    returns (stop: Option<bool>, offset': nat, st': NaluState)
    requires offset < |data|
    ensures stop.None? ==> offset < offset' <= |data| && NaluScan(data, offset, st) == NaluScan(data, offset', st')
    ensures stop.Some? ==> NaluScan(data, offset, st) == Scan(st, stop.value) && st' == st
  {
    offset', st' := offset, st;
    if offset + HEADER_LENGTH_FIELD > |data| {
      return Some(true), offset', st';
    }
    var bufferLength := BigEndian32(data, offset);
    if offset + bufferLength >= |data| {
      return Some(false), offset', st';
    }
    offset' := offset + HEADER_LENGTH_FIELD;
    if offset' >= |data| || offset' + bufferLength > |data| {
      return Some(true), offset, st';
    }
    var unit := data[offset'..offset' + bufferLength];
    var sps, pps, hasSpsPps := st.sps, st.pps, st.hasSpsPps;
    if data[offset'] == SPS_ID {
      hasSpsPps := true;
      sps := AnnexBPrefix() + unit;
    } else if data[offset'] == PPS_ID {
      hasSpsPps := true;
      pps := AnnexBPrefix() + unit;
    }
    var outBuf := st.out + AnnexBPrefix();
    outBuf := outBuf + unit;
    st' := NaluState(sps, pps, hasSpsPps, outBuf);
    offset' := offset' + bufferLength;
    stop := None;
  }

  /** The NALU loop: walks the buffer by offset, converting each unit and
      keeping the parameter sets it meets. */
  method ConvertNalus(data: Bytes, st0: NaluState) returns (r: Scan)
    ensures r == NaluScan(data, 0, st0)
  {
    var st := st0;
    var offset: nat := 0;
    while offset < |data|
      invariant offset <= |data|
      invariant NaluScan(data, 0, st0) == NaluScan(data, offset, st)
      decreases |data| - offset
    {
      var stop;
      stop, offset, st := ConvertNaluAt(data, offset, st);
      if stop.Some? {
        return Scan(st, stop.value);
      }
    }
    return Scan(st, false);
  }

  /** One turn of a parameter-set loop at `offset`: the 16-bit length,
      the id check on the entry's first byte, and the entry appended after
      a start code; `stop` says why the loop ends instead. */
  method ReadSetAt(data: Bytes, offset: nat, id: byte, sets: Bytes, ghost count: nat)
    returns (stop: Option<SetsStatus>, offset': nat, sets': Bytes)
    requires 0 < count && offset <= |data|
    ensures stop.None? ==> offset' <= |data|
    ensures stop.None? ==>
      ParseParameterSets(data, offset, count, id, sets) == ParseParameterSets(data, offset', count - 1, id, sets')
    ensures stop.Some? ==> offset' == offset && sets' == sets
    ensures stop.Some? ==> ParseParameterSets(data, offset, count, id, sets) == SetsParse(sets, offset, stop.value)
  {
    offset', sets' := offset, sets;
    if offset + 2 >= |data| {
      return Some(SetsOutOfRange), offset', sets';
    }
    var len := BigEndian16(data, offset);
    if data[offset + 2] != id {
      return Some(SetsMismatch), offset', sets';
    }
    if offset + 2 + len > |data| {
      return Some(SetsOutOfRange), offset', sets';
    }
    sets' := sets + AnnexBPrefix();
    sets' := sets' + data[offset + 2..offset + 2 + len];
    offset' := offset + 2 + len;
    stop := None;
  }

  /** One parameter-set loop of the sequence header: `count` entries from
      `start` on, appended to `acc`, and the offset it stopped at. */
  method ReadParameterSets(data: Bytes, start: nat, count: nat, id: byte, acc: Bytes) returns (r: SetsParse)
    requires start <= |data|
    ensures r == ParseParameterSets(data, start, count, id, acc)
  {
    var offset: nat := start;
    var sets := acc;
    var i := 0;
    while i < count
      invariant 0 <= i <= count && offset <= |data|
      invariant ParseParameterSets(data, start, count, id, acc) == ParseParameterSets(data, offset, count - i, id, sets)
    {
      var stop;
      stop, offset, sets := ReadSetAt(data, offset, id, sets, count - i);
      if stop.Some? {
        return SetsParse(sets, offset, stop.value);
      }
      i := i + 1;
    }
    return SetsParse(sets, offset, SetsParsed);
  }

  // ---- The handler ----

  datatype PublishError = PublishingNameEmpty

  /** `OnPublish`: only an empty publishing name is refused. */
  function OnPublish(publishingName: Bytes): (r: Option<PublishError>)
    ensures r.Some? <==> publishingName == []
  {
    if publishingName == [] then Some(PublishingNameEmpty) else None
  }

  /** One RTMP connection's handler with its two parameter-set caches. */
  class Handler {
    var sps: Bytes
    var pps: Bytes

    constructor ()
      ensures sps == [] && pps == []
    {
      sps := [];
      pps := [];
    }

    /** Handles one video tag given its AVC packet type, frame type and
        data bytes, and returns the sample it writes (or why none). */
    method OnVideo(packetType: int, frameType: int, data: Bytes) returns (r: VideoOutcome)
      modifies this
      ensures VideoResult(r, sps, pps) == VideoStep(old(sps), old(pps), packetType, frameType, data)
    {
      if packetType == AVC_NALU {
        var sc := ConvertNalus(data, NaluState(sps, pps, false, []));
        sps, pps := sc.st.sps, sc.st.pps;
        if sc.panicked {
          return Panic;
        }
        var outBuf := sc.st.out;
        if frameType == FRAME_KEY && !sc.st.hasSpsPps {
          outBuf := sps + pps + outBuf;
        }
        return WroteSample(Sample(outBuf, FRAME_DURATION));
      } else if packetType == AVC_SEQUENCE_HEADER {
        if |data| <= 5 {
          return Panic;
        }
        var spsCount := data[5] as int % 0x20;
        var r1 := ReadParameterSets(data, 6, spsCount, SPS_ID, []);
        sps := r1.acc;
        if r1.status == SetsMismatch {
          return ParseError(SPS_ERROR);
        } else if r1.status == SetsOutOfRange || r1.offset >= |data| {
          return Panic;
        }
        var ppsCount := data[r1.offset] as int;
        var r2 := ReadParameterSets(data, r1.offset + 1, ppsCount, PPS_ID, sps);
        sps := r2.acc;
        if r2.status == SetsMismatch {
          return ParseError(PPS_ERROR);
        } else if r2.status == SetsOutOfRange {
          return Panic;
        }
        return NoSample;
      } else {
        return NoSample;
      }
    }
  }
}
