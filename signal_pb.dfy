/** The generated protobuf package of the signalling schema: the
    TrackSource enum with its name/value tables, the three messages
    SessionDescription {1: meta, 2: sdp}, ICECandidate {1: meta,
    2: candidate} and Meta {1: id, 2: track_source}, their nil-safe getters,
    the JSON members their struct tags produce, and their proto3 wire
    encoding (fields in number order, default values omitted). */
module SignalPb {
  import opened ByteStrings
  import opened Wrappers
  import opened ProtoWire

  /** `type TrackSource int32`: an open enum, any int32 may occur. */
  newtype TrackSource = x: int | -0x8000_0000 <= x < 0x8000_0000

  const UNKNOWN: TrackSource := 0
  const DRONE: TrackSource := 1
  const MONITOR: TrackSource := 2

  /** `TrackSource_name`. */
  const TrackSourceName: map<TrackSource, Bytes> :=
    map[UNKNOWN := Lit("UNKNOWN"), DRONE := Lit("DRONE"), MONITOR := Lit("MONITOR")]

  /** `TrackSource_value`. */
  const TrackSourceValue: map<Bytes, TrackSource> :=
    map[Lit("UNKNOWN") := UNKNOWN, Lit("DRONE") := DRONE, Lit("MONITOR") := MONITOR]

  /** The three declared values, and only them, have a name. */
  function NameOf(t: TrackSource): (r: Option<Bytes>)
    ensures r.Some? <==> t in {UNKNOWN, DRONE, MONITOR}
    ensures r.Some? ==> r.value in TrackSourceValue && TrackSourceValue[r.value] == t
  {
    if t in TrackSourceName then Some(TrackSourceName[t]) else None
  }

  /** A name maps back to the value it names. */
  function ValueOf(name: Bytes): (r: Option<TrackSource>)
    ensures r.Some? ==> r.value in TrackSourceName && TrackSourceName[r.value] == name
    ensures r.Some? <==> name in {Lit("UNKNOWN"), Lit("DRONE"), Lit("MONITOR")}
  {
    if name in TrackSourceValue then Some(TrackSourceValue[name]) else None
  }

  /** The two tables are mutually inverse over exactly three entries. */
  lemma {:induction false} TrackSourceTablesInverse()
    ensures TrackSourceName.Keys == {0, 1, 2}
    ensures |TrackSourceValue.Keys| == 3
    ensures forall t | t in TrackSourceName :: TrackSourceName[t] in TrackSourceValue && TrackSourceValue[TrackSourceName[t]] == t
    ensures forall n | n in TrackSourceValue :: TrackSourceValue[n] in TrackSourceName && TrackSourceName[TrackSourceValue[n]] == n
  {
    var u, d, m := Lit("UNKNOWN"), Lit("DRONE"), Lit("MONITOR");
    assert u[0] != d[0] && d[0] != m[0] && u[0] != m[0];
    assert TrackSourceValue.Keys == {u, d, m};
  }

  datatype Meta = Meta(id: Bytes, trackSource: TrackSource)
  datatype SessionDescription = SessionDescription(meta: Option<Meta>, sdp: Bytes)
  datatype IceCandidate = IceCandidate(meta: Option<Meta>, candidate: Bytes)

  const EmptyMeta := Meta([], UNKNOWN)
  const EmptySessionDescription := SessionDescription(None, [])
  const EmptyIceCandidate := IceCandidate(None, [])

  // Nil-safe getters: a nil receiver answers the field's zero value.

  function GetMetaOfSessionDescription(x: Option<SessionDescription>): (r: Option<Meta>)
    ensures x.None? ==> r.None?
    ensures x.Some? ==> r == x.value.meta
  {
    if x.Some? then x.value.meta else None
  }

  function GetSdp(x: Option<SessionDescription>): (r: Bytes)
    ensures x.None? ==> r == []
    ensures x.Some? ==> r == x.value.sdp
  {
    if x.Some? then x.value.sdp else []
  }

  function GetMetaOfIceCandidate(x: Option<IceCandidate>): (r: Option<Meta>)
    ensures x.None? ==> r.None?
    ensures x.Some? ==> r == x.value.meta
  {
    if x.Some? then x.value.meta else None
  }

  function GetCandidate(x: Option<IceCandidate>): (r: Bytes)
    ensures x.None? ==> r == []
    ensures x.Some? ==> r == x.value.candidate
  {
    if x.Some? then x.value.candidate else []
  }

  function GetId(x: Option<Meta>): (r: Bytes)
    ensures x.None? ==> r == []
    ensures x.Some? ==> r == x.value.id
  {
    if x.Some? then x.value.id else []
  }

  function GetTrackSource(x: Option<Meta>): (r: TrackSource)
    ensures x.None? ==> r == UNKNOWN
    ensures x.Some? ==> r == x.value.trackSource
  {
    if x.Some? then x.value.trackSource else UNKNOWN
  }

  /** Getters chain without ever failing: the id of a nil description is "". */
  lemma {:induction false} GettersChainOnNil()
    ensures GetId(GetMetaOfSessionDescription(None)) == []
    ensures GetTrackSource(GetMetaOfIceCandidate(None)) == UNKNOWN
  {
  }

  // ---- JSON members produced by the struct tags (all `omitempty`) ----

  /** The JSON keys of the three messages. */
  datatype JsonKey = KeyMeta | KeySdp | KeyCandidate | KeyId | KeyTrackSource

  function KeyName(k: JsonKey): Bytes {
    match k
    case KeyMeta => Lit("meta")
    case KeySdp => Lit("sdp")
    case KeyCandidate => Lit("candidate")
    case KeyId => Lit("id")
    case KeyTrackSource => Lit("track_source")
  }

  /** A JSON value, objects by key; Go writes the keys in declaration
      order. `JsonNumber` is a number written as an integer, `JsonOtherNumber`
      one written with a fraction or an exponent, which Go refuses for an
      integer field whatever its value. */
  datatype JsonValue =
    | JsonNull
    | JsonBool(b: bool)
    | JsonString(s: Bytes)
    | JsonNumber(n: int)
    | JsonOtherNumber
    | JsonArray(items: seq<JsonValue>)
    | JsonObject(members: map<JsonKey, JsonValue>)

  /** Meta as JSON: `id` and `track_source`, each left out at its zero value. */
  function MetaJson(m: Meta): (r: map<JsonKey, JsonValue>)
    ensures r.Keys <= {KeyId, KeyTrackSource}
    ensures KeyId in r <==> m.id != []
    ensures KeyTrackSource in r <==> m.trackSource != UNKNOWN
    ensures KeyId in r ==> r[KeyId] == JsonString(m.id)
    ensures KeyTrackSource in r ==> r[KeyTrackSource] == JsonNumber(m.trackSource as int)
  {
    (if m.id != [] then map[KeyId := JsonString(m.id)] else map[])
    + (if m.trackSource != UNKNOWN then map[KeyTrackSource := JsonNumber(m.trackSource as int)] else map[])
  }

  /** SessionDescription as JSON: `meta` (when non-nil) and `sdp` (when non-empty). */
  function SessionDescriptionJson(d: SessionDescription): (r: map<JsonKey, JsonValue>)
    ensures r.Keys <= {KeyMeta, KeySdp}
    ensures KeyMeta in r <==> d.meta.Some?
    ensures KeySdp in r <==> d.sdp != []
    ensures KeyMeta in r ==> r[KeyMeta] == JsonObject(MetaJson(d.meta.value))
    ensures KeySdp in r ==> r[KeySdp] == JsonString(d.sdp)
  {
    (if d.meta.Some? then map[KeyMeta := JsonObject(MetaJson(d.meta.value))] else map[])
    + (if d.sdp != [] then map[KeySdp := JsonString(d.sdp)] else map[])
  }

  /** ICECandidate as JSON: `meta` (when non-nil) and `candidate` (when non-empty). */
  function IceCandidateJson(c: IceCandidate): (r: map<JsonKey, JsonValue>)
    ensures r.Keys <= {KeyMeta, KeyCandidate}
    ensures KeyMeta in r <==> c.meta.Some?
    ensures KeyCandidate in r <==> c.candidate != []
    ensures KeyMeta in r ==> r[KeyMeta] == JsonObject(MetaJson(c.meta.value))
    ensures KeyCandidate in r ==> r[KeyCandidate] == JsonString(c.candidate)
  {
    (if c.meta.Some? then map[KeyMeta := JsonObject(MetaJson(c.meta.value))] else map[])
    + (if c.candidate != [] then map[KeyCandidate := JsonString(c.candidate)] else map[])
  }

  /** A key that is missing or `null`: unmarshalling leaves the field alone. */
  predicate Unset(o: map<JsonKey, JsonValue>, k: JsonKey) {
    k !in o || o[k].JsonNull?
  }

  /** A member a string field accepts. */
  predicate StringMember(o: map<JsonKey, JsonValue>, k: JsonKey) {
    Unset(o, k) || o[k].JsonString?
  }

  /** A member an int32 field accepts: an integer literal within int32. */
  predicate Int32Member(o: map<JsonKey, JsonValue>, k: JsonKey) {
    Unset(o, k) || (o[k].JsonNumber? && -0x8000_0000 <= o[k].n < 0x8000_0000)
  }

  /** The string a field holds after unmarshalling into a fresh message. */
  function StringOf(o: map<JsonKey, JsonValue>, k: JsonKey): Bytes {
    if k in o && o[k].JsonString? then o[k].s else []
  }

  /** `json.Unmarshal` of an object into a fresh Meta: a missing or null
      key keeps the zero value, unknown keys are ignored, and a value of the
      wrong kind or a number outside int32 is an error. */
  function MetaOfJson(o: map<JsonKey, JsonValue>): (r: Option<Meta>)
    ensures r.None? <==>
      || (KeyId in o && !(o[KeyId].JsonString? || o[KeyId].JsonNull?))
      || (KeyTrackSource in o && !(o[KeyTrackSource].JsonNull?
            || (o[KeyTrackSource].JsonNumber? && -0x8000_0000 <= o[KeyTrackSource].n < 0x8000_0000)))
    ensures r.Some? && Unset(o, KeyId) ==> r.value.id == []
    ensures r.Some? && Unset(o, KeyTrackSource) ==> r.value.trackSource == UNKNOWN
  {
    if !StringMember(o, KeyId) || !Int32Member(o, KeyTrackSource) then None
    else Some(Meta(StringOf(o, KeyId),
                   if KeyTrackSource in o && o[KeyTrackSource].JsonNumber? then o[KeyTrackSource].n as TrackSource else UNKNOWN))
  }

  /** The `meta` member decoded into a fresh Meta: nil when missing or
      null, an object, or an error. */
  function MetaMemberOfJson(o: map<JsonKey, JsonValue>): (r: Option<Option<Meta>>)
    ensures Unset(o, KeyMeta) ==> r == Some(None)
    ensures !Unset(o, KeyMeta) && !o[KeyMeta].JsonObject? ==> r.None?
  {
    if Unset(o, KeyMeta) then Some(None)
    else if !o[KeyMeta].JsonObject? then None
    else match MetaOfJson(o[KeyMeta].members)
      case None => None
      case Some(m) => Some(Some(m))
  }

  /** `json.Unmarshal` into a fresh SessionDescription. */
  function SessionDescriptionOfJson(o: map<JsonKey, JsonValue>): (r: Option<SessionDescription>)
    ensures r.Some? ==> r.value.meta.Some? == !Unset(o, KeyMeta)
    ensures !StringMember(o, KeySdp) ==> r.None?
  {
    if !StringMember(o, KeySdp) then None
    else match MetaMemberOfJson(o)
      case None => None
      case Some(meta) => Some(SessionDescription(meta, StringOf(o, KeySdp)))
  }

  /** `json.Unmarshal` into a fresh ICECandidate. */
  function IceCandidateOfJson(o: map<JsonKey, JsonValue>): (r: Option<IceCandidate>)
    ensures r.Some? ==> r.value.meta.Some? == !Unset(o, KeyMeta)
    ensures !StringMember(o, KeyCandidate) ==> r.None?
  {
    if !StringMember(o, KeyCandidate) then None
    else match MetaMemberOfJson(o)
      case None => None
      case Some(meta) => Some(IceCandidate(meta, StringOf(o, KeyCandidate)))
  }

  /** The JSON of a Meta reads back as that Meta. */
  lemma {:induction false} MetaJsonRoundTrip(m: Meta)
    ensures MetaOfJson(MetaJson(m)) == Some(m)
  {
    var o := MetaJson(m);
    assert KeyId !in o ==> m.id == [];
    assert KeyTrackSource !in o ==> m.trackSource == UNKNOWN;
  }

  /** The JSON of a SessionDescription reads back as that description. */
  lemma {:induction false} SessionDescriptionJsonRoundTrip(d: SessionDescription)
    ensures SessionDescriptionOfJson(SessionDescriptionJson(d)) == Some(d)
  {
    if d.meta.Some? {
      MetaJsonRoundTrip(d.meta.value);
    }
  }

  /** The JSON of an ICECandidate reads back as that candidate. */
  lemma {:induction false} IceCandidateJsonRoundTrip(c: IceCandidate)
    ensures IceCandidateOfJson(IceCandidateJson(c)) == Some(c)
  {
    if c.meta.Some? {
      MetaJsonRoundTrip(c.meta.value);
    }
  }

  /** `null` members leave a fresh message as it is... */
  lemma {:induction false} NullMembersAreUnset()
    ensures SessionDescriptionOfJson(map[KeyMeta := JsonNull, KeySdp := JsonNull]) == Some(EmptySessionDescription)
    ensures IceCandidateOfJson(map[KeyMeta := JsonNull, KeyCandidate := JsonNull]) == Some(EmptyIceCandidate)
    ensures MetaOfJson(map[KeyId := JsonNull, KeyTrackSource := JsonNull]) == Some(EmptyMeta)
  {
  }

  /** ... while a track source written with a fraction or an exponent, or
      given as a string, boolean or array, is an error. */
  lemma {:induction false} TrackSourceMustBeInteger(v: JsonValue)
    requires v.JsonOtherNumber? || v.JsonString? || v.JsonBool? || v.JsonArray?
    ensures MetaOfJson(map[KeyTrackSource := v]) == None
  {
  }

  // ---- Wire encoding ----

  /** An enum is sent as the varint of its 64-bit sign extension. */
  function EnumToUint64(t: TrackSource): (r: nat)
    ensures r < TWO_64
  {
    if t >= 0 then t as int else t as int + TWO_64
  }

  /** A decoded enum varint is truncated to int32. */
  function EnumFromUint64(v: nat): TrackSource {
    WrapInt32(v) as TrackSource
  }

  lemma {:induction false} EnumWireRoundTrip(t: TrackSource)
    ensures EnumFromUint64(EnumToUint64(t)) == t
  {
    var v := EnumToUint64(t);
    assert (v - t as int) % TWO_32 == 0;
    assert WrapInt32(v) == WrapInt32(t as int) by {
      WrapCongruent(v, t as int);
    }
  }

  lemma {:induction false} WrapCongruent(a: int, b: int)
    requires (a - b) % TWO_32 == 0
    ensures WrapInt32(a) == WrapInt32(b)
  {
    assert a % TWO_32 == b % TWO_32;
  }

  /** The records of a Meta, in field-number order. */
  function MetaFields(m: Meta): seq<WireField> {
    (if m.id != [] then [WireField(1, LenValue(m.id))] else [])
    + (if m.trackSource != UNKNOWN then [WireField(2, VarintValue(EnumToUint64(m.trackSource)))] else [])
  }

  function MarshalMeta(m: Meta): Bytes {
    EncodeFields(MetaFields(m))
  }

  function SessionDescriptionFields(d: SessionDescription): seq<WireField> {
    (if d.meta.Some? then [WireField(1, LenValue(MarshalMeta(d.meta.value)))] else [])
    + (if d.sdp != [] then [WireField(2, LenValue(d.sdp))] else [])
  }

  /** `proto.Marshal` of a SessionDescription. */
  function MarshalSessionDescription(d: SessionDescription): Bytes {
    EncodeFields(SessionDescriptionFields(d))
  }

  function IceCandidateFields(c: IceCandidate): seq<WireField> {
    (if c.meta.Some? then [WireField(1, LenValue(MarshalMeta(c.meta.value)))] else [])
    + (if c.candidate != [] then [WireField(2, LenValue(c.candidate))] else [])
  }

  /** `proto.Marshal` of an ICECandidate. */
  function MarshalIceCandidate(c: IceCandidate): Bytes {
    EncodeFields(IceCandidateFields(c))
  }

  // ---- Wire decoding: fold the records over the zero message ----

  /** A record of a Meta: id (1, length-delimited) or track_source (2,
      varint); a later record overrides an earlier one; anything else is an
      unknown field and skipped. */
  function ApplyMetaField(m: Meta, f: WireField): Meta {
    if f.num == 1 && f.value.LenValue? then m.(id := f.value.b)
    else if f.num == 2 && f.value.VarintValue? then m.(trackSource := EnumFromUint64(f.value.v))
    else m
  }

  function FoldMeta(m: Meta, fs: seq<WireField>): Meta
    decreases |fs|
  {
    if fs == [] then m else FoldMeta(ApplyMetaField(m, fs[0]), fs[1..])
  }

  /** Decoding into an existing Meta merges: this is what a repeated
      `meta` record does in the enclosing message. */
  function UnmarshalMetaInto(m: Meta, s: Bytes): Option<Meta> {
    match ParseFields(s)
    case None => None
    case Some(fs) => Some(FoldMeta(m, fs))
  }

  function ApplySessionDescriptionField(d: SessionDescription, f: WireField): Option<SessionDescription> {
    if f.num == 1 && f.value.LenValue? then
      var base := if d.meta.Some? then d.meta.value else EmptyMeta;
      match UnmarshalMetaInto(base, f.value.b)
      case None => None
      case Some(m) => Some(d.(meta := Some(m)))
    else if f.num == 2 && f.value.LenValue? then Some(d.(sdp := f.value.b))
    else Some(d)
  }

  function FoldSessionDescription(d: SessionDescription, fs: seq<WireField>): Option<SessionDescription>
    decreases |fs|
  {
    if fs == [] then Some(d)
    else match ApplySessionDescriptionField(d, fs[0])
      case None => None
      case Some(d') => FoldSessionDescription(d', fs[1..])
  }

  /** `proto.Unmarshal` into a fresh SessionDescription. */
  function UnmarshalSessionDescription(s: Bytes): Option<SessionDescription> {
    match ParseFields(s)
    case None => None
    case Some(fs) => FoldSessionDescription(EmptySessionDescription, fs)
  }

  function ApplyIceCandidateField(c: IceCandidate, f: WireField): Option<IceCandidate> {
    if f.num == 1 && f.value.LenValue? then
      var base := if c.meta.Some? then c.meta.value else EmptyMeta;
      match UnmarshalMetaInto(base, f.value.b)
      case None => None
      case Some(m) => Some(c.(meta := Some(m)))
    else if f.num == 2 && f.value.LenValue? then Some(c.(candidate := f.value.b))
    else Some(c)
  }

  function FoldIceCandidate(c: IceCandidate, fs: seq<WireField>): Option<IceCandidate>
    decreases |fs|
  {
    if fs == [] then Some(c)
    else match ApplyIceCandidateField(c, fs[0])
      case None => None
      case Some(c') => FoldIceCandidate(c', fs[1..])
  }

  /** `proto.Unmarshal` into a fresh ICECandidate. */
  function UnmarshalIceCandidate(s: Bytes): Option<IceCandidate> {
    match ParseFields(s)
    case None => None
    case Some(fs) => FoldIceCandidate(EmptyIceCandidate, fs)
  }

  // ---- Round trips ----

  /** Byte strings short enough for a length prefix (any Go slice is). */
  predicate MetaFits(m: Meta) { |m.id| < TWO_32 }
  predicate SessionDescriptionFits(d: SessionDescription) {
    |d.sdp| < TWO_32 && (d.meta.Some? ==> MetaFits(d.meta.value))
  }
  predicate IceCandidateFits(c: IceCandidate) {
    |c.candidate| < TWO_32 && (c.meta.Some? ==> MetaFits(c.meta.value))
  }

  /** A varint below 128^k takes at most k bytes. */
  lemma {:induction false} VarintLength(x: nat, k: nat)
    requires k >= 1 && x < Pow128(k)
    ensures |EncodeVarint(x)| <= k
    decreases k
  {
    if x >= 0x80 {
      assert k >= 2;
      VarintLength(x / 0x80, k - 1);
    }
  }

  /** Every 64-bit number has a varint of at most ten bytes. */
  lemma {:induction false} VarintAtMostTen(x: nat)
    requires x < TWO_64
    ensures |EncodeVarint(x)| <= MAX_VARINT_BYTES
  {
    Pow128Nine();
    VarintLength(x, MAX_VARINT_BYTES);
  }

  lemma {:induction false} EncodeFieldsPair(fs: seq<WireField>)
    requires |fs| == 2
    ensures EncodeFields(fs) == EncodeField(fs[0]) + EncodeField(fs[1])
  {
    assert fs[1..][1..] == [];
    assert EncodeFields(fs[1..]) == EncodeField(fs[1]) + [];
  }

  lemma {:induction false} MarshalMetaShort(m: Meta)
    requires MetaFits(m)
    ensures |MarshalMeta(m)| < TWO_64
  {
    var fs := MetaFields(m);
    VarintAtMostTen(1 * 8 + 2);
    VarintAtMostTen(|m.id|);
    VarintAtMostTen(2 * 8 + 0);
    VarintAtMostTen(EnumToUint64(m.trackSource));
    var idBytes := EncodeField(WireField(1, LenValue(m.id)));
    var tsBytes := EncodeField(WireField(2, VarintValue(EnumToUint64(m.trackSource))));
    assert |idBytes| <= 20 + |m.id|;
    assert |tsBytes| <= 20;
    if m.id != [] && m.trackSource != UNKNOWN {
      EncodeFieldsPair(fs);
    } else if m.id != [] {
      assert fs == [WireField(1, LenValue(m.id))];
      assert EncodeFields(fs) == idBytes + [];
    } else if m.trackSource != UNKNOWN {
      assert fs == [WireField(2, VarintValue(EnumToUint64(m.trackSource)))];
      assert EncodeFields(fs) == tsBytes + [];
    }
  }

  lemma {:induction false} FoldMetaOfFields(m: Meta)
    ensures FoldMeta(EmptyMeta, MetaFields(m)) == m
  {
    EnumWireRoundTrip(m.trackSource);
    var fs := MetaFields(m);
    if m.id != [] && m.trackSource != UNKNOWN {
      assert fs[1..] == [fs[1]];
      assert FoldMeta(EmptyMeta, fs) == FoldMeta(Meta(m.id, UNKNOWN), [fs[1]]);
    }
  }

  /** Meta survives the wire: decoding its encoding gives it back. */
  lemma {:induction false} MetaRoundTrip(m: Meta)
    requires MetaFits(m)
    ensures UnmarshalMetaInto(EmptyMeta, MarshalMeta(m)) == Some(m)
  {
    var fs := MetaFields(m);
    EnumToUint64Bound(m.trackSource);
    assert forall i | 0 <= i < |fs| :: WellFormed(fs[i]);
    ParseFieldsOfEncode(fs);
    FoldMetaOfFields(m);
  }

  lemma {:induction false} EnumToUint64Bound(t: TrackSource)
    ensures EnumToUint64(t) < TWO_64
  {
  }

  lemma {:induction false} FoldSessionDescriptionOfFields(d: SessionDescription)
    requires d.meta.Some? ==> UnmarshalMetaInto(EmptyMeta, MarshalMeta(d.meta.value)) == Some(d.meta.value)
    ensures FoldSessionDescription(EmptySessionDescription, SessionDescriptionFields(d)) == Some(d)
  {
    var fs := SessionDescriptionFields(d);
    var d1 := SessionDescription(d.meta, []);
    if d.meta.Some? {
      assert ApplySessionDescriptionField(EmptySessionDescription, fs[0]) == Some(d1);
      if d.sdp != [] {
        assert fs[1..] == [fs[1]];
        assert ApplySessionDescriptionField(d1, fs[1]) == Some(d);
        assert FoldSessionDescription(d1, fs[1..]) == FoldSessionDescription(d, []);
      } else {
        assert fs[1..] == [];
      }
    } else if d.sdp != [] {
      assert fs == [WireField(2, LenValue(d.sdp))];
      assert ApplySessionDescriptionField(EmptySessionDescription, fs[0]) == Some(d);
      assert FoldSessionDescription(EmptySessionDescription, fs) == FoldSessionDescription(d, fs[1..]);
    }
  }

  /** A SessionDescription survives the wire, its meta (nil or not) included. */
  lemma {:induction false} SessionDescriptionRoundTrip(d: SessionDescription)
    requires SessionDescriptionFits(d)
    ensures UnmarshalSessionDescription(MarshalSessionDescription(d)) == Some(d)
  {
    var fs := SessionDescriptionFields(d);
    if d.meta.Some? {
      MarshalMetaShort(d.meta.value);
      MetaRoundTrip(d.meta.value);
    }
    assert forall i | 0 <= i < |fs| :: WellFormed(fs[i]);
    ParseFieldsOfEncode(fs);
    FoldSessionDescriptionOfFields(d);
  }

  lemma {:induction false} FoldIceCandidateOfFields(c: IceCandidate)
    requires c.meta.Some? ==> UnmarshalMetaInto(EmptyMeta, MarshalMeta(c.meta.value)) == Some(c.meta.value)
    ensures FoldIceCandidate(EmptyIceCandidate, IceCandidateFields(c)) == Some(c)
  {
    var fs := IceCandidateFields(c);
    var c1 := IceCandidate(c.meta, []);
    if c.meta.Some? {
      assert ApplyIceCandidateField(EmptyIceCandidate, fs[0]) == Some(c1);
      if c.candidate != [] {
        assert fs[1..] == [fs[1]];
        assert ApplyIceCandidateField(c1, fs[1]) == Some(c);
        assert FoldIceCandidate(c1, fs[1..]) == FoldIceCandidate(c, []);
      } else {
        assert fs[1..] == [];
      }
    } else if c.candidate != [] {
      assert fs == [WireField(2, LenValue(c.candidate))];
      assert ApplyIceCandidateField(EmptyIceCandidate, fs[0]) == Some(c);
      assert FoldIceCandidate(EmptyIceCandidate, fs) == FoldIceCandidate(c, fs[1..]);
    }
  }

  /** An ICECandidate survives the wire, its meta (nil or not) included. */
  lemma {:induction false} IceCandidateRoundTrip(c: IceCandidate)
    requires IceCandidateFits(c)
    ensures UnmarshalIceCandidate(MarshalIceCandidate(c)) == Some(c)
  {
    var fs := IceCandidateFields(c);
    if c.meta.Some? {
      MarshalMetaShort(c.meta.value);
      MetaRoundTrip(c.meta.value);
    }
    assert forall i | 0 <= i < |fs| :: WellFormed(fs[i]);
    ParseFieldsOfEncode(fs);
    FoldIceCandidateOfFields(c);
  }

  /** The empty payload is a valid message: every field at its zero value. */
  lemma {:induction false} EmptyPayloadDecodes()
    ensures UnmarshalSessionDescription([]) == Some(EmptySessionDescription)
    ensures UnmarshalIceCandidate([]) == Some(EmptyIceCandidate)
  {
  }

  /** An unknown field sent as a group leaves the message as it is, wherever
      it stands among the records. */
  lemma {:induction false} GroupFieldIgnored(d: SessionDescription, fs: seq<WireField>, g: WireField, gs: seq<WireField>)
    requires g.value.GroupValue?
    ensures FoldSessionDescription(d, fs + [g] + gs) == FoldSessionDescription(d, fs + gs)
    decreases |fs|
  {
    if fs == [] {
      assert fs + [g] + gs == [g] + gs && ([g] + gs)[1..] == gs;
      assert fs + gs == gs;
    } else {
      assert (fs + [g] + gs)[0] == fs[0] && (fs + [g] + gs)[1..] == fs[1..] + [g] + gs;
      assert (fs + gs)[0] == fs[0] && (fs + gs)[1..] == fs[1..] + gs;
      match ApplySessionDescriptionField(d, fs[0])
      case None =>
      case Some(d') => GroupFieldIgnored(d', fs[1..], g, gs);
    }
  }

  /** The payload 1B 1C (field 3 as an empty group) is the empty message. */
  lemma {:induction false} EmptyGroupDecodes()
    ensures UnmarshalSessionDescription([0x1B, 0x1C]) == Some(EmptySessionDescription)
    ensures UnmarshalIceCandidate([0x1B, 0x1C]) == Some(EmptyIceCandidate)
  {
    EmptyGroupParses();
  }

  /** A message with a non-empty field never encodes to the empty payload. */
  lemma {:induction false} MarshalNonEmpty(d: SessionDescription)
    requires d.sdp != [] || d.meta.Some?
    ensures |MarshalSessionDescription(d)| > 0
  {
  }
}
