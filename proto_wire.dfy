/** The Protocol Buffers wire format ("Message Structure", "Base 128
    Varints", "Length-Delimited Records" of the encoding guide) as far as
    the three messages of the signalling schema need it: a message is a
    sequence of records, each a varint tag (field number times 8 plus the
    wire type) followed by its value. Decoding follows the Go runtime: a
    varint is at most ten bytes and the tenth byte must be 0 or 1, a field
    number must lie in 1 .. 2^29 - 1, a length may not run past the end of
    the input, and an unknown field sent as a group is skipped up to its
    matching end tag while a stray end tag is an error (protowire's
    `ConsumeFieldValue`). */
module ProtoWire {
  import opened ByteStrings
  import opened Wrappers

  const MAX_FIELD_NUMBER: nat := 0x1FFF_FFFF
  const MAX_VARINT_BYTES: nat := 10
  /** Inside a group protowire's `ConsumeTag` only asks that a field number
      be positive and fit an int32. */
  const MAX_TAG_NUMBER: nat := 0x7FFF_FFFF
  /** protowire's `DefaultRecursionLimit` on nested groups. */
  const RECURSION_LIMIT: int := 10000

  /** Base 128 varint, least significant group first. */
  function EncodeVarint(x: nat): (r: Bytes)
    ensures |r| >= 1
    decreases x
  {
    if x < 0x80 then [x as byte] else [(x % 0x80 + 0x80) as byte] + EncodeVarint(x / 0x80)
  }

  function Pow128(k: nat): (r: nat)
    ensures r >= 1
  {
    if k == 0 then 1 else 0x80 * Pow128(k - 1)
  }

  lemma {:induction false} Pow128Nine()
    ensures 2 * Pow128(MAX_VARINT_BYTES - 1) == TWO_64
  {
    assert Pow128(1) == 0x80;
    assert Pow128(2) == 0x4000;
    assert Pow128(3) == 0x20_0000;
    assert Pow128(4) == 0x1000_0000;
    assert Pow128(5) == 0x8_0000_0000;
    assert Pow128(6) == 0x400_0000_0000;
    assert Pow128(7) == 0x2_0000_0000_0000;
    assert Pow128(8) == 0x100_0000_0000_0000;
    assert Pow128(9) == 0x8000_0000_0000_0000;
  }

  /** Reads one varint starting at position `i`, using at most `budget`
      bytes; the last byte the budget allows must be 0 or 1 (the overflow
      check of the tenth byte). Yields the value and the number of bytes
      read. */
  function VarintAt(s: Bytes, i: nat, budget: nat): (r: Option<(nat, nat)>)
    ensures r.Some? ==> i < |s| && 1 <= r.value.1 <= |s| - i && r.value.1 <= budget
    ensures r.Some? ==> r.value.0 < 2 * Pow128(budget - 1)
    decreases budget
  {
    if budget == 0 || i >= |s| then None
    else if budget == 1 && s[i] > 1 then None
    else if s[i] < 0x80 then Some((s[i] as nat, 1))
    else match VarintAt(s, i + 1, budget - 1)
      case None => None
      case Some((v, n)) => Some(((s[i] as int - 0x80) + 0x80 * v, n + 1))
  }

  /** `protowire.ConsumeVarint`. */
  function DecodeVarint(s: Bytes): (r: Option<(nat, nat)>)
    ensures r.Some? ==> 1 <= r.value.1 <= |s| && r.value.0 < TWO_64
  {
    Pow128Nine();
    VarintAt(s, 0, MAX_VARINT_BYTES)
  }

  lemma {:induction false} VarintAtEncode(p: Bytes, x: nat, rest: Bytes, budget: nat)
    requires budget >= 1 && x < 2 * Pow128(budget - 1)
    ensures VarintAt(p + EncodeVarint(x) + rest, |p|, budget) == Some((x, |EncodeVarint(x)|))
    decreases x
  {
    if x >= 0x80 {
      assert budget >= 2;
      assert x / 0x80 < 2 * Pow128(budget - 2) by {
        assert Pow128(budget - 1) == 0x80 * Pow128(budget - 2);
      }
      var b: Bytes := [(x % 0x80 + 0x80) as byte];
      assert p + EncodeVarint(x) + rest == (p + b) + EncodeVarint(x / 0x80) + rest;
      VarintAtEncode(p + b, x / 0x80, rest, budget - 1);
    }
  }

  /** Decoding an encoded varint gives back the number, whatever follows. */
  lemma {:induction false} VarintRoundTrip(x: nat, rest: Bytes)
    requires x < TWO_64
    ensures DecodeVarint(EncodeVarint(x) + rest) == Some((x, |EncodeVarint(x)|))
  {
    Pow128Nine();
    VarintAtEncode([], x, rest, MAX_VARINT_BYTES);
    assert [] + EncodeVarint(x) + rest == EncodeVarint(x) + rest;
  }

  /** The value of one record, by wire type. */
  datatype WireValue =
    | VarintValue(v: nat)        // wire type 0
    | Fixed64Value(b: Bytes)     // wire type 1
    | LenValue(b: Bytes)         // wire type 2
    | Fixed32Value(b: Bytes)     // wire type 5
    | GroupValue(b: Bytes)       // wire type 3: what follows the start tag, through the end tag

  datatype WireField = WireField(num: nat, value: WireValue)

  function WireType(v: WireValue): nat {
    match v
    case VarintValue(_) => 0
    case Fixed64Value(_) => 1
    case LenValue(_) => 2
    case Fixed32Value(_) => 5
    case GroupValue(_) => 3
  }

  /** A record the Go encoder can produce; a group holds records that end
      with the end tag of its own field. */
  predicate WellFormed(f: WireField) {
    && 1 <= f.num <= MAX_FIELD_NUMBER
    && match f.value
       case VarintValue(v) => v < TWO_64
       case Fixed64Value(b) => |b| == 8
       case LenValue(b) => |b| < TWO_64
       case Fixed32Value(b) => |b| == 4
       case GroupValue(b) => GroupBody(f.num, b, RECURSION_LIMIT) == Some(|b|)
  }

  function EncodeValue(v: WireValue): Bytes {
    match v
    case VarintValue(x) => EncodeVarint(x)
    case Fixed64Value(b) => b
    case LenValue(b) => EncodeVarint(|b|) + b
    case Fixed32Value(b) => b
    case GroupValue(b) => b
  }

  function EncodeField(f: WireField): Bytes {
    EncodeVarint(f.num * 8 + WireType(f.value)) + EncodeValue(f.value)
  }

  function EncodeFields(fs: seq<WireField>): Bytes {
    if fs == [] then [] else EncodeField(fs[0]) + EncodeFields(fs[1..])
  }

  /** A tag's field number, the tag shifted right by three bits, counted
      off eight at a time (`TagParts` relates it to division). */
  function TagNumber(tag: nat): nat {
    if tag < 8 then 0 else 1 + TagNumber(tag - 8)
  }

  /** A tag's wire type, its low three bits. */
  function TagWireType(tag: nat): (r: nat)
    ensures r < 8
  {
    if tag < 8 then tag else TagWireType(tag - 8)
  }

  /** The field number and wire type of a tag are its quotient and
      remainder by 8 (protowire's `v >> 3` and `v & 7`). */
  lemma {:induction false} TagParts(tag: nat)
    ensures TagNumber(tag) == tag / 8 && TagWireType(tag) == tag % 8
    decreases tag
  {
    if tag >= 8 {
      TagParts(tag - 8);
    }
  }

  /** `protowire.ConsumeTag`: a tag's field number, which must be positive
      and fit an int32, its wire type and its length. */
  function ConsumeTag(s: Bytes): (r: Option<(nat, nat, nat)>)
    ensures r.Some? ==> 1 <= r.value.0 <= MAX_TAG_NUMBER && r.value.1 < 8 && 1 <= r.value.2 <= |s|
  {
    match DecodeVarint(s)
    case None => None
    case Some((tag, n)) =>
      var num := TagNumber(tag);
      if num < 1 || num > MAX_TAG_NUMBER then None else Some((num, TagWireType(tag), n))
  }

  /** Reads a value other than a group: a varint, 8 or 4 fixed bytes, or a
      length and that many bytes; end tags and the unassigned wire types
      6 and 7 are rejected. Yields the record and the length of the value. */
  function DecodePlainValue(num: nat, wt: nat, rest: Bytes): (r: Option<(WireField, nat)>)
    ensures r.Some? ==> r.value.1 <= |rest| && r.value.0.num == num && WireType(r.value.0.value) == wt
  {
    if wt == 0 then
      match DecodeVarint(rest)
      case None => None
      case Some((v, m)) => Some((WireField(num, VarintValue(v)), m))
    else if wt == 1 then
      if |rest| < 8 then None else Some((WireField(num, Fixed64Value(rest[..8])), 8))
    else if wt == 2 then
      match DecodeVarint(rest)
      case None => None
      case Some((len, m)) =>
        if len > |rest| - m then None
        else Some((WireField(num, LenValue(rest[m..m + len])), m + len))
    else if wt == 5 then
      if |rest| < 4 then None else Some((WireField(num, Fixed32Value(rest[..4])), 4))
    else None
  }

  /** Reads the value of a record whose tag said field `num`, wire type
      `wt`; yields the record and the length of the value. A group may
      hold `depth` further levels of groups. */
  function DecodeValue(num: nat, wt: nat, rest: Bytes, depth: int): (r: Option<(WireField, nat)>)
    ensures r.Some? ==> r.value.1 <= |rest| && r.value.0.num == num && WireType(r.value.0.value) == wt
    decreases |rest|, 1
  {
    if wt != 3 then DecodePlainValue(num, wt, rest)
    else if depth < 0 then None
    else match GroupBody(num, rest, depth)
      case None => None
      case Some(m) => Some((WireField(num, GroupValue(rest[..m])), m))
  }

  /** The records of a group of field `num` up to and including its end
      tag, which must carry the same number; yields their length. */
  function GroupBody(num: nat, s: Bytes, depth: int): (r: Option<nat>)
    ensures r.Some? ==> 1 <= r.value <= |s|
    decreases |s|, 0
  {
    match ConsumeTag(s)
    case None => None
    case Some((num2, wt2, n)) =>
      if wt2 == 4 then (if num2 == num then Some(n) else None)
      else match DecodeValue(num2, wt2, s[n..], depth - 1)
        case None => None
        case Some((_, m)) => After(n + m, GroupBody(num, s[n + m..], depth))
  }

  /** A length read after `used` bytes, counted from the start. */
  function After(used: nat, r: Option<nat>): (r': Option<nat>)
    ensures r'.Some? <==> r.Some?
    ensures r'.Some? ==> r'.value == used + r.value
  {
    match r
    case None => None
    case Some(k) => Some(used + k)
  }

  /** Reads one record; an end tag outside a group and the unassigned wire
      types 6 and 7 are rejected. Yields the record and its length. */
  function DecodeField(s: Bytes): (r: Option<(WireField, nat)>)
    ensures r.Some? ==> 1 <= r.value.1 <= |s|
  {
    match DecodeVarint(s)
    case None => None
    case Some((tag, n)) =>
      var num := TagNumber(tag);
      if num < 1 || num > MAX_FIELD_NUMBER then None
      else match DecodeValue(num, TagWireType(tag), s[n..], RECURSION_LIMIT)
        case None => None
        case Some((f, m)) => Some((f, n + m))
  }

  /** Splits a whole message into its records; any malformed record makes
      the whole message malformed. */
  function ParseFields(s: Bytes): Option<seq<WireField>>
    decreases |s|
  {
    if s == [] then Some([])
    else match DecodeField(s)
      case None => None
      case Some((f, n)) =>
        match ParseFields(s[n..])
        case None => None
        case Some(fs) => Some([f] + fs)
  }

  lemma {:induction false} DecodeVarintOfEncode(num: nat, x: nat, rest: Bytes)
    requires x < TWO_64
    ensures DecodeValue(num, 0, EncodeVarint(x) + rest, RECURSION_LIMIT) == Some((WireField(num, VarintValue(x)), |EncodeVarint(x)|))
  {
    VarintRoundTrip(x, rest);
  }

  lemma {:induction false} DecodeLenOfEncode(num: nat, b: Bytes, rest: Bytes)
    requires |b| < TWO_64
    ensures DecodeValue(num, 2, EncodeVarint(|b|) + b + rest, RECURSION_LIMIT)
         == Some((WireField(num, LenValue(b)), |EncodeVarint(|b|)| + |b|))
  {
    var prefix := EncodeVarint(|b|);
    VarintRoundTrip(|b|, b + rest);
    assert prefix + b + rest == prefix + (b + rest);
    SliceOfConcat(prefix, b, rest);
  }

  /** What follows a varint does not change how it reads. */
  lemma {:induction false} VarintAtPrefix(s: Bytes, rest: Bytes, i: nat, budget: nat)
    requires VarintAt(s, i, budget).Some?
    ensures VarintAt(s + rest, i, budget) == VarintAt(s, i, budget)
    decreases budget
  {
    if s[i] >= 0x80 {
      VarintAtPrefix(s, rest, i + 1, budget - 1);
    }
  }

  lemma {:induction false} DecodePlainValuePrefix(num: nat, wt: nat, s: Bytes, rest: Bytes)
    requires DecodePlainValue(num, wt, s).Some?
    ensures DecodePlainValue(num, wt, s + rest) == DecodePlainValue(num, wt, s)
  {
    if wt == 0 {
      VarintAtPrefix(s, rest, 0, MAX_VARINT_BYTES);
    } else if wt == 2 {
      VarintAtPrefix(s, rest, 0, MAX_VARINT_BYTES);
      var (len, m) := DecodeVarint(s).value;
      assert (s + rest)[m..m + len] == s[m..m + len];
    } else if wt == 1 {
      assert (s + rest)[..8] == s[..8];
    } else {
      assert (s + rest)[..4] == s[..4];
    }
  }

  /** What follows a value does not change how it reads, groups included. */
  lemma {:induction false} DecodeValuePrefix(num: nat, wt: nat, s: Bytes, rest: Bytes, depth: int)
    requires DecodeValue(num, wt, s, depth).Some?
    ensures DecodeValue(num, wt, s + rest, depth) == DecodeValue(num, wt, s, depth)
    decreases |s|, 1
  {
    if wt != 3 {
      DecodePlainValuePrefix(num, wt, s, rest);
    } else {
      GroupBodyPrefix(num, s, rest, depth);
      var m := GroupBody(num, s, depth).value;
      assert (s + rest)[..m] == s[..m];
    }
  }

  lemma {:induction false} ConsumeTagPrefix(s: Bytes, rest: Bytes)
    requires ConsumeTag(s).Some?
    ensures ConsumeTag(s + rest) == ConsumeTag(s)
  {
    VarintAtPrefix(s, rest, 0, MAX_VARINT_BYTES);
  }

  /** One record of a group other than its end tag, then the rest. */
  lemma {:induction false} GroupBodyStep(num: nat, s: Bytes, depth: int, num2: nat, wt2: nat, n: nat, f: WireField, m: nat)
    requires ConsumeTag(s) == Some((num2, wt2, n)) && wt2 != 4
    requires DecodeValue(num2, wt2, s[n..], depth - 1) == Some((f, m))
    ensures n + m <= |s|
    ensures GroupBody(num, s, depth) == After(n + m, GroupBody(num, s[n + m..], depth))
  {
  }

  lemma {:induction false} GroupBodyPrefix(num: nat, s: Bytes, rest: Bytes, depth: int)
    requires GroupBody(num, s, depth).Some?
    ensures GroupBody(num, s + rest, depth) == GroupBody(num, s, depth)
    decreases |s|, 0
  {
    ConsumeTagPrefix(s, rest);
    var (num2, wt2, n) := ConsumeTag(s).value;
    if wt2 != 4 {
      var (f, m) := DecodeValue(num2, wt2, s[n..], depth - 1).value;
      GroupBodyStep(num, s, depth, num2, wt2, n, f, m);
      DropOfConcat(s, rest, n);
      DecodeValuePrefix(num2, wt2, s[n..], rest, depth - 1);
      DropOfConcat(s, rest, n + m);
      GroupBodyPrefix(num, s[n + m..], rest, depth);
      GroupBodyStep(num, s + rest, depth, num2, wt2, n, f, m);
    }
  }

  /** A group record reads back, whatever follows it. */
  lemma {:induction false} DecodeGroupOfEncode(num: nat, b: Bytes, rest: Bytes)
    requires GroupBody(num, b, RECURSION_LIMIT) == Some(|b|)
    ensures DecodeValue(num, 3, b + rest, RECURSION_LIMIT) == Some((WireField(num, GroupValue(b)), |b|))
  {
    assert b[..|b|] == b;
    DecodeValuePrefix(num, 3, b, rest, RECURSION_LIMIT);
  }

  lemma {:induction false} DecodeValueOfEncode(f: WireField, rest: Bytes)
    requires WellFormed(f)
    ensures DecodeValue(f.num, WireType(f.value), EncodeValue(f.value) + rest, RECURSION_LIMIT)
         == Some((f, |EncodeValue(f.value)|))
  {
    match f.value
    case VarintValue(x) =>
      DecodeVarintOfEncode(f.num, x, rest);
    case Fixed64Value(b) =>
      SliceOfConcat([], b, rest);
    case LenValue(b) =>
      DecodeLenOfEncode(f.num, b, rest);
    case Fixed32Value(b) =>
      SliceOfConcat([], b, rest);
    case GroupValue(b) =>
      DecodeGroupOfEncode(f.num, b, rest);
  }

  /** The tag of a record splits back into its field number and wire type. */
  lemma {:induction false} TagSplits(num: nat, wt: nat)
    requires num <= MAX_FIELD_NUMBER && wt < 8
    ensures num * 8 + wt < TWO_64
    ensures TagNumber(num * 8 + wt) == num && TagWireType(num * 8 + wt) == wt
    decreases num
  {
    if num > 0 {
      assert num * 8 + wt - 8 == (num - 1) * 8 + wt;
      TagSplits(num - 1, wt);
    }
  }

  lemma {:induction false} DecodeFieldStep(s: Bytes, tag: nat, n: nat, f: WireField, m: nat)
    requires DecodeVarint(s) == Some((tag, n)) && 1 <= TagNumber(tag) <= MAX_FIELD_NUMBER
    requires DecodeValue(TagNumber(tag), TagWireType(tag), s[n..], RECURSION_LIMIT) == Some((f, m))
    ensures DecodeField(s) == Some((f, n + m))
  {
  }

  lemma {:induction false} DecodeFieldOfEncode(f: WireField, rest: Bytes)
    requires WellFormed(f)
    ensures DecodeField(EncodeField(f) + rest) == Some((f, |EncodeField(f)|))
  {
    var tag := f.num * 8 + WireType(f.value);
    TagSplits(f.num, WireType(f.value));
    DecodeValueOfEncode(f, rest);
    DecodeTaggedValue(tag, f, EncodeValue(f.value), rest);
  }

  /** A tag followed by a value that reads back as `f` reads back as one
      record. */
  lemma {:induction false} DecodeTaggedValue(tag: nat, f: WireField, value: Bytes, rest: Bytes)
    requires tag < TWO_64 && 1 <= TagNumber(tag) <= MAX_FIELD_NUMBER
    requires DecodeValue(TagNumber(tag), TagWireType(tag), value + rest, RECURSION_LIMIT) == Some((f, |value|))
    ensures DecodeField(EncodeVarint(tag) + value + rest) == Some((f, |EncodeVarint(tag)| + |value|))
  {
    TagThenValue(tag, value, rest);
    DecodeFieldStep(EncodeVarint(tag) + value + rest, tag, |EncodeVarint(tag)|, f, |value|);
  }

  /** A tag read before a value and what follows it. */
  lemma {:induction false} TagThenValue(tag: nat, value: Bytes, rest: Bytes)
    requires tag < TWO_64
    ensures DecodeVarint(EncodeVarint(tag) + value + rest) == Some((tag, |EncodeVarint(tag)|))
    ensures (EncodeVarint(tag) + value + rest)[|EncodeVarint(tag)|..] == value + rest
  {
    var tagBytes := EncodeVarint(tag);
    assert tagBytes + value + rest == tagBytes + (value + rest);
    VarintRoundTrip(tag, value + rest);
    SliceOfConcat(tagBytes, value, rest);
  }

  /** Splitting the encoding of well-formed records gives back the records. */
  lemma {:induction false} ParseFieldsOfEncode(fs: seq<WireField>)
    requires forall i | 0 <= i < |fs| :: WellFormed(fs[i])
    ensures ParseFields(EncodeFields(fs)) == Some(fs)
  {
    if fs != [] {
      var s := EncodeFields(fs);
      DecodeFieldOfEncode(fs[0], EncodeFields(fs[1..]));
      assert s[|EncodeField(fs[0])|..] == EncodeFields(fs[1..]);
      ParseFieldsOfEncode(fs[1..]);
      assert [fs[0]] + fs[1..] == fs;
    }
  }

  /** Field 3 sent as an empty group (start tag 0x1B, end tag 0x1C) is one
      record, kept with its end tag. */
  lemma {:induction false} EmptyGroupParses()
    ensures ParseFields([0x1B, 0x1C]) == Some([WireField(3, GroupValue([0x1C]))])
  {
    assert DecodeVarint([0x1B, 0x1C]) == Some((0x1B, 1));
    assert ConsumeTag([0x1C]) == Some((3, 4, 1));
    assert GroupBody(3, [0x1C], RECURSION_LIMIT) == Some(1);
    var s: Bytes := [0x1B, 0x1C];
    assert s[1..] == [0x1C] && s[1..][..1] == [0x1C] && s[2..] == [];
    assert DecodeValue(3, 3, s[1..], RECURSION_LIMIT) == Some((WireField(3, GroupValue([0x1C])), 1));
    assert DecodeField(s) == Some((WireField(3, GroupValue([0x1C])), 2));
    assert ParseFields(s[2..]) == Some([]);
    assert [WireField(3, GroupValue([0x1C]))] + [] == [WireField(3, GroupValue([0x1C]))];
    assert ParseFields(s) == Some([WireField(3, GroupValue([0x1C]))]);
  }

  /** An end tag outside a group, a group closed by the end tag of another
      field, and a group never closed are malformed. */
  lemma {:induction false} BadGroupsRejected()
    ensures ParseFields([0x1C]) == None
    ensures ParseFields([0x1B, 0x24]) == None
    ensures ParseFields([0x1B]) == None
  {
    assert DecodeVarint([0x1C]) == Some((0x1C, 1));
    assert DecodeVarint([0x1B, 0x24]) == Some((0x1B, 1));
    assert ConsumeTag([0x24]) == Some((4, 4, 1));
    assert DecodeVarint([0x1B]) == Some((0x1B, 1));
    assert ConsumeTag([]) == None;
  }

  lemma {:induction false} EncodeFieldsAppend(a: seq<WireField>, b: seq<WireField>)
    ensures EncodeFields(a + b) == EncodeFields(a) + EncodeFields(b)
  {
    if a != [] {
      assert (a + b)[1..] == a[1..] + b;
      EncodeFieldsAppend(a[1..], b);
    } else {
      assert a + b == b;
    }
  }
}
