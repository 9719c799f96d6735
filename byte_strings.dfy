/** Byte strings as Go sees them: a Go `string` and a `[]byte` are both a
    sequence of bytes. This module holds the byte type, ASCII literals,
    the decimal rendering of `strconv.Itoa`, big-endian reads and the
    fixed-width integer wrap-around the Go sources rely on. */
module ByteStrings {
  import opened Wrappers

  newtype byte = x: int | 0 <= x < 256

  type Bytes = seq<byte>

  const TWO_32: int := 0x1_0000_0000
  const TWO_64: int := 0x1_0000_0000_0000_0000

  /** Every character of `s` fits in one byte. */
  predicate IsAscii(s: string) {
    forall i | 0 <= i < |s| :: s[i] as int < 256
  }

  /** The bytes of an ASCII (Latin-1) string literal. */
  function Lit(s: string): (r: Bytes)
    requires IsAscii(s)
    ensures |r| == |s|
    ensures forall i | 0 <= i < |s| :: r[i] as int == s[i] as int
  {
    if s == [] then [] else [s[0] as int as byte] + Lit(s[1..])
  }

  const SPACE: byte := 0x20
  const NEWLINE: byte := 0x0A
  const SLASH: byte := 0x2F
  const COLON: byte := 0x3A
  const MINUS: byte := 0x2D
  const PLUS: byte := 0x2B

  predicate IsDigit(b: byte) { 0x30 <= b <= 0x39 }

  /** The decimal digits of a natural number, most significant first. */
  function Digits(n: nat): (r: Bytes)
    ensures |r| >= 1
    ensures forall i | 0 <= i < |r| :: IsDigit(r[i])
    ensures n < 10 <==> |r| == 1
    decreases n
  {
    if n < 10 then [(0x30 + n) as byte] else Digits(n / 10) + [(0x30 + n % 10) as byte]
  }

  /** `strconv.Itoa`: a leading '-' for negative numbers, then the digits. */
  function Decimal(n: int): (r: Bytes)
    ensures |r| >= 1
    ensures n >= 0 ==> forall i | 0 <= i < |r| :: IsDigit(r[i])
    ensures n < 0 ==> r[0] == MINUS
  {
    if n < 0 then [MINUS] + Digits(-n) else Digits(n)
  }

  /** The number the decimal digits denote. */
  function ValueOfDigits(s: Bytes): nat
    requires forall i | 0 <= i < |s| :: IsDigit(s[i])
  {
    if s == [] then 0
    else
      assert IsDigit(s[|s| - 1]);
      ValueOfDigits(s[..|s| - 1]) * 10 + (s[|s| - 1] as int - 0x30)
  }

  lemma {:induction false} DigitsValue(n: nat)
    ensures ValueOfDigits(Digits(n)) == n
    decreases n
  {
    if n >= 10 {
      DigitsValue(n / 10);
      var d := Digits(n / 10) + [(0x30 + n % 10) as byte];
      assert d[..|d| - 1] == Digits(n / 10);
    }
  }

  /** The decimal rendering is injective: equal renderings, equal numbers. */
  lemma {:induction false} DecimalInjective(a: int, b: int)
    requires Decimal(a) == Decimal(b)
    ensures a == b
  {
    if a < 0 && b < 0 {
      calc {
        -a;
        { DigitsValue(-a); }
        ValueOfDigits(Digits(-a));
        { assert Digits(-a) == Decimal(a)[1..]; assert Digits(-b) == Decimal(b)[1..]; }
        ValueOfDigits(Digits(-b));
        { DigitsValue(-b); }
        -b;
      }
    } else if a >= 0 && b >= 0 {
      DigitsValue(a);
      DigitsValue(b);
    }
  }

  predicate AllDigits(s: Bytes) {
    forall i | 0 <= i < |s| :: IsDigit(s[i])
  }

  /** `strconv.Atoi` on a 64-bit target: an optional '+' or '-', then one
      or more decimal digits (leading zeros allowed, no '_'), whose value
      must fit an `int64`; anything else is an error (None). */
  function Atoi(s: Bytes): (r: Option<int>)
    ensures r.Some? ==> IsInt64(r.value)
  {
    if s == [] then None
    else
      var body := if s[0] == MINUS || s[0] == PLUS then s[1..] else s;
      if body == [] || !AllDigits(body) then None
      else
        var v: int := if s[0] == MINUS then 0 - ValueOfDigits(body) else ValueOfDigits(body);
        if IsInt64(v) then Some(v) else None
  }

  /** `strconv.Atoi` reads back what `strconv.Itoa` writes. */
  lemma {:induction false} AtoiDecimal(n: int)
    requires IsInt64(n)
    ensures Atoi(Decimal(n)) == Some(n)
  {
    var s := Decimal(n);
    if n < 0 {
      DigitsValue(-n);
      assert s[1..] == Digits(-n);
      assert AllDigits(s[1..]);
    } else {
      DigitsValue(n);
      assert s[0] != MINUS && s[0] != PLUS by { assert IsDigit(s[0]); }
      assert AllDigits(s);
    }
  }

  /** A text with a byte that is neither a sign nor a digit is not a number. */
  lemma {:induction false} AtoiRejectsNonDigit(s: Bytes, i: nat)
    requires i < |s| && !IsDigit(s[i]) && s[i] != MINUS && s[i] != PLUS
    ensures Atoi(s) == None
  {
    if s[0] == MINUS || s[0] == PLUS {
      assert s[1..][i - 1] == s[i];
    }
  }

  /** `binary.BigEndian.Uint16(s[off:off+2])`. */
  function BigEndian16(s: Bytes, off: nat): (r: nat)
    requires off + 2 <= |s|
    ensures r < 0x1_0000
  {
    s[off] as int * 0x100 + s[off + 1] as int
  }

  /** `binary.BigEndian.Uint32(s[off:off+4])`. */
  function BigEndian32(s: Bytes, off: nat): (r: nat)
    requires off + 4 <= |s|
    ensures r < TWO_32
  {
    ((s[off] as int * 0x100 + s[off + 1] as int) * 0x100 + s[off + 2] as int) * 0x100 + s[off + 3] as int
  }

  /** The two big-endian bytes of the low 16 bits of `n`. */
  function BigEndianBytes16(n: nat): (r: Bytes)
    ensures |r| == 2
  {
    [(n / 0x100 % 0x100) as byte, (n % 0x100) as byte]
  }

  /** The two bytes of `n` read back as `n`. */
  lemma {:induction false} BigEndian16OfBytes(n: nat, s: Bytes, off: nat)
    requires n < 0x1_0000
    requires off + 2 <= |s| && BigEndianBytes16(n) == [s[off], s[off + 1]]
    ensures BigEndian16(s, off) == n
  {
    var hi := n / 0x100;
    assert n == hi * 0x100 + n % 0x100;
    assert hi < 0x100;
    assert s[off] as int == hi % 0x100 == hi;
  }

  /** The four big-endian bytes of the low 32 bits of `n`. */
  function BigEndianBytes32(n: nat): (r: Bytes)
    ensures |r| == 4
  {
    [(n / 0x100_0000 % 0x100) as byte, (n / 0x1_0000 % 0x100) as byte, (n / 0x100 % 0x100) as byte, (n % 0x100) as byte]
  }

  /** The four bytes of `n` read back as `n`. */
  lemma {:induction false} BigEndian32OfBytes(n: nat, s: Bytes, off: nat)
    requires n < TWO_32
    requires off + 4 <= |s| && BigEndianBytes32(n) == [s[off], s[off + 1], s[off + 2], s[off + 3]]
    ensures BigEndian32(s, off) == n
  {
    var q1 := n / 0x100;
    var q2 := q1 / 0x100;
    var q3 := q2 / 0x100;
    assert n == q1 * 0x100 + n % 0x100;
    assert q1 == q2 * 0x100 + q1 % 0x100;
    assert q2 == q3 * 0x100 + q2 % 0x100;
    assert n / 0x1_0000 == q2 && n / 0x100_0000 == q3 < 0x100;
    assert s[off] as int == q3 && s[off + 1] as int == q2 % 0x100 && s[off + 2] as int == q1 % 0x100;
    assert s[off + 3] as int == n % 0x100;
  }

  /** A Go `int32` value. */
  predicate IsInt32(x: int) { -0x8000_0000 <= x < 0x8000_0000 }

  /** A Go `int64` value (also `int` and `time.Duration` on a 64-bit target). */
  predicate IsInt64(x: int) { -0x8000_0000_0000_0000 <= x < 0x8000_0000_0000_0000 }

  /** Go's conversion to `int32`: keep the low 32 bits, two's complement. */
  function WrapInt32(x: int): (r: int)
    ensures IsInt32(r)
    ensures (r - x) % TWO_32 == 0
    ensures IsInt32(x) ==> r == x
  {
    var low := x % TWO_32;
    if low < 0x8000_0000 then low else low - TWO_32
  }

  /** Go's `int64` arithmetic result: keep the low 64 bits, two's complement. */
  function WrapInt64(x: int): (r: int)
    ensures IsInt64(r)
    ensures (r - x) % TWO_64 == 0
    ensures IsInt64(x) ==> r == x
  {
    var low := x % TWO_64;
    if low < 0x8000_0000_0000_0000 then low else low - TWO_64
  }

  /** Arguments equal modulo 2^64 wrap to the same `int64`. */
  lemma {:induction false} WrapInt64Congruent(a: int, b: int)
    requires (a - b) % TWO_64 == 0
    ensures WrapInt64(a) == WrapInt64(b)
  {
    assert a % TWO_64 == b % TWO_64;
  }

  /** A `uint32` increment: wraps to 0 past 0xFFFF_FFFF. */
  function IncUint32(x: nat): (r: nat)
    requires x < TWO_32
    ensures r < TWO_32
    ensures x + 1 < TWO_32 ==> r == x + 1
    ensures x + 1 == TWO_32 ==> r == 0
  {
    (x + 1) % TWO_32
  }

  /** Concatenation of a sequence of byte strings. */
  function Flatten(parts: seq<Bytes>): Bytes {
    if parts == [] then [] else parts[0] + Flatten(parts[1..])
  }

  lemma {:induction false} FlattenAppend(parts: seq<Bytes>, last: Bytes)
    ensures Flatten(parts + [last]) == Flatten(parts) + last
  {
    if parts != [] {
      assert (parts + [last])[1..] == parts[1..] + [last];
      FlattenAppend(parts[1..], last);
    } else {
      assert parts + [last] == [last];
    }
  }

  /** The middle piece of a concatenation is the slice between the ends of
      the other two. */
  lemma {:induction false} SliceOfConcat(p: Bytes, b: Bytes, r: Bytes)
    ensures (p + b + r)[|p|..|p| + |b|] == b
    ensures (p + b + r)[|p|..] == b + r
    ensures (b + r)[..|b|] == b
  {
  }

  /** Dropping a prefix of `s` and then appending is appending first. */
  lemma {:induction false} DropOfConcat(s: Bytes, rest: Bytes, i: nat)
    requires i <= |s|
    ensures (s + rest)[i..] == s[i..] + rest
  {
  }
}
