/** The two ways the services name a (machine id, track source) pair:
    MQTT topics `prefix/id/trackSource` and the session-map key
    `id` followed by the decimal track source. */
module Topics {
  import opened ByteStrings

  /** `prefix + "/" + id + "/" + strconv.Itoa(int(trackSource))`. */
  function Topic(prefix: Bytes, id: Bytes, trackSource: int): (r: Bytes)
    ensures |r| == |prefix| + |id| + 2 + |Decimal(trackSource)|
    ensures r[..|prefix|] == prefix && r[|prefix|] == SLASH
    ensures r[|prefix| + 1..|prefix| + 1 + |id|] == id && r[|prefix| + 1 + |id|] == SLASH
    ensures r[|prefix| + 2 + |id|..] == Decimal(trackSource)
  {
    prefix + [SLASH] + id + [SLASH] + Decimal(trackSource)
  }

  /** `meta.Id + strconv.Itoa(int(meta.TrackSource))`. */
  function SessionKey(id: Bytes, trackSource: int): (r: Bytes)
    ensures |r| == |id| + |Decimal(trackSource)|
    ensures r[..|id|] == id && r[|id|..] == Decimal(trackSource)
  {
    id + Decimal(trackSource)
  }

  /** A track source with a single decimal digit, as every declared
      TrackSource value is. */
  predicate SingleDigit(t: int) { 0 <= t <= 9 }

  lemma {:induction false} SingleDigitDecimal(t: int)
    requires SingleDigit(t)
    ensures Decimal(t) == [(0x30 + t) as byte]
  {
  }

  /** No decimal rendering holds a '/'. */
  lemma {:induction false} DecimalHasNoSlash(t: int)
    ensures forall i | 0 <= i < |Decimal(t)| :: Decimal(t)[i] != SLASH
  {
    if t < 0 {
      var d := Decimal(t);
      forall i | 0 <= i < |d|
        ensures d[i] != SLASH
      {
        if i > 0 {
          assert d[i] == Digits(-t)[i - 1];
        }
      }
    }
  }

  /** Under one prefix, a topic names exactly one (id, track source) pair:
      the last '/' ends the id, since the decimal holds none. */
  lemma {:induction false} TopicInjective(prefix: Bytes, id1: Bytes, t1: int, id2: Bytes, t2: int)
    requires Topic(prefix, id1, t1) == Topic(prefix, id2, t2)
    ensures id1 == id2 && t1 == t2
  {
    var r := Topic(prefix, id1, t1);
    var q1 := |prefix| + 1 + |id1|;
    var q2 := |prefix| + 1 + |id2|;
    if q1 < q2 {
      // the '/' after id2 would lie inside the decimal of t1
      assert r[q1 + 1..][q2 - q1 - 1] == r[q2];
      DecimalHasNoSlash(t1);
      assert false;
    } else if q2 < q1 {
      assert r[q2 + 1..][q1 - q2 - 1] == r[q1];
      DecimalHasNoSlash(t2);
      assert false;
    }
    assert id1 == r[|prefix| + 1..q1] == id2;
    DecimalInjective(t1, t2);
  }

  /** With single-digit track sources the key determines the pair. */
  lemma {:induction false} SessionKeyInjective(id1: Bytes, t1: int, id2: Bytes, t2: int)
    requires SingleDigit(t1) && SingleDigit(t2)
    requires SessionKey(id1, t1) == SessionKey(id2, t2)
    ensures id1 == id2 && t1 == t2
  {
    SingleDigitDecimal(t1);
    SingleDigitDecimal(t2);
    var k := SessionKey(id1, t1);
    assert |id1| == |k| - 1 == |id2|;
    assert k[|k| - 1] == (0x30 + t1) as byte == (0x30 + t2) as byte;
  }

  /** Beyond one digit the key is ambiguous: ("a", 10) and ("a1", 0)
      share the key "a10". */
  lemma {:induction false} SessionKeyCollision()
    ensures SessionKey([0x61], 10) == SessionKey([0x61, 0x31], 0)
  {
    assert Decimal(10) == [0x31, 0x30];
  }
}
