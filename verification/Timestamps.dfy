/** The 8-byte time prefix of entry IDs. */
module Timestamps {
  import opened ByteStrings
  import opened Keys

  type Nanos = x: int | 0 <= x < 1_000_000_000

  /** Unsigned 16 and 32-bit arithmetic. */
  function Uint16(x: nat): nat { x % 0x1_0000 }

  function Uint32(x: nat): nat { x % 0x1_0000_0000 }

  /** The fraction of the second in 1/65536 steps, by a multiplication and two shifts. */
  function Fraction(ns: Nanos): (f: nat)
    ensures f < 0x1_0000
  {
    Uint16(Uint32(2199 * (Uint32(ns) / 0x400)) / 0x8000)
  }

  /** Seconds above the fraction in one int64. The shifted seconds leave the low 16 bits free, so
      joining the two with `|` is an addition. */
  function Timestamp(seconds: Seconds, ns: Nanos): int {
    Int64(seconds * 0x1_0000) + Fraction(ns)
  }

  /** Nothing overflows on the way: the fraction is the product shifted, it stays below 65536
      without being cut, and it is off by less than two steps. */
  lemma FractionIsClose(ns: Nanos)
    ensures 2199 * (ns / 0x400) < 0x1_0000_0000
    ensures 2199 * (ns / 0x400) / 0x8000 < 0x1_0000
    ensures Fraction(ns) == 2199 * (ns / 0x400) / 0x8000
    ensures -2_000_000_000 < Fraction(ns) * 1_000_000_000 - ns * 0x1_0000 <= 0
  {
    var q := ns / 0x400;
    assert 0x400 * q <= ns < 0x400 * q + 0x400;
    assert q <= 976562;
    var p := 2199 * q;
    assert p < 0x1_0000_0000 && Uint32(p) == p && Uint32(ns) == ns;
    var f := p / 0x8000;
    assert 0x8000 * f <= p < 0x8000 * f + 0x8000;
    assert f < 0x1_0000 && Uint16(f) == f;
    hide Uint32, Uint16;
  }

  /** The fraction follows the clock within a second, and readings 16384 nanoseconds apart differ. */
  lemma {:induction false} FractionOrder(a: Nanos, b: Nanos)
    requires a <= b
    ensures Fraction(a) <= Fraction(b)
    ensures a + 0x4000 <= b ==> Fraction(a) < Fraction(b)
  {
    FractionIsClose(a);
    FractionIsClose(b);
    var p, q := a / 0x400, b / 0x400;
    assert p <= q;
    assert 2199 * p <= 2199 * q;
  }

  lemma TimestampExact(s: Seconds, ns: Nanos)
    requires 0 <= s < 0x8000_0000_0000
    ensures Timestamp(s, ns) == s * 0x1_0000 + Fraction(ns)
    ensures 0 <= Timestamp(s, ns) < 0x8000_0000_0000_0000
  {
  }

  /** Writes the time prefix byte by byte and the random rest after it. */
  method NewEntryID(seconds: Seconds, ns: Nanos, random: Bytes) returns (id: array<Byte>)
    requires |random| == 22
    ensures fresh(id) && id[..] == BigEndian(8, Timestamp(seconds, ns)) + random
  {
    id := new Byte[ID_SIZE](_ => 0);
    var t := Timestamp(seconds, ns);
    id[0] := (t / 0x100_0000_0000_0000) % 256;
    id[1] := (t / 0x1_0000_0000_0000) % 256;
    id[2] := (t / 0x100_0000_0000) % 256;
    id[3] := (t / 0x1_0000_0000) % 256;
    id[4] := (t / 0x100_0000) % 256;
    id[5] := (t / 0x1_0000) % 256;
    id[6] := (t / 0x100) % 256;
    id[7] := t % 256;
    EightBytes(t);
    assert id[..8] == BigEndian(8, t);
    CopyInto(id, 8, random);
    assert random[..22] == random;
  }

  lemma EightBytes(v: int)
    ensures BigEndian(8, v) ==
            [(v / 0x100_0000_0000_0000) % 256, (v / 0x1_0000_0000_0000) % 256, (v / 0x100_0000_0000) % 256,
             (v / 0x1_0000_0000) % 256, (v / 0x100_0000) % 256, (v / 0x1_0000) % 256, (v / 0x100) % 256, v % 256]
  {
    var v1, v2, v3, v4 := v / 0x100, v / 0x1_0000, v / 0x100_0000, v / 0x1_0000_0000;
    var v5, v6, v7 := v / 0x100_0000_0000, v / 0x1_0000_0000_0000, v / 0x100_0000_0000_0000;
    assert v1 / 256 == v2 && v2 / 256 == v3 && v3 / 256 == v4 && v4 / 256 == v5 && v5 / 256 == v6 && v6 / 256 == v7;
    assert BigEndian(0, v7 / 256) == [];
    assert BigEndian(1, v7) == [v7 % 256];
    assert BigEndian(2, v6) == BigEndian(1, v7) + [v6 % 256];
    assert BigEndian(3, v5) == BigEndian(2, v6) + [v5 % 256];
    assert BigEndian(4, v4) == BigEndian(3, v5) + [v4 % 256];
    assert BigEndian(5, v3) == BigEndian(4, v4) + [v3 % 256];
    assert BigEndian(6, v2) == BigEndian(5, v3) + [v2 % 256];
    assert BigEndian(7, v1) == BigEndian(6, v2) + [v1 % 256];
    assert BigEndian(8, v) == BigEndian(7, v1) + [v % 256];
  }

  lemma Pow256Eight()
    ensures Pow256(8) == 0x1_0000_0000_0000_0000
  {
    Pow256Six();
    assert Pow256(7) == 256 * Pow256(6) && Pow256(8) == 256 * Pow256(7);
  }

  /** Entry IDs sort by their time prefix, whatever follows it; an ID from a later second, or
      from at least 16384 nanoseconds later in the same second, is the greater one. */
  lemma {:induction false} IDsSortByTime(s: Seconds, a: Nanos, t: Seconds, b: Nanos, x: Bytes, y: Bytes)
    requires 0 <= s < 0x8000_0000_0000 && 0 <= t < 0x8000_0000_0000
    ensures var p, q := BigEndian(8, Timestamp(s, a)), BigEndian(8, Timestamp(t, b));
            && (Less(p, q) <==> Timestamp(s, a) < Timestamp(t, b))
            && (s < t || (s == t && a + 0x4000 <= b) ==> Less(p + x, q + y))
            && (Less(p, q) ==> s < t || (s == t && a < b))
  {
    TimestampExact(s, a);
    TimestampExact(t, b);
    Pow256Eight();
    BigEndianOrder(8, Timestamp(s, a), Timestamp(t, b));
    HeadDecides(BigEndian(8, Timestamp(s, a)), BigEndian(8, Timestamp(t, b)), x, y);
    if a <= b {
      FractionOrder(a, b);
    } else {
      FractionOrder(b, a);
    }
  }
}
