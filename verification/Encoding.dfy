/** Order-preserving text: fixed-width numbers, identifiers and stored timestamps. */
module Encoding {
  import opened Common

  // ---- digits -------------------------------------------------------------------------

  const CROCKFORD := "0123456789ABCDEFGHJKMNPQRSTVWXYZ"

  /** The i-th Crockford digit; the first ten are the decimal digits. */
  function Digit(i: nat): char
    requires i < 32
  {
    if i < 10 then '0' + i as char
    else if i < 18 then 'A' + (i - 10) as char
    else if i < 20 then 'J' + (i - 18) as char
    else if i < 22 then 'M' + (i - 20) as char
    else if i < 27 then 'P' + (i - 22) as char
    else 'V' + (i - 27) as char
  }

  lemma DigitIsCrockford(i: nat)
    requires i < 32
    ensures CROCKFORD[i] == Digit(i)
  {
  }

  lemma DigitsAscend(i: nat, j: nat)
    requires i < 32 && j < 32
    ensures Digit(i) < Digit(j) <==> i < j
  {
  }

  // ---- fixed-width numbers ------------------------------------------------------------

  /** The low `length` digits of v, most significant first. */
  function Encode(v: nat, length: nat, base: nat): (r: string)
    requires 2 <= base <= 32
    ensures |r| == length
  {
    if length == 0 then "" else Encode(v / base, length - 1, base) + [Digit(v % base)]
  }

  /** encodeUint fills its buffer from the right while shifting v by five bits. */
  method EncodeUint(v0: nat, length: nat) returns (s: string)
    ensures s == Encode(v0, length, 32)
  {
    var out := new char[length];
    var v := v0;
    var i := length;
    assert Encode(v, i, 32) + out[i..] == Encode(v0, length, 32);
    while i > 0
      invariant 0 <= i <= length
      invariant Encode(v, i, 32) + out[i..] == Encode(v0, length, 32)
    {
      i := i - 1;
      DigitIsCrockford(v % 32);
      ghost var tail := out[i + 1..];
      out[i] := CROCKFORD[v % 32];
      assert out[i..] == [Digit(v % 32)] + tail;
      assert Encode(v, i + 1, 32) == Encode(v / 32, i, 32) + [Digit(v % 32)];
      v := v / 32;
    }
    return out[..];
  }

  function Power(base: nat, n: nat): nat {
    if n == 0 then 1 else base * Power(base, n - 1)
  }

  function Value(c: char): nat {
    if '0' <= c <= '9' then c as int - '0' as int
    else if 'A' <= c <= 'H' then c as int - 'A' as int + 10
    else if 'J' <= c <= 'K' then c as int - 'J' as int + 18
    else if 'M' <= c <= 'N' then c as int - 'M' as int + 20
    else if 'P' <= c <= 'T' then c as int - 'P' as int + 22
    else if 'V' <= c <= 'Z' then c as int - 'V' as int + 27
    else 0
  }

  function Decode(s: string, base: nat): nat {
    if s == "" then 0 else Decode(s[..|s| - 1], base) * base + Value(s[|s| - 1])
  }

  lemma ValueOfDigit(i: nat)
    requires i < 32
    ensures Value(Digit(i)) == i
  {
  }

  lemma MulLe(x: nat, y: nat, b: nat)
    requires x <= y
    ensures x * b <= y * b
  {
  }

  lemma Parts(v: nat, base: nat) returns (p: nat, d: nat)
    requires base > 0
    ensures p == v / base && d == v % base && d < base && v == p * base + d
  {
    p, d := v / base, v % base;
  }

  lemma HigherPartWins(p: nat, d: nat, q: nat, e: nat, base: nat)
    requires p < q && d < base
    ensures p * base + d < q * base + e
  {
    MulLe(p + 1, q, base);
    assert (p + 1) * base == p * base + base;
  }

  lemma DivBound(v: nat, base: nat, m: nat)
    requires base > 0 && v < base * m
    ensures v / base < m
  {
  }

  lemma DivOrder(v: nat, w: nat, base: nat)
    requires base > 0
    ensures v < w <==> v / base < w / base || (v / base == w / base && v % base < w % base)
    ensures v == w <==> v / base == w / base && v % base == w % base
  {
    var p, d := Parts(v, base);
    var q, e := Parts(w, base);
    if p < q {
      HigherPartWins(p, d, q, e, base);
    } else if q < p {
      HigherPartWins(q, e, p, d, base);
    }
  }

  /** Below base^length nothing is dropped, so decoding gives the number back. */
  lemma {:induction false} EncodeInverts(v: nat, length: nat, base: nat)
    requires 2 <= base <= 32 && v < Power(base, length)
    ensures Decode(Encode(v, length, base), base) == v
    decreases length
  {
    if length > 0 {
      DivBound(v, base, Power(base, length - 1));
      var p, d := Parts(v, base);
      EncodeInverts(p, length - 1, base);
      ValueOfDigit(d);
      hide Power, Digit, Value;
      var s := Encode(v, length, base);
      assert s == Encode(p, length - 1, base) + [Digit(d)];
      assert s[..|s| - 1] == Encode(p, length - 1, base);
    }
  }

  /** Appending equally long tails to equally long heads compares the heads first. */
  lemma {:induction false} StringLessConcat(a: string, b: string, x: string, y: string)
    requires |a| == |b|
    ensures StringLess(a + x, b + y) <==> StringLess(a, b) || (a == b && StringLess(x, y))
  {
    if a == "" {
      assert a + x == x && b + y == y;
    } else {
      StringLessConcat(a[1..], b[1..], x, y);
      assert (a + x)[1..] == a[1..] + x && (b + y)[1..] == b[1..] + y;
    }
  }

  /** String order is number order for every width that holds both numbers. */
  lemma {:induction false} EncodeAscends(v: nat, w: nat, length: nat, base: nat)
    requires 2 <= base <= 32 && v < Power(base, length) && w < Power(base, length)
    ensures StringLess(Encode(v, length, base), Encode(w, length, base)) <==> v < w
    ensures Encode(v, length, base) == Encode(w, length, base) <==> v == w
    decreases length
  {
    if length > 0 {
      DivBound(v, base, Power(base, length - 1));
      DivBound(w, base, Power(base, length - 1));
      var p, d := Parts(v, base);
      var q, e := Parts(w, base);
      EncodeAscends(p, q, length - 1, base);
      DivOrder(v, w, base);
      assert Encode(v, length, base) == Encode(p, length - 1, base) + [Digit(d)];
      assert Encode(w, length, base) == Encode(q, length - 1, base) + [Digit(e)];
      hide StringLess, Digit, Power, Encode;
      LastDigit(Encode(p, length - 1, base), Encode(q, length - 1, base), d, e);
    }
  }

  lemma LastDigit(a: string, b: string, i: nat, j: nat)
    requires |a| == |b| && i < 32 && j < 32
    ensures StringLess(a + [Digit(i)], b + [Digit(j)]) <==> StringLess(a, b) || (a == b && i < j)
    ensures a + [Digit(i)] == b + [Digit(j)] <==> a == b && i == j
  {
    var x, y := [Digit(i)], [Digit(j)];
    DigitsAscend(i, j);
    DigitsAscend(j, i);
    StringLessConcat(a, b, x, y);
    assert x[1..] == "" && y[1..] == "";
    assert (a + x)[..|a|] == a && (b + y)[..|b|] == b;
    assert (a + x)[|a|] == x[0] && (b + y)[|b|] == y[0];
  }

  // ---- identifiers --------------------------------------------------------------------

  type Byte = x: int | 0 <= x < 256

  function BigEndian(b: seq<Byte>): nat {
    if b == [] then 0 else BigEndian(b[..|b| - 1]) * 256 + b[|b| - 1]
  }

  /** The counter after adding one: the trailing 255s roll over to 0. */
  function Incremented(b: seq<Byte>): (r: seq<Byte>)
    ensures |r| == |b|
  {
    if b == [] then []
    else
      var n := |b| - 1;
      if b[n] == 255 then Incremented(b[..n]) + [0] else b[..n] + [b[n] + 1]
  }

  /** Incrementing adds one modulo 256^n. */
  lemma {:induction false} IncrementedAddsOne(b: seq<Byte>)
    ensures BigEndian(Incremented(b)) == (if BigEndian(b) + 1 == Power(256, |b|) then 0 else BigEndian(b) + 1)
    ensures BigEndian(b) < Power(256, |b|)
  {
    if b != [] {
      var n := |b| - 1;
      IncrementedAddsOne(b[..n]);
      assert Incremented(b)[..n] == if b[n] == 255 then Incremented(b[..n]) else b[..n];
    }
  }

  /** The two package variables behind NewID. */
  class IdState {
    var lastMillis: int
    var lastRandom: array<Byte>

    constructor ()
      ensures fresh(lastRandom) && lastRandom.Length == 9
    {
      lastMillis := 0;
      lastRandom := new Byte[9](i => 0);
    }

    /** incr: from the last byte up, until one does not wrap to zero. */
    method Incr()
      modifies lastRandom
      ensures lastRandom[..] == Incremented(old(lastRandom[..]))
    {
      ghost var was := lastRandom[..];
      var n := lastRandom.Length;
      var i := n;
      assert was[..n] == was && lastRandom[n..] == [];
      while i > 0
        invariant 0 <= i <= n && lastRandom[..i] == was[..i]
        invariant Incremented(was) == Incremented(was[..i]) + lastRandom[i..]
      {
        i := i - 1;
        ghost var tail := lastRandom[i + 1..];
        assert was[..i + 1][..i] == was[..i];
        var bumped: int := lastRandom[i] as int + 1;
        lastRandom[i] := bumped % 256;
        assert lastRandom[i..] == [lastRandom[i]] + tail;
        if lastRandom[i] != 0 {
          assert lastRandom[..] == was[..i] + [lastRandom[i]] + tail;
          return;
        }
      }
      assert lastRandom[..] == lastRandom[0..];
    }

    /** encodeTime bumps or redraws the random part, yet returns the time digits alone. */
    method EncodeTime(millis: nat, drawn: seq<Byte>) returns (s: string)
      requires lastRandom.Length == 9 && |drawn| == 9
      modifies this`lastMillis, lastRandom
      ensures s == Encode(millis, 10, 32) && lastMillis == millis
      ensures lastRandom[..] == if millis == old(lastMillis) then Incremented(old(lastRandom[..])) else drawn
    {
      if millis == lastMillis {
        Incr();
      } else {
        lastMillis := millis;
        forall i | 0 <= i < 9 {
          lastRandom[i] := drawn[i];
        }
        assert lastRandom[..] == drawn;
      }
      s := EncodeUint(millis, 10);
    }
  }

  function NewID(prefix: string, millis: nat, random: string): string {
    prefix + "_" + Encode(millis, 10, 32) + random
  }

  /** The prefix and "_", ten digits of the millisecond, then the random text. */
  lemma IdLayout(prefix: string, millis: nat, random: string)
    requires millis < Power(32, 10)
    ensures var id, p := NewID(prefix, millis, random), |prefix|;
            && |id| == p + 11 + |random|
            && id[..p + 1] == prefix + "_" && id[p + 11..] == random
            && Decode(id[p + 1..p + 11], 32) == millis
  {
    EncodeInverts(millis, 10, 32);
    hide Encode, Power, Decode;
    var id, p, digits := NewID(prefix, millis, random), |prefix|, Encode(millis, 10, 32);
    assert id == (prefix + "_") + digits + random;
    assert id[p + 1..p + 11] == digits;
  }

  /** Identifiers of one prefix sort by millisecond, and within one by their random text, so
      the documented order inside a millisecond holds exactly as far as the draws ascend. */
  lemma IdsSortByTime(prefix: string, t1: nat, r1: string, t2: nat, r2: string)
    requires t1 < Power(32, 10) && t2 < Power(32, 10) && |r1| == |r2|
    ensures StringLess(NewID(prefix, t1, r1), NewID(prefix, t2, r2)) <==> t1 < t2 || (t1 == t2 && StringLess(r1, r2))
  {
    var head := prefix + "_";
    var e1, e2 := Encode(t1, 10, 32), Encode(t2, 10, 32);
    hide Power, Encode;
    assert NewID(prefix, t1, r1) == head + (e1 + r1) && NewID(prefix, t2, r2) == head + (e2 + r2);
    StringLessIrreflexive(head);
    EncodeAscends(t1, t2, 10, 32);
    hide StringLess;
    StringLessConcat(head, head, e1 + r1, e2 + r2);
    StringLessConcat(e1, e2, r1, r2);
  }

  /** Of two identifiers made in one millisecond the later may sort first, whatever the
      bumped counter holds. */
  lemma SameMillisecondMayDescend(t: nat)
    requires t < Power(32, 10)
    ensures var first, second := NewID("evt", t, "BAAAAAAAAAAA"), NewID("evt", t, "AAAAAAAAAAAA");
            StringLess(second, first)
  {
    IdsSortByTime("evt", t, "AAAAAAAAAAAA", t, "BAAAAAAAAAAA");
  }
}
