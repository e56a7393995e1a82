/** The 31-based string hash that spreads the syncs of different connections over
    a period. JavaScript strings are sequences of UTF-16 code units and `|= 0`,
    `<<` work on 32-bit two's complement integers. */
module StringHash {

  const TWO_31: int := 0x8000_0000
  const TWO_32: int := 0x1_0000_0000

  type CodeUnit = x: int | 0 <= x < 65536
  type Utf16 = seq<CodeUnit>

  /** The signed 32-bit integer congruent to x. */
  function Wrap32(x: int): (r: int)
    ensures -TWO_31 <= r < TWO_31
  {
    (x + TWO_31) % TWO_32 - TWO_31
  }

  lemma WrapMultiple(x: int) returns (k: int)
    ensures x - Wrap32(x) == k * TWO_32
  {
    k := (x + TWO_31) / TWO_32;
  }

  function Abs(x: int): nat {
    if x < 0 then -x else x
  }

  function Pow31(n: nat): (p: nat) {
    if n == 0 then 1 else 31 * Pow31(n - 1)
  }

  /** Sum of s[i] * 31^(n-1-i): the hash before any wrapping. */
  function Sum(s: Utf16): int {
    if s == [] then 0 else s[0] * Pow31(|s| - 1) + Sum(s[1..])
  }

  /** The number the schedule offset is taken from. */
  function StringToNumber(s: Utf16, m: int): (r: int)
    requires m > 0
    ensures 0 <= r < m
  {
    Abs(Wrap32(Sum(s))) % m
  }

  lemma WrapCongruent(x: int, y: int, k: int)
    requires x - y == k * TWO_32
    ensures Wrap32(x) == Wrap32(y)
  {
    var a := WrapMultiple(x);
    var b := WrapMultiple(y);
    assert Wrap32(x) - Wrap32(y) == (k - a + b) * TWO_32;
  }

  /** Wrapping early or late makes no difference under the step of the loop. */
  lemma WrapOnce(x: int, p: int, c: int)
    ensures Wrap32(Wrap32(x) * p + c) == Wrap32(x * p + c)
  {
    var k := WrapMultiple(x);
    calc {
      (x * p + c) - (Wrap32(x) * p + c);
      (x - Wrap32(x)) * p;
      k * TWO_32 * p;
      (k * p) * TWO_32;
    }
    WrapCongruent(x * p + c, Wrap32(x) * p + c, k * p);
  }

  /** `(h << 5) - h + c`, with the shift wrapped before the subtraction. */
  lemma ShiftStep(h: int, c: int)
    ensures Wrap32(Wrap32(h * 32) - h + c) == Wrap32(h * 31 + c)
  {
    WrapOnce(h * 32, 1, c - h);
  }

  /** Hashing composes over concatenation. */
  lemma {:induction false} SumConcat(s: Utf16, t: Utf16)
    ensures Sum(s + t) == Sum(s) * Pow31(|t|) + Sum(t)
  {
    if s == [] {
      assert s + t == t;
    } else {
      assert (s + t)[1..] == s[1..] + t;
      SumConcat(s[1..], t);
      PowAdd(|s| - 1, |t|);
      Distribute(s[0], Pow31(|s| - 1), Pow31(|t|), Sum(s[1..]));
    }
  }

  lemma Distribute(c: int, p: int, q: int, rest: int)
    ensures c * (p * q) + rest * q == (c * p + rest) * q
  {
  }

  lemma {:induction false} PowAdd(a: nat, b: nat)
    ensures Pow31(a + b) == Pow31(a) * Pow31(b)
  {
    if a > 0 {
      PowAdd(a - 1, b);
      assert 31 * (Pow31(a - 1) * Pow31(b)) == (31 * Pow31(a - 1)) * Pow31(b);
    }
  }

  lemma HashConcat(s: Utf16, t: Utf16)
    ensures Wrap32(Sum(s + t)) == Wrap32(Wrap32(Sum(s)) * Pow31(|t|) + Sum(t))
  {
    SumConcat(s, t);
    WrapOnce(Sum(s), Pow31(|t|), Sum(t));
  }

  lemma HashStep(s: Utf16, i: nat, hash: int)
    requires i < |s| && hash == Wrap32(Sum(s[..i]))
    ensures Wrap32(Wrap32(hash * 32) - hash + s[i]) == Wrap32(Sum(s[..i + 1]))
  {
    ShiftStep(hash, s[i]);
    assert s[..i + 1] == s[..i] + [s[i]];
    HashConcat(s[..i], [s[i]]);
    OneUnit(s[i]);
    assert Pow31(1) == 31 && Sum([s[i]]) == s[i];
  }

  /** The loop of `stringToNumber`: every intermediate value is a 32-bit integer,
      and the result is the closed form for every string and modulus. */
  method ComputeStringToNumber(s: Utf16, maxNumExclusive: int) returns (r: int)
    requires maxNumExclusive > 0
    ensures r == StringToNumber(s, maxNumExclusive)
  {
    if |s| == 0 {
      return 0;
    }
    var hash := 0;
    for i := 0 to |s|
      invariant hash == Wrap32(Sum(s[..i]))
    {
      HashStep(s, i, hash);
      var chr := s[i];
      hash := Wrap32(hash * 32) - hash + chr;
      hash := Wrap32(hash);
    }
    assert s[..|s|] == s;
    r := Abs(hash) % maxNumExclusive;
  }

  /** Some string hashes to exactly -2^31, whose absolute value is no 32-bit
      integer; the result is still the remainder of 2^31, below m. */
  lemma MinimumHashIsReached(m: int)
    requires m > 0
    ensures exists s: Utf16 :: Wrap32(Sum(s)) == -TWO_31 && StringToNumber(s, m) == TWO_31 % m
  {
    var s: Utf16 := [2325, 9, 30, 12, 2];
    assert s[1..] == [9, 30, 12, 2] && s[1..][1..] == [30, 12, 2];
    ThreeUnits(30, 12, 2);
    assert Sum(s[1..]) == 9 * Pow31(3) + Sum([30, 12, 2]);
    assert Sum(s) == 2325 * Pow31(4) + Sum(s[1..]);
    assert Pow31(3) == 29791 && Pow31(4) == 923521;
    assert Sum(s) == TWO_31;
    assert StringToNumber(s, m) == TWO_31 % m;
  }

  lemma ThreeUnits(a: CodeUnit, b: CodeUnit, c: CodeUnit)
    ensures Sum([a, b, c]) == 961 * a as int + 31 * b as int + c as int
    ensures Pow31(3) == 29791
  {
    assert Pow31(0) == 1 && Pow31(1) == 31 && Pow31(2) == 961;
    OneUnit(c);
    assert [a, b, c][1..] == [b, c] && [b, c][1..] == [c];
  }

  lemma OneUnit(c: CodeUnit)
    ensures Sum([c]) == c && Pow31(1) == 31
  {
    assert Pow31(0) == 1 && [c][1..] == [];
  }
}
