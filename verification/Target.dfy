/** Difficulty and target arithmetic of `src/proto/translate.rs`, over reals instead of f64. */
module Target {
  import opened Bytes
  import opened Division

  const SCALE: nat := 0x1_0000

  /** The difficulty-1 target 0x00000000FFFF0000...0000: 0xFFFF * 2^208. */
  const DIFF1: nat := 0xFFFF_0000000000000_0000000000000_0000000000000_0000000000000

  /** The numerator the code divides: DIFF1 * SCALE. */
  const NUMERATOR: nat := 0xFFFF_00000000000000_00000000000000_00000000000000_00000000000000

  /** The largest denominator, 2^128 - 1: a u128, where the cast saturates. */
  const MAX_DENOMINATOR: nat := 0xFFFFFFFF_FFFFFFFF_FFFFFFFF_FFFFFFFF

  /** All bits set: no threshold at all. */
  function MaxTarget(n: nat): (s: seq<byte>)
    ensures |s| == n
  {
    if n == 0 then [] else [255 as byte] + MaxTarget(n - 1)
  }

  /** Rust's `f64::round` of a non-negative number: half away from zero. */
  function Round(x: real): int {
    (x + 0.5).Floor
  }

  /** `difficulty_from_target`: 0 for a wrong length or a zero target. */
  function DifficultyFromTarget(target: seq<byte>): real {
    if |target| != 32 || LeValue(target) == 0 then 0.0 else DIFF1 as real / LeValue(target) as real
  }

  /** The integer denominator a difficulty is scaled to; below 1 there is no threshold. */
  function Scaled(difficulty: real): int {
    var denominator := Round(difficulty * 65536.0);
    if denominator > MAX_DENOMINATOR then MAX_DENOMINATOR else denominator
  }

  /** `target_from_difficulty`, as 32 little-endian bytes. */
  function TargetFromDifficulty(difficulty: real): seq<byte> {
    if difficulty <= 0.0 || Scaled(difficulty) < 1 then MaxTarget(32)
    else LeBytes(NUMERATOR / Scaled(difficulty), 32)
  }

  lemma PowersOf256()
    ensures Pow256(16) == MAX_DENOMINATOR + 1
    ensures NUMERATOR + 1 < Pow256(32)
  {
    assert Pow256(4) == 0x1_0000_0000;
    assert Pow256(8) == 0x1_0000_0000_0000_0000;
    PowAdd(8, 8);
    PowAdd(16, 16);
  }

  /** Every representable difficulty has a nonzero target that fits its 32 bytes, and
      those bytes decode to it. */
  lemma TargetFits(d: nat)
    requires 1 <= d <= MAX_DENOMINATOR
    ensures 0 < NUMERATOR / d < Pow256(32)
    ensures |LeBytes(NUMERATOR / d, 32)| == 32 && LeValue(LeBytes(NUMERATOR / d, 32)) == NUMERATOR / d
  {
    PowersOf256();
    DivideTwice(NUMERATOR, d);
    DecodeEncode(NUMERATOR / d, 32);
    RemainderIs(NUMERATOR / d, Pow256(32), 0, NUMERATOR / d);
  }

  /** Reading a target back gives the scaled difficulty it was made from exactly when the
      remainder of the division stays below the target; every scaled difficulty up to the
      square root of the numerator is such a one. */
  lemma ReadBackIff(d: nat)
    requires 1 <= d <= MAX_DENOMINATOR
    ensures NUMERATOR / d > 0
    ensures NUMERATOR / (NUMERATOR / d) == d <==> NUMERATOR % d < NUMERATOR / d
    ensures d * d <= NUMERATOR ==> NUMERATOR / (NUMERATOR / d) == d
  {
    DivideTwice(NUMERATOR, d);
    if d * d <= NUMERATOR {
      RemainderBelowRoot(NUMERATOR, d);
    }
  }

  /** Beyond the root the documented exact inverse fails: the largest denominator reads
      back one too big. */
  lemma ReadBackFailsAtMax()
    ensures NUMERATOR / MAX_DENOMINATOR > 0
    ensures NUMERATOR / (NUMERATOR / MAX_DENOMINATOR) == MAX_DENOMINATOR + 1
  {
    OneTooBig(NUMERATOR, 0xFFFF_00000000_00000000_00000000, MAX_DENOMINATOR);
  }

  lemma OneTooBig(n: nat, t: nat, d: nat)
    requires 0 < t < d && n == t * (d + 1)
    ensures n / d == t && n / t == d + 1
  {
    assert n == d * t + t;
    RemainderIs(n, d, t, t);
    RemainderIs(n, t, d + 1, 0);
  }

  /** What a miner reads back from the target it is sent, in units of the scale: never an
      easier difficulty than asked for, the same integer exactly when `ReadBackIff` says
      so, and the very same number only when the division leaves nothing over. */
  lemma ReadBackDifficulty(difficulty: real)
    requires difficulty > 0.0 && Scaled(difficulty) >= 1
    ensures var d := Scaled(difficulty);
            var seen := DifficultyFromTarget(TargetFromDifficulty(difficulty)) * 65536.0;
            && seen >= d as real
            && (seen.Floor == d <==> NUMERATOR % d < NUMERATOR / d)
            && (seen == d as real <==> NUMERATOR % d == 0)
  {
    var d := Scaled(difficulty);
    TargetFits(d);
    ScaleQuotient(DIFF1, NUMERATOR / d);
    ReadBackAsReal(d);
  }

  /** The same for the denominator and the target it gives. */
  lemma ReadBackAsReal(d: nat)
    requires 1 <= d <= MAX_DENOMINATOR
    ensures NUMERATOR / d > 0
    ensures var seen := NUMERATOR as real / (NUMERATOR / d) as real;
            && seen >= d as real
            && (seen.Floor == d <==> NUMERATOR % d < NUMERATOR / d)
            && (seen == d as real <==> NUMERATOR % d == 0)
  {
    TargetFits(d);
    var t := NUMERATOR / d;
    FloorOfQuotient(NUMERATOR, t);
    ReadBackIff(d);
    DivideTwice(NUMERATOR, d);
    ExactQuotient(NUMERATOR, d);
  }

  /** A quotient read back as a real is exact exactly when nothing was left over. */
  lemma ExactQuotient(n: nat, d: nat)
    requires 0 < d <= n && n / d > 0
    ensures n as real / (n / d) as real == d as real <==> n % d == 0
  {
    var t, r := n / d, n % d;
    assert n == d * t + r;
    var x := n as real / t as real;
    assert x * t as real == n as real;
    assert n as real == d as real * t as real + r as real;
    assert (x - d as real) * t as real == r as real;
  }

  lemma ScaleQuotient(a: nat, b: nat)
    requires b > 0
    ensures a as real / b as real * 65536.0 == (a * SCALE) as real / b as real
  {
    var x := a as real / b as real;
    assert x * b as real == a as real;
    assert (x * 65536.0) * b as real == (a * SCALE) as real;
    QuotientUnique((a * SCALE) as real, b as real, x * 65536.0);
  }

  /** A difficulty is scaled by 65536 and rounded to the nearest, and no further than 2^128 - 1. */
  lemma ScaledIsNearest(difficulty: real)
    requires 0.0 <= difficulty
    ensures Scaled(difficulty) <= 0xFFFFFFFF_FFFFFFFF_FFFFFFFF_FFFFFFFF
    ensures difficulty <= 5192296858534827628530496329220096.0 - 1.0 ==>
              difficulty - 0.5 / 65536.0 <= Scaled(difficulty) as real / 65536.0 <= difficulty + 0.5 / 65536.0
    ensures difficulty >= 5192296858534827628530496329220096.0 ==>
              Scaled(difficulty) == 0xFFFFFFFF_FFFFFFFF_FFFFFFFF_FFFFFFFF
  {
  }

  /** So what a miner reads back from its target is within half a step of the scale of the difficulty
      asked for, or above it by less than a step and a half where the division is not too coarse. */
  lemma ReadBackIsNear(difficulty: real)
    requires 0.0 < difficulty <= 5192296858534827628530496329220096.0 - 1.0 && Scaled(difficulty) >= 1
    ensures var seen := DifficultyFromTarget(TargetFromDifficulty(difficulty));
            && seen >= difficulty - 0.5 / 65536.0
            && (NUMERATOR % Scaled(difficulty) < NUMERATOR / Scaled(difficulty) ==> seen < difficulty + 1.5 / 65536.0)
  {
    ReadBackDifficulty(difficulty);
    ScaledIsNearest(difficulty);
  }

  lemma Diff1IsPower()
    ensures DIFF1 == 0xFFFF * Pow256(26)
  {
    assert Pow256(2) == 0x1_0000;
    assert Pow256(4) == 0x1_0000_0000;
    assert Pow256(8) == 0x1_0000_0000_0000_0000;
    PowAdd(8, 8);
    PowAdd(16, 8);
    PowAdd(24, 2);
  }

  lemma NumeratorIsScaled()
    ensures NUMERATOR / 65536 == DIFF1 && NUMERATOR % 65536 == 0
  {
    RemainderIs(NUMERATOR, 65536, DIFF1, 0);
  }

  /** Difficulty 1 is the target 0xFFFF * 2^208, both ways. */
  lemma DifficultyOne()
    ensures LeValue(TargetFromDifficulty(1.0)) == 0xFFFF * Pow256(26)
    ensures DifficultyFromTarget(TargetFromDifficulty(1.0)) == 1.0
  {
    assert Scaled(1.0) == 65536;
    TargetFits(65536);
    NumeratorIsScaled();
    Diff1IsPower();
    ReadBackDifficulty(1.0);
  }

  /** The difficulty a target stands for, times the target, is the difficulty-1 target. */
  lemma DifficultyTimesTarget(target: seq<byte>, one: nat)
    requires |target| == 32 && LeValue(target) > 0 && one == DIFF1
    ensures DifficultyFromTarget(target) * LeValue(target) as real == one as real
  {
    QuotientTimes(one as real, LeValue(target) as real);
  }

  /** A target of another length, or zero, stands for no difficulty. */
  lemma NoDifficulty(target: seq<byte>)
    requires |target| != 32 || LeValue(target) == 0
    ensures DifficultyFromTarget(target) == 0.0
  {
  }

  lemma QuotientTimes(a: real, b: real)
    requires b > 0.0
    ensures a / b * b == a
  {
  }

  /** A higher difficulty never gets an easier target. */
  lemma HarderIsSmaller(low: real, high: real)
    requires 0.0 < low <= high
    ensures LeValue(TargetFromDifficulty(high)) <= LeValue(TargetFromDifficulty(low))
  {
    MaxTargetIsMax(32);
    ScaledMonotone(low, high);
    if Scaled(low) >= 1 {
      HarderScaled(Scaled(low), Scaled(high));
    }
  }

  lemma ScaledMonotone(low: real, high: real)
    requires low <= high
    ensures Scaled(low) <= Scaled(high) <= MAX_DENOMINATOR
  {
  }

  lemma HarderScaled(low: nat, high: nat)
    requires 1 <= low <= high <= MAX_DENOMINATOR
    ensures LeValue(LeBytes(NUMERATOR / high, 32)) <= LeValue(LeBytes(NUMERATOR / low, 32))
  {
    TargetFits(low);
    TargetFits(high);
    DivAntitone(NUMERATOR, low, high);
  }

  /** There is no threshold, which is the largest target of all, exactly for a difficulty that is
      not positive or too small to scale. */
  lemma NoThresholdIff(difficulty: real)
    ensures LeValue(TargetFromDifficulty(difficulty)) == Pow256(32) - 1 <==>
            difficulty <= 0.0 || Scaled(difficulty) < 1
  {
    MaxTargetIsMax(32);
    if difficulty > 0.0 && Scaled(difficulty) >= 1 {
      ScaledMonotone(difficulty, difficulty);
      TargetBelowMax(Scaled(difficulty));
    }
  }

  lemma TargetBelowMax(d: nat)
    requires 1 <= d <= MAX_DENOMINATOR
    ensures LeValue(LeBytes(NUMERATOR / d, 32)) < Pow256(32) - 1
  {
    TargetFits(d);
    PowersOf256();
    DivAntitone(NUMERATOR, 1, d);
  }

  lemma {:induction false} MaxTargetIsMax(n: nat)
    ensures LeValue(MaxTarget(n)) == Pow256(n) - 1
  {
    if n > 0 {
      MaxTargetIsMax(n - 1);
      assert MaxTarget(n)[1..] == MaxTarget(n - 1);
    }
  }
}
