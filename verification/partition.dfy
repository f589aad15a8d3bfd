/** The index arithmetic of the lab generator: how output positions are split
    across phases, numbered within a phase and graded by difficulty. */
module Partition {

  /** Multiplication by a non-negative factor keeps order. */
  lemma MulMonotone(d: nat, x: int, y: int)
    requires x <= y
    ensures d * x <= d * y
  {
    assert d * y - d * x == d * (y - x);
  }

  /** Euclidean division by a positive divisor brackets its dividend. */
  lemma DivBracket(a: nat, d: nat)
    requires d > 0
    ensures (a / d) * d <= a < (a / d) * d + d
  {
  }

  /** The quotient q = a / d is the unique q with q*d <= a < q*d + d. */
  lemma DivUnique(a: nat, d: nat, q: int)
    requires d > 0
    requires q * d <= a < q * d + d
    ensures a / d == q
  {
    DivBracket(a, d);
    var r := a / d;
    if r < q {
      MulMonotone(d, r + 1, q);
      assert false;
    } else if r > q {
      MulMonotone(d, q + 1, r);
      assert false;
    }
  }

  lemma DivMonotone(a: nat, b: nat, d: nat)
    requires d > 0 && a <= b
    ensures a / d <= b / d
  {
    DivBracket(a, d);
    DivBracket(b, d);
    if a / d > b / d {
      MulMonotone(d, b / d + 1, a / d);
      assert false;
    }
  }

  /** `Math.ceil(a / b)` for a non-negative integer a and positive b: the
      least q with q*b >= a. */
  function CeilDiv(a: nat, b: nat): (q: nat)
    requires b > 0
    ensures q * b >= a
    ensures q == 0 || (q - 1) * b < a
  {
    var q := (a + b - 1) / b;
    DivBracket(a + b - 1, b);
    q
  }

  /** `labsPerPhase`: the block length, the ceiling of labCount / phaseCount. */
  function LabsPerPhase(labCount: nat, phaseCount: nat): (lpp: nat)
    requires phaseCount > 0
    ensures labCount > 0 ==> lpp > 0
  {
    CeilDiv(labCount, phaseCount)
  }

  /** The phase blocks together cover every position. */
  lemma BlocksCover(labCount: nat, phaseCount: nat)
    requires phaseCount > 0
    ensures LabsPerPhase(labCount, phaseCount) * phaseCount >= labCount
  {
  }

  function Min(a: int, b: int): int {
    if a <= b then a else b
  }

  /** `phaseIndex` of position i: its block number, clamped to the last phase.
      The clamp never takes effect, because the blocks cover every position. */
  function PhaseIndex(i: nat, labCount: nat, phaseCount: nat): (p: nat)
    requires phaseCount > 0 && i < labCount
    ensures p < phaseCount
  {
    var lpp := LabsPerPhase(labCount, phaseCount);
    Min(i / lpp, phaseCount - 1)
  }

  /** The clamp to the last phase never takes effect: the phase index is the
      plain block number i / labsPerPhase. */
  lemma ClampInactive(i: nat, labCount: nat, phaseCount: nat)
    requires phaseCount > 0 && i < labCount
    ensures PhaseIndex(i, labCount, phaseCount) == i / LabsPerPhase(labCount, phaseCount)
  {
    var lpp := LabsPerPhase(labCount, phaseCount);
    var q := i / lpp;
    BlocksCover(labCount, phaseCount);
    DivBracket(i, lpp);
    if q >= phaseCount {
      MulMonotone(lpp, phaseCount, q);
      assert false;
    }
  }

  /** `subId` of position i: its 1-based place within its phase block. */
  function SubId(i: nat, labCount: nat, phaseCount: nat): (s: nat)
    requires phaseCount > 0 && i < labCount
    ensures 1 <= s <= LabsPerPhase(labCount, phaseCount)
  {
    var lpp := LabsPerPhase(labCount, phaseCount);
    i % lpp + 1
  }

  /** Phase index and sub-id together give back the position. */
  lemma Reconstruct(i: nat, labCount: nat, phaseCount: nat)
    requires phaseCount > 0 && i < labCount
    ensures PhaseIndex(i, labCount, phaseCount) * LabsPerPhase(labCount, phaseCount)
            + (SubId(i, labCount, phaseCount) - 1) == i
  {
    ClampInactive(i, labCount, phaseCount);
    DivBracket(i, LabsPerPhase(labCount, phaseCount));
  }

  /** Phase indices never decrease along the output. */
  lemma PhaseIndexMonotone(i: nat, j: nat, labCount: nat, phaseCount: nat)
    requires phaseCount > 0 && i <= j < labCount
    ensures PhaseIndex(i, labCount, phaseCount) <= PhaseIndex(j, labCount, phaseCount)
  {
    ClampInactive(i, labCount, phaseCount);
    ClampInactive(j, labCount, phaseCount);
    DivMonotone(i, j, LabsPerPhase(labCount, phaseCount));
  }

  /** Position i belongs to phase p exactly when it lies in p's block of
      `labsPerPhase` consecutive positions. */
  lemma PhaseBlock(i: nat, labCount: nat, phaseCount: nat, p: nat)
    requires phaseCount > 0 && i < labCount
    ensures PhaseIndex(i, labCount, phaseCount) == p
        <==> p * LabsPerPhase(labCount, phaseCount) <= i < p * LabsPerPhase(labCount, phaseCount) + LabsPerPhase(labCount, phaseCount)
  {
    var lpp := LabsPerPhase(labCount, phaseCount);
    Reconstruct(i, labCount, phaseCount);
    if p * lpp <= i < p * lpp + lpp {
      ClampInactive(i, labCount, phaseCount);
      DivUnique(i, lpp, p);
    }
  }

  /** The pair (phaseIndex, subId) identifies the position. */
  lemma PositionInjective(i: nat, j: nat, labCount: nat, phaseCount: nat)
    requires phaseCount > 0 && i < labCount && j < labCount
    requires PhaseIndex(i, labCount, phaseCount) == PhaseIndex(j, labCount, phaseCount)
    requires SubId(i, labCount, phaseCount) == SubId(j, labCount, phaseCount)
    ensures i == j
  {
    Reconstruct(i, labCount, phaseCount);
    Reconstruct(j, labCount, phaseCount);
  }

  /** Phase p receives at least one position exactly when its block starts
      before labCount; ceiling division can leave trailing phases empty. */
  lemma PhaseUsed(labCount: nat, phaseCount: nat, p: nat)
    requires phaseCount > 0 && p < phaseCount
    ensures (exists i :: 0 <= i < labCount && PhaseIndex(i, labCount, phaseCount) == p)
        <==> p * LabsPerPhase(labCount, phaseCount) < labCount
  {
    var lpp := LabsPerPhase(labCount, phaseCount);
    if p * lpp < labCount {
      PhaseBlock(p * lpp, labCount, phaseCount, p);
    }
    forall i | 0 <= i < labCount && PhaseIndex(i, labCount, phaseCount) == p
      ensures p * lpp < labCount
    {
      PhaseBlock(i, labCount, phaseCount, p);
    }
  }

  /** Five labs over four phases: blocks of two, and the fourth phase gets none. */
  lemma FourthPhaseUnused()
    ensures LabsPerPhase(5, 4) == 2
    ensures forall i :: 0 <= i < 5 ==> PhaseIndex(i, 5, 4) != 3
  {
    assert LabsPerPhase(5, 4) == 2 by {
      DivUnique(5 + 4 - 1, 4, 2);
    }
  }

  /** Five labs over two phases: positions 0-2 in the first, 3-4 in the second. */
  lemma TwoPhasesFiveLabs()
    ensures LabsPerPhase(5, 2) == 3
    ensures forall i :: 0 <= i < 3 ==> PhaseIndex(i, 5, 2) == 0
    ensures forall i :: 3 <= i < 5 ==> PhaseIndex(i, 5, 2) == 1
  {
    assert LabsPerPhase(5, 2) == 3 by {
      DivUnique(5 + 2 - 1, 2, 3);
    }
  }

  /** The difficulty tier of a lab. */
  datatype Tier = Foundational | Specialist | Elite {
    /** The label shown in the objective, `[Foundational]` etc. */
    function Label(): string {
      match this
      case Foundational => "Foundational"
      case Specialist => "Specialist"
      case Elite => "Elite"
    }

    function Ordinal(): nat {
      match this
      case Foundational => 0
      case Specialist => 1
      case Elite => 2
    }
  }

  /** The tier of position i out of labCount: below 30% of the positions is
      Foundational, below 70% Specialist, the rest Elite. The thresholds
      `labCount * 0.3` and `labCount * 0.7` are compared as 10*i < 3*labCount
      and 10*i < 7*labCount. */
  function TierOf(i: nat, labCount: nat): Tier {
    if 10 * i < 3 * labCount then Foundational
    else if 10 * i < 7 * labCount then Specialist
    else Elite
  }

  /** Tiers never decrease along the output. */
  lemma TierMonotone(i: nat, j: nat, labCount: nat)
    requires i <= j
    ensures TierOf(i, labCount).Ordinal() <= TierOf(j, labCount).Ordinal()
  {
  }

  lemma FirstIsFoundational(labCount: nat)
    requires labCount >= 1
    ensures TierOf(0, labCount) == Foundational
  {
  }

  /** The tiers occupy three consecutive blocks: Foundational covers the first
      ceil(3n/10) positions, Elite starts at ceil(7n/10). */
  lemma TierBlocks(i: nat, labCount: nat)
    ensures TierOf(i, labCount) == Foundational <==> i < CeilDiv(3 * labCount, 10)
    ensures TierOf(i, labCount) == Elite <==> i >= CeilDiv(7 * labCount, 10)
    ensures TierOf(i, labCount) == Specialist
        <==> CeilDiv(3 * labCount, 10) <= i < CeilDiv(7 * labCount, 10)
  {
    var a := CeilDiv(3 * labCount, 10);
    var b := CeilDiv(7 * labCount, 10);
    assert 10 * i < 3 * labCount <==> i < a;
    assert 10 * i < 7 * labCount <==> i < b;
  }
}
