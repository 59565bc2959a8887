/**
 * Staff geometry. Positions on the staff are step indices: 0 is the bottom
 * line, 8 the top line, even values lie on lines and odd values in spaces.
 * Vertical coordinates are SVG pixels that grow downwards; all constants
 * are integers, so the mapping is exact.
 */
module Staff {

  const StaffTop: int := 60
  const LineSpacing: int := 16
  const StepHeight: int := LineSpacing / 2
  /** Step index of the top staff line. */
  const StepsInStaff: int := 8

  /** Vertical coordinate of staff line `lineIndex`, 0 being the bottom line. */
  function LineY(lineIndex: int): (y: int)
    ensures lineIndex == 4 ==> y == StaffTop
    ensures 0 <= lineIndex <= 4 ==> StaffTop <= y <= StaffTop + 4 * LineSpacing
    ensures y < StaffTop + 4 * LineSpacing <==> lineIndex > 0
  {
    StaffTop + (4 - lineIndex) * LineSpacing
  }

  /** Vertical coordinate of a step index: half a line spacing per step above the bottom line. */
  function StepToY(stepIndex: int): (y: int)
    ensures stepIndex % 2 == 0 ==> y == LineY(stepIndex / 2)
    ensures y < LineY(0) <==> stepIndex > 0
  {
    LineY(0) - stepIndex * StepHeight
  }

  /** Every even step index 0..8 lands exactly on the corresponding staff line. */
  lemma StepToYOnLines(k: int)
    requires 0 <= k <= 4
    ensures StepToY(2 * k) == LineY(k)
  {
  }

  /** Higher step indices are drawn strictly higher on the page, one step height apart. */
  lemma StepToYStrictlyDecreasing(s: int, t: int)
    requires s < t
    ensures StepToY(s) > StepToY(t)
    ensures StepToY(s) - StepToY(t) == (t - s) * StepHeight
  {
  }

  /** Positions within the staff lie between the top line (y 60) and the bottom line (y 124). */
  lemma StepToYWithinStaff(s: int)
    requires 0 <= s <= StepsInStaff
    ensures LineY(4) == 60 && LineY(0) == 124
    ensures LineY(4) <= StepToY(s) <= LineY(0)
  {
  }

  /** A note outside the staff whose head sits on a line: it gets the short mark through its head. */
  predicate OnLedger(s: int)
  {
    (s < 0 || s > StepsInStaff) && s % 2 == 0
  }

  /**
   * Reference definition of the ledger lines a note at step index `s`
   * needs, listed from the farthest line inward toward the staff: below the
   * staff, the even indices from `s` (rounded down to even) up to -2; above
   * it, the even indices from `s` (rounded up to even) down to 10.
   */
  function LedgerSteps(s: int): seq<int>
  {
    if s < 0 then
      var far := s - s % 2;
      seq(-far / 2, i => far + 2 * i)
    else if s > StepsInStaff then
      var far := s + s % 2;
      seq((far - StepsInStaff) / 2, i => far - 2 * i)
    else
      []
  }

  /**
   * The ledger loops of the note renderer, lifted out: the step indices at
   * which a full ledger line is drawn, in drawing order, and whether the
   * short extra mark centred on the note head is drawn.
   */
  method LedgerLines(s: int) returns (ledgers: seq<int>, onNoteMark: bool)
    ensures ledgers == LedgerSteps(s)
    ensures onNoteMark <==> s in ledgers
  {
    ledgers := [];
    if s < 0 {
      var li := if s % 2 == 0 then s else s - 1;
      ghost var far := li;
      assert far == s - s % 2 && far % 2 == 0 && -far / 2 * 2 == -far;
      while li <= -2
        invariant li == far + 2 * |ledgers| && li <= 0
        invariant forall i :: 0 <= i < |ledgers| ==> ledgers[i] == far + 2 * i
      {
        ledgers := ledgers + [li];
        li := li + 2;
      }
      assert li == 0;
      assert ledgers == LedgerSteps(s);
    } else if s > StepsInStaff {
      var li := if s % 2 == 0 then s else s + 1;
      ghost var far := li;
      assert far == s + s % 2 && far % 2 == 0 && (far - StepsInStaff) / 2 * 2 == far - StepsInStaff;
      while li >= 10
        invariant li == far - 2 * |ledgers| && li >= StepsInStaff
        invariant forall i :: 0 <= i < |ledgers| ==> ledgers[i] == far - 2 * i
      {
        ledgers := ledgers + [li];
        li := li - 2;
      }
      assert li == StepsInStaff;
      assert ledgers == LedgerSteps(s);
    }
    onNoteMark := (s < 0 || s > StepsInStaff) && s % 2 == 0;
    OnLedgerIsLedger(s);
  }

  /**
   * Exactly the even indices between the note and the staff, the note's
   * own index included, are ledger lines; none lies within the staff.
   */
  lemma LedgerMembership(s: int, x: int)
    ensures x in LedgerSteps(s) <==>
      x % 2 == 0 && ((s < 0 && s - 1 <= x <= -2) || (s > StepsInStaff && 10 <= x <= s + 1))
  {
    if s < 0 {
      RisingRunMembers(s - s % 2, (s % 2 - s) / 2, x);
    } else if s > StepsInStaff {
      FallingRunMembers(s + s % 2, (s + s % 2 - StepsInStaff) / 2, x);
    }
  }

  /** The members of `n` even values rising by two from `far`. */
  lemma RisingRunMembers(far: int, n: nat, x: int)
    requires far % 2 == 0
    ensures x in seq(n, i => far + 2 * i) <==> x % 2 == 0 && far <= x <= far + 2 * n - 2
  {
    var L := seq(n, i => far + 2 * i);
    if x % 2 == 0 && far <= x <= far + 2 * n - 2 {
      assert L[(x - far) / 2] == x;
    }
    if x in L {
      var i :| 0 <= i < n && L[i] == x;
    }
  }

  /** The members of `n` even values falling by two from `far`. */
  lemma FallingRunMembers(far: int, n: nat, x: int)
    requires far % 2 == 0
    ensures x in seq(n, i => far - 2 * i) <==> x % 2 == 0 && far - 2 * n + 2 <= x <= far
  {
    var L := seq(n, i => far - 2 * i);
    if x % 2 == 0 && far - 2 * n + 2 <= x <= far {
      assert L[(far - x) / 2] == x;
    }
    if x in L {
      var i :| 0 <= i < n && L[i] == x;
    }
  }

  /**
   * The list is empty exactly when the note is within the staff; otherwise
   * it starts at the farthest line and moves two steps toward the staff
   * each time, ending on the line next to the staff.
   */
  lemma LedgerOrder(s: int)
    ensures LedgerSteps(s) == [] <==> 0 <= s <= StepsInStaff
    ensures s < 0 ==> LedgerSteps(s)[0] == s - s % 2 && LedgerSteps(s)[|LedgerSteps(s)| - 1] == -2
    ensures s > StepsInStaff ==> LedgerSteps(s)[0] == s + s % 2 && LedgerSteps(s)[|LedgerSteps(s)| - 1] == 10
    ensures forall i :: 0 < i < |LedgerSteps(s)| ==>
      LedgerSteps(s)[i] == LedgerSteps(s)[i - 1] + (if s < 0 then 2 else -2)
  {
  }

  /**
   * The short mark through the note head is drawn exactly when the head
   * itself sits on one of the ledger lines.
   */
  lemma OnLedgerIsLedger(s: int)
    ensures OnLedger(s) <==> s in LedgerSteps(s)
  {
    LedgerMembership(s, s);
  }

  /** For the step indices the clef ranges produce, at most one ledger line is needed. */
  lemma LedgerWithinRange(s: int)
    requires -2 <= s <= 10
    ensures LedgerSteps(s) == if s < 0 then [-2] else if s > StepsInStaff then [10] else []
  {
  }
}
