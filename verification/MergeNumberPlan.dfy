/**
 The numbering planner of the merge-number allocator.

 Walking a contiguous batch of history rows from a checkpoint, the planner gives the next number to
 each row confirmed as a pull request, walks past rows confirmed as direct pushes, and stops in
 front of the first row it cannot decide.  `Plan` states the result in closed form over the longest
 passable prefix; `PlanMergeNumbers` is the loop, proved equal to it.
 */
module MergeNumberPlan {
  import opened Wrappers

  /** Largest integer a double represents exactly together with all smaller ones: 2^53 - 1. */
  const MERGE_NUMBER_MAX: int := 0x1F_FFFF_FFFF_FFFF

  datatype BlockReason =
    | PrEvidencePending
    | NegativeEvidenceUnavailable
    | PartialLookup
    | ProfileUnverified
    | UnsupportedMergeProfile
    | MappingConflict
    | FetchFailed
    | NumberCapacityExceeded
    | CanonicalMismatch

  datatype Decision = PrConfirmed | DirectConfirmed | Unresolved

  datatype PlanRow = PlanRow(
    mergeSeq: int,
    decision: Decision,
    prNumber: Option<int>,
    reason: Option<BlockReason>,
    existingNumber: Option<int>,
    existingPr: Option<int>,
    mergedAt: Option<int>)

  datatype PlanInput = PlanInput(
    headSeq: int,
    headNumber: int,
    rows: seq<PlanRow>,
    previousMergedAt: Option<int>,
    alreadyNumbered: set<int>)

  /** A budget in milliseconds and the readings of the clock: reading 0 at the start, i + 1 at row i. */
  datatype Budget = Budget(limit: Option<int>, clock: nat -> int) {
    predicate Expired(row: nat) {
      limit.Some? && clock(row + 1) > clock(0) + limit.value
    }
  }

  datatype Assignment = Assignment(mergeSeq: int, prNumber: int, mergeNumber: int, mergedAt: Option<int>)
  datatype Block = Block(seq_: int, reason: BlockReason)
  datatype PlanResult = PlanResult(
    assignments: seq<Assignment>,
    nextHeadSeq: int,
    nextHeadNumber: int,
    blocked: Option<Block>,
    orderMismatches: nat,
    orderUnknown: nat,
    budgetExhausted: bool)
  datatype PlanOutcome = Planned(plan: PlanResult) | PlanInputError

  predicate SafeInteger(n: int) {
    -MERGE_NUMBER_MAX <= n <= MERGE_NUMBER_MAX
  }

  predicate CheckpointOk(input: PlanInput) {
    && SafeInteger(input.headSeq) && 0 <= input.headSeq
    && SafeInteger(input.headNumber) && 0 <= input.headNumber
    && input.headNumber <= input.headSeq
  }

  function PrOf(row: PlanRow): int {
    if row.prNumber.Some? then row.prNumber.value else 0
  }

  // ----- The state after a prefix of passing rows -----

  datatype Scan = Scan(
    headSeq: int, headNumber: int, assignments: seq<Assignment>, numbered: set<int>,
    previousMergedAt: Option<int>, orderMismatches: nat, orderUnknown: nat)

  function Advance(s: Scan, row: PlanRow): Scan {
    if row.decision != PrConfirmed then s.(headSeq := s.headSeq + 1)
    else
      var late := row.mergedAt.Some? && s.previousMergedAt.Some? && row.mergedAt.value < s.previousMergedAt.value;
      Scan(s.headSeq + 1, s.headNumber + 1,
           s.assignments + [Assignment(row.mergeSeq, PrOf(row), s.headNumber + 1, row.mergedAt)],
           s.numbered + {PrOf(row)},
           if row.mergedAt.Some? then row.mergedAt else s.previousMergedAt,
           s.orderMismatches + (if late then 1 else 0),
           s.orderUnknown + (if row.mergedAt.None? then 1 else 0))
  }

  function ScanAt(input: PlanInput, i: nat): Scan
    requires i <= |input.rows|
  {
    if i == 0 then Scan(input.headSeq, input.headNumber, [], {}, input.previousMergedAt, 0, 0)
    else Advance(ScanAt(input, i - 1), input.rows[i - 1])
  }

  // ----- The verdict on one row -----

  datatype Verdict = Pass | Stop(reason: BlockReason) | OutOfBudget | Malformed

  /** The verdict on a row reached in state `scan`. */
  function Judge(scan: Scan, row: PlanRow, alreadyNumbered: set<int>, expired: bool): Verdict {
    var nextNumber := scan.headNumber + 1;
    if !SafeInteger(row.mergeSeq) || row.mergeSeq != scan.headSeq + 1 then Malformed
    else if expired then OutOfBudget
    else if row.existingNumber.Some? &&
            !(row.decision == PrConfirmed && row.prNumber.Some? && row.existingPr == row.prNumber &&
              row.existingNumber.value == nextNumber) then Stop(CanonicalMismatch)
    else match row.decision
      case Unresolved => Stop(if row.reason.Some? then row.reason.value else PrEvidencePending)
      case DirectConfirmed => Pass
      case PrConfirmed =>
        if row.prNumber.None? then Malformed
        else if row.existingPr.Some? && row.existingPr != row.prNumber then Stop(CanonicalMismatch)
        else if row.prNumber.value in scan.numbered || row.prNumber.value in alreadyNumbered then
          Stop(MappingConflict)
        else if nextNumber > MERGE_NUMBER_MAX then Stop(NumberCapacityExceeded)
        else Pass
  }

  /** The verdict on row `i`, given that every earlier row passed. */
  function RowVerdict(input: PlanInput, budget: Budget, i: nat): Verdict
    requires i < |input.rows|
  {
    Judge(ScanAt(input, i), input.rows[i], input.alreadyNumbered, budget.Expired(i))
  }

  /** The first row at or after `i` that does not pass; the number of rows when they all do. */
  function StopIndex(input: PlanInput, budget: Budget, i: nat): (k: nat)
    requires i <= |input.rows|
    ensures i <= k <= |input.rows|
    decreases |input.rows| - i
  {
    if i == |input.rows| || RowVerdict(input, budget, i) != Pass then i else StopIndex(input, budget, i + 1)
  }

  /** The result of a walk that ends at row `k` with verdict `end`. */
  function Outcome(input: PlanInput, k: nat, end: Verdict): PlanOutcome
    requires k <= |input.rows|
  {
    if end == Malformed then PlanInputError
    else
      var scan := ScanAt(input, k);
      Planned(PlanResult(
        scan.assignments, scan.headSeq, scan.headNumber,
        if end.Stop? then Some(Block(scan.headSeq + 1, end.reason)) else None,
        scan.orderMismatches, scan.orderUnknown, end == OutOfBudget))
  }

  /** How the walk ends at its first row that does not pass. */
  function EndVerdict(input: PlanInput, budget: Budget, k: nat): Verdict
    requires k <= |input.rows|
  {
    if k == |input.rows| then Pass else RowVerdict(input, budget, k)
  }

  /** The plan in closed form: everything is read off the longest passable prefix. */
  function Plan(input: PlanInput, budget: Budget): PlanOutcome {
    if !CheckpointOk(input) then PlanInputError
    else
      var k := StopIndex(input, budget, 0);
      Outcome(input, k, EndVerdict(input, budget, k))
  }

  // ----- The loop -----

  lemma StartOfWalk(input: PlanInput)
    ensures ScanAt(input, 0) == Scan(input.headSeq, input.headNumber, [], {}, input.previousMergedAt, 0, 0)
  {}

  /** One row of the walk: either it passes and the walk goes on, or the walk ends here. */
  lemma RowOfWalk(input: PlanInput, budget: Budget, i: nat)
    requires i <= |input.rows|
    ensures
      var end := EndVerdict(input, budget, i);
      if i < |input.rows| && end == Pass
      then ScanAt(input, i + 1) == Advance(ScanAt(input, i), input.rows[i]) &&
           StopIndex(input, budget, i + 1) == StopIndex(input, budget, i)
      else StopIndex(input, budget, i) == i
  {}

  method PlanMergeNumbers(input: PlanInput, budget: Budget) returns (outcome: PlanOutcome)
    ensures outcome == Plan(input, budget)
  {
    hide ScanAt, StopIndex;
    StartOfWalk(input);
    var start := budget.clock(0);
    var headSeq, headNumber := input.headSeq, input.headNumber;
    if !SafeInteger(headSeq) || headSeq < 0 || !SafeInteger(headNumber) || headNumber < 0 || headNumber > headSeq {
      return PlanInputError;
    }
    var assignments: seq<Assignment> := [];
    var numberedThisRound: set<int> := {};
    var previousMergedAt := input.previousMergedAt;
    var orderMismatches, orderUnknown := 0, 0;
    var blocked: Option<Block> := None;
    var budgetExhausted := false;
    ghost var end := Pass;
    ghost var scan := ScanAt(input, 0);

    var i := 0;
    while i < |input.rows|
      invariant 0 <= i <= |input.rows|
      invariant StopIndex(input, budget, i) == StopIndex(input, budget, 0)
      invariant scan == ScanAt(input, i)
      invariant headSeq == scan.headSeq && headNumber == scan.headNumber
      invariant assignments == scan.assignments && numberedThisRound == scan.numbered
      invariant previousMergedAt == scan.previousMergedAt
      invariant orderMismatches == scan.orderMismatches && orderUnknown == scan.orderUnknown
      invariant blocked.None? && !budgetExhausted && end == Pass
    {
      var row := input.rows[i];
      end := Judge(scan, row, input.alreadyNumbered, budget.Expired(i));
      assert end == RowVerdict(input, budget, i);
      RowOfWalk(input, budget, i);
      if !SafeInteger(row.mergeSeq) || row.mergeSeq != headSeq + 1 {
        return PlanInputError;
      }
      if budget.limit.Some? && budget.clock(i + 1) > start + budget.limit.value {
        budgetExhausted := true;
        break;
      }
      if row.existingNumber.Some? {
        var idempotent := row.decision == PrConfirmed && row.prNumber.Some? && row.existingPr == row.prNumber &&
                          row.existingNumber.value == headNumber + 1;
        if !idempotent {
          blocked := Some(Block(row.mergeSeq, CanonicalMismatch));
          break;
        }
      }
      if row.decision == Unresolved {
        blocked := Some(Block(row.mergeSeq, if row.reason.Some? then row.reason.value else PrEvidencePending));
        break;
      }
      if row.decision == DirectConfirmed {
        assert end == Pass;
        headSeq := row.mergeSeq;
        scan := Advance(scan, row);
        i := i + 1;
        continue;
      }
      if row.prNumber.None? {
        return PlanInputError;
      }
      var prNumber := row.prNumber.value;
      if row.existingPr.Some? && row.existingPr.value != prNumber {
        blocked := Some(Block(row.mergeSeq, CanonicalMismatch));
        break;
      }
      if prNumber in numberedThisRound || prNumber in input.alreadyNumbered {
        blocked := Some(Block(row.mergeSeq, MappingConflict));
        break;
      }
      var nextNumber := headNumber + 1;
      if nextNumber > MERGE_NUMBER_MAX {
        blocked := Some(Block(row.mergeSeq, NumberCapacityExceeded));
        break;
      }
      assert end == Pass;
      if row.mergedAt.None? {
        orderUnknown := orderUnknown + 1;
      } else {
        if previousMergedAt.Some? && row.mergedAt.value < previousMergedAt.value {
          orderMismatches := orderMismatches + 1;
        }
        previousMergedAt := row.mergedAt;
      }
      ghost var next := Advance(scan, row);
      assert next.assignments == assignments + [Assignment(row.mergeSeq, prNumber, nextNumber, row.mergedAt)];
      assert next.numbered == numberedThisRound + {prNumber} && next.previousMergedAt == previousMergedAt;
      assignments := assignments + [Assignment(row.mergeSeq, prNumber, nextNumber, row.mergedAt)];
      numberedThisRound := numberedThisRound + {prNumber};
      headSeq := row.mergeSeq;
      headNumber := nextNumber;
      scan := next;
      i := i + 1;
    }
    assert end == EndVerdict(input, budget, i) && (i < |input.rows| ==> end != Pass);
    RowOfWalk(input, budget, i);
    outcome := Planned(PlanResult(assignments, headSeq, headNumber, blocked, orderMismatches, orderUnknown, budgetExhausted));
  }

  // ----- What the plan means -----

  /** Number of rows confirmed as a pull request. */
  function CountPr(rows: seq<PlanRow>): nat {
    if rows == [] then 0
    else CountPr(rows[..|rows| - 1]) + if rows[|rows| - 1].decision == PrConfirmed then 1 else 0
  }

  /** Every pull-request row holds the number that counts the pull-request rows up to it. */
  ghost predicate Dense(rows: seq<PlanRow>, headSeq: int, headNumber: int, assignments: seq<Assignment>) {
    && |assignments| == CountPr(rows)
    && (forall j :: 0 <= j < |rows| && rows[j].decision == PrConfirmed ==>
          && rows[j].prNumber.Some?
          && CountPr(rows[..j]) < |assignments|
          && assignments[CountPr(rows[..j])] ==
             Assignment(headSeq + j + 1, rows[j].prNumber.value, headNumber + CountPr(rows[..j]) + 1, rows[j].mergedAt))
  }

  /** Assignments go to pull-request rows only, in row order. */
  ghost predicate PrRowsOnly(rows: seq<PlanRow>, headSeq: int, assignments: seq<Assignment>) {
    forall b :: 0 <= b < |assignments| ==>
      && headSeq < assignments[b].mergeSeq <= headSeq + |rows|
      && rows[assignments[b].mergeSeq - headSeq - 1].decision == PrConfirmed
      && forall a :: 0 <= a < b ==> assignments[a].mergeSeq < assignments[b].mergeSeq
  }

  /** No pull request is numbered twice, here or before. */
  ghost predicate FreshPrs(assignments: seq<Assignment>, alreadyNumbered: set<int>) {
    forall b :: 0 <= b < |assignments| ==>
      && assignments[b].prNumber !in alreadyNumbered
      && forall a :: 0 <= a < b ==> assignments[a].prNumber != assignments[b].prNumber
  }

  ghost predicate AllPass(input: PlanInput, budget: Budget, i: nat)
    requires i <= |input.rows|
  {
    forall j :: 0 <= j < i ==> RowVerdict(input, budget, j) == Pass
  }

  lemma {:induction false} StopIndexFirst(input: PlanInput, budget: Budget, i: nat)
    requires i <= |input.rows| && AllPass(input, budget, i)
    ensures AllPass(input, budget, StopIndex(input, budget, i))
    ensures StopIndex(input, budget, i) < |input.rows| ==> RowVerdict(input, budget, StopIndex(input, budget, i)) != Pass
    decreases |input.rows| - i
  {
    if i < |input.rows| && RowVerdict(input, budget, i) == Pass {
      StopIndexFirst(input, budget, i + 1);
    }
  }

  lemma {:induction false} StopIndexIs(input: PlanInput, budget: Budget, i: nat, k: nat)
    requires i <= k <= |input.rows|
    requires forall j :: i <= j < k ==> RowVerdict(input, budget, j) == Pass
    requires k < |input.rows| ==> RowVerdict(input, budget, k) != Pass
    ensures StopIndex(input, budget, i) == k
    decreases k - i
  {
    if i < k {
      StopIndexIs(input, budget, i + 1, k);
    }
  }

  lemma CountPrEmpty(rows: seq<PlanRow>)
    ensures CountPr(rows[..0]) == 0
  {}

  lemma {:induction false} CountPrSnoc(rows: seq<PlanRow>, i: nat)
    requires i < |rows|
    ensures CountPr(rows[..i + 1]) == CountPr(rows[..i]) + if rows[i].decision == PrConfirmed then 1 else 0
  {
    assert rows[..i + 1][..i] == rows[..i];
  }

  lemma {:induction false} CountPrMonotone(rows: seq<PlanRow>, i: nat, j: nat)
    requires i <= j <= |rows|
    ensures CountPr(rows[..i]) <= CountPr(rows[..j]) <= CountPr(rows[..i]) + j - i
    decreases j - i
  {
    if i < j {
      CountPrMonotone(rows, i, j - 1);
      CountPrSnoc(rows, j - 1);
    }
  }

  lemma {:induction false} DenseSnoc(rows: seq<PlanRow>, row: PlanRow, headSeq: int, headNumber: int, assignments: seq<Assignment>)
    requires Dense(rows, headSeq, headNumber, assignments)
    requires row.decision == PrConfirmed ==> row.prNumber.Some?
    ensures
      var longer := if row.decision != PrConfirmed then assignments
        else assignments + [Assignment(headSeq + |rows| + 1, row.prNumber.value, headNumber + |assignments| + 1, row.mergedAt)];
      Dense(rows + [row], headSeq, headNumber, longer)
  {
    var all := rows + [row];
    assert all[..|rows|] == rows && all[..|rows| + 1] == all;
    CountPrSnoc(all, |rows|);
    var longer := if row.decision != PrConfirmed then assignments
      else assignments + [Assignment(headSeq + |rows| + 1, row.prNumber.value, headNumber + |assignments| + 1, row.mergedAt)];
    forall j | 0 <= j < |all| && all[j].decision == PrConfirmed
      ensures all[j].prNumber.Some?
      ensures CountPr(all[..j]) < |longer|
      ensures longer[CountPr(all[..j])] ==
              Assignment(headSeq + j + 1, all[j].prNumber.value, headNumber + CountPr(all[..j]) + 1, all[j].mergedAt)
    {
      assert all[..j] == rows[..j];
      if j < |rows| {
        assert rows[j].decision == PrConfirmed;
      }
    }
  }

  lemma {:induction false} AssignsPrRowsOnly(input: PlanInput, budget: Budget, i: nat)
    requires i <= |input.rows| && AllPass(input, budget, i)
    ensures ScanAt(input, i).headSeq == input.headSeq + i
    ensures PrRowsOnly(input.rows[..i], input.headSeq, ScanAt(input, i).assignments)
  {
    if i > 0 {
      AssignsPrRowsOnly(input, budget, i - 1);
      assert RowVerdict(input, budget, i - 1) == Pass;
    }
  }

  /** The state after a prefix of passing rows, read as counts. */
  lemma {:induction false} ScanMeaning(input: PlanInput, budget: Budget, i: nat)
    requires i <= |input.rows| && AllPass(input, budget, i)
    ensures
      var scan := ScanAt(input, i);
      && scan.headSeq == input.headSeq + i
      && scan.headNumber == input.headNumber + CountPr(input.rows[..i])
      && Dense(input.rows[..i], input.headSeq, input.headNumber, scan.assignments)
      && FreshPrs(scan.assignments, input.alreadyNumbered)
      && (forall a :: 0 <= a < |scan.assignments| ==> scan.assignments[a].prNumber in scan.numbered)
  {
    hide CountPr;
    if i == 0 {
      assert CountPr(input.rows[..0]) == 0 by { CountPrEmpty(input.rows); }
    } else {
      ScanMeaning(input, budget, i - 1);
      var rows, row := input.rows[..i - 1], input.rows[i - 1];
      assert input.rows[..i] == rows + [row];
      var before := ScanAt(input, i - 1);
      assert RowVerdict(input, budget, i - 1) == Pass;
      CountPrSnoc(input.rows, i - 1);
      DenseSnoc(rows, row, input.headSeq, input.headNumber, before.assignments);
    }
  }

  /**
   Numbers are dense: the n-th pull-request row past the checkpoint gets the n-th number past it, no
   other row gets one and no pull request gets two.  A block sits right after the last row walked, and
   the walk covers the whole batch unless it is blocked or cut by the budget.
   */
  lemma PlanNumbersDensely(input: PlanInput, budget: Budget)
    requires Plan(input, budget).Planned?
    ensures
      var plan := Plan(input, budget).plan;
      var walked := plan.nextHeadSeq - input.headSeq;
      && 0 <= walked <= |input.rows|
      && Dense(input.rows[..walked], input.headSeq, input.headNumber, plan.assignments)
      && PrRowsOnly(input.rows[..walked], input.headSeq, plan.assignments)
      && FreshPrs(plan.assignments, input.alreadyNumbered)
      && plan.nextHeadNumber == input.headNumber + |plan.assignments|
      && plan.nextHeadNumber <= plan.nextHeadSeq <= MERGE_NUMBER_MAX
      && (plan.blocked.Some? ==> walked < |input.rows| && plan.blocked.value.seq_ == plan.nextHeadSeq + 1)
      && (plan.blocked.None? && !plan.budgetExhausted ==> walked == |input.rows|)
      && !(plan.blocked.Some? && plan.budgetExhausted)
  {
    var k := StopIndex(input, budget, 0);
    StopIndexFirst(input, budget, 0);
    ScanMeaning(input, budget, k);
    AssignsPrRowsOnly(input, budget, k);
    CountPrMonotone(input.rows, 0, k);
    if k > 0 {
      assert RowVerdict(input, budget, k - 1) == Pass;
      ScanMeaning(input, budget, k - 1);
    }
  }

  /**
   The capacity block never happens: a number never exceeds its row's ordinal, and the ordinal of every
   row walked is already a safe integer.
   */
  lemma CapacityNeverReached(input: PlanInput, budget: Budget)
    requires Plan(input, budget).Planned? && Plan(input, budget).plan.blocked.Some?
    requires Plan(input, budget).plan.blocked.value.reason == NumberCapacityExceeded
    // only a caller can hand that reason in, on an undecided row
    ensures exists row :: row in input.rows && row.decision == Unresolved && row.reason == Some(NumberCapacityExceeded)
  {
    var k := StopIndex(input, budget, 0);
    StopIndexFirst(input, budget, 0);
    ScanMeaning(input, budget, k);
    CountPrMonotone(input.rows, 0, k);
  }

  /**
   A row that already holds a number passes only if that very number comes next for that very pull
   request, and the caller does not list the pull request among those already numbered.
   */
  lemma NumberedRowPassesOnlyUnchanged(input: PlanInput, budget: Budget, i: nat)
    requires i < |input.rows| && AllPass(input, budget, i + 1)
    requires input.rows[i].existingNumber.Some?
    ensures input.rows[i].existingNumber == Some(input.headNumber + CountPr(input.rows[..i]) + 1)
    ensures input.rows[i].decision == PrConfirmed && input.rows[i].existingPr == input.rows[i].prNumber
    ensures PrOf(input.rows[i]) !in input.alreadyNumbered
  {
    assert RowVerdict(input, budget, i) == Pass;
    ScanMeaning(input, budget, i);
  }

  // ----- Cutting the history into batches -----

  const NO_BUDGET := Budget(None, (i: nat) => 0)

  /** The input of the next round: same history, checkpoint and bookkeeping taken from the round before. */
  function Resume(input: PlanInput, n: nat): PlanInput
    requires n <= |input.rows|
  {
    var scan := ScanAt(input, n);
    PlanInput(scan.headSeq, scan.headNumber, input.rows[n..], scan.previousMergedAt, input.alreadyNumbered + scan.numbered)
  }

  /** Two consecutive plans as one. */
  function Join(first: PlanResult, second: PlanOutcome): PlanOutcome {
    if second.PlanInputError? then PlanInputError
    else Planned(second.plan.(
      assignments := first.assignments + second.plan.assignments,
      orderMismatches := first.orderMismatches + second.plan.orderMismatches,
      orderUnknown := first.orderUnknown + second.plan.orderUnknown))
  }

  /** The state of the whole walk at row n + j is the first walk's state followed by the second's. */
  lemma {:induction false} ScanSplit(input: PlanInput, n: nat, j: nat)
    requires n + j <= |input.rows|
    ensures
      var first, second, whole := ScanAt(input, n), ScanAt(Resume(input, n), j), ScanAt(input, n + j);
      && whole.headSeq == second.headSeq && whole.headNumber == second.headNumber
      && whole.assignments == first.assignments + second.assignments
      && whole.numbered == first.numbered + second.numbered
      && whole.previousMergedAt == second.previousMergedAt
      && whole.orderMismatches == first.orderMismatches + second.orderMismatches
      && whole.orderUnknown == first.orderUnknown + second.orderUnknown
    decreases j
  {
    if j > 0 {
      ScanSplit(input, n, j - 1);
      var row := input.rows[n + j - 1];
      assert Resume(input, n).rows[j - 1] == row;
      assert ScanAt(input, n + j) == Advance(ScanAt(input, n + (j - 1)), row);
    }
  }

  lemma VerdictSplit(input: PlanInput, n: nat, j: nat)
    requires n + j < |input.rows|
    ensures RowVerdict(input, NO_BUDGET, n + j) == RowVerdict(Resume(input, n), NO_BUDGET, j)
  {
    ScanSplit(input, n, j);
    assert Resume(input, n).rows[j] == input.rows[n + j];
  }

  /** The walk over a prefix is the walk over the whole history, as far as the prefix goes. */
  lemma {:induction false} ScanPrefix(input: PlanInput, n: nat, i: nat)
    requires i <= n <= |input.rows|
    ensures ScanAt(input.(rows := input.rows[..n]), i) == ScanAt(input, i)
  {
    if i > 0 {
      ScanPrefix(input, n, i - 1);
    }
  }

  /**
   Batches do not change numbers: planning a history in one go equals planning its first n rows and,
   unless that blocks, planning the rest from where it stopped.
   */
  lemma PlanSplit(input: PlanInput, n: nat)
    requires n <= |input.rows|
    ensures
      var first := Plan(input.(rows := input.rows[..n]), NO_BUDGET);
      Plan(input, NO_BUDGET) ==
        if first.PlanInputError? || first.plan.blocked.Some? then first
        else Join(first.plan, Plan(Resume(input, n), NO_BUDGET))
  {
    hide Judge, Advance, CountPr;
    var head := input.(rows := input.rows[..n]);
    var k := StopIndex(input, NO_BUDGET, 0);
    StopIndexFirst(input, NO_BUDGET, 0);
    forall i | 0 <= i <= n
      ensures ScanAt(head, i) == ScanAt(input, i)
      ensures i < n ==> RowVerdict(head, NO_BUDGET, i) == RowVerdict(input, NO_BUDGET, i)
    {
      ScanPrefix(input, n, i);
    }
    if CheckpointOk(input) {
      if k < n {
        StopIndexIs(head, NO_BUDGET, 0, k);
        NeverOutOfBudget(input, k);
      } else {
        StopIndexIs(head, NO_BUDGET, 0, n);
        ResumeCheckpointOk(input, n);
        ResumeStopsThere(input, n, k);
        ScanSplit(input, n, k - n);
        assert ScanAt(head, n) == ScanAt(input, n);
        assert Plan(head, NO_BUDGET) == Outcome(head, n, Pass);
        assert Plan(Resume(input, n), NO_BUDGET) == Outcome(Resume(input, n), k - n, EndVerdict(input, NO_BUDGET, k));
      }
    }
  }

  lemma NeverOutOfBudget(input: PlanInput, i: nat)
    requires i < |input.rows|
    ensures RowVerdict(input, NO_BUDGET, i) != OutOfBudget
  {}

  lemma ResumeCheckpointOk(input: PlanInput, n: nat)
    requires CheckpointOk(input)
    requires n <= |input.rows| && AllPass(input, NO_BUDGET, n)
    ensures CheckpointOk(Resume(input, n))
  {
    ScanMeaning(input, NO_BUDGET, n);
    CountPrMonotone(input.rows, 0, n);
    if n > 0 {
      assert RowVerdict(input, NO_BUDGET, n - 1) == Pass;
      ScanMeaning(input, NO_BUDGET, n - 1);
    }
  }

  lemma ResumeStopsThere(input: PlanInput, n: nat, k: nat)
    requires n <= k <= |input.rows| && AllPass(input, NO_BUDGET, k)
    requires k < |input.rows| ==> RowVerdict(input, NO_BUDGET, k) != Pass
    ensures StopIndex(Resume(input, n), NO_BUDGET, 0) == k - n
    ensures EndVerdict(Resume(input, n), NO_BUDGET, k - n) == EndVerdict(input, NO_BUDGET, k)
  {
    var tail := Resume(input, n);
    forall j | 0 <= j < |tail.rows|
      ensures RowVerdict(tail, NO_BUDGET, j) == RowVerdict(input, NO_BUDGET, n + j)
    {
      VerdictSplit(input, n, j);
    }
    StopIndexIs(tail, NO_BUDGET, 0, k - n);
  }

  /** A round cut by its budget is a full round over the rows it reached, and only says so in addition. */
  lemma BudgetCutIsPrefix(input: PlanInput, budget: Budget)
    requires Plan(input, budget).Planned? && Plan(input, budget).plan.budgetExhausted
    ensures
      var walked := Plan(input, budget).plan.nextHeadSeq - input.headSeq;
      && 0 <= walked < |input.rows|
      && Plan(input.(rows := input.rows[..walked]), NO_BUDGET) == Planned(Plan(input, budget).plan.(budgetExhausted := false))
  {
    var k := StopIndex(input, budget, 0);
    StopIndexFirst(input, budget, 0);
    ScanMeaning(input, budget, k);
    var head := input.(rows := input.rows[..k]);
    forall i | 0 <= i <= k
      ensures ScanAt(head, i) == ScanAt(input, i)
      ensures i < k ==> RowVerdict(head, NO_BUDGET, i) == Pass
    {
      ScanPrefix(input, k, i);
      if i < k {
        assert RowVerdict(input, budget, i) == Pass;
      }
    }
    StopIndexIs(head, NO_BUDGET, 0, k);
  }
}
