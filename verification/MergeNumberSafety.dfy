/**
 What every run of the merge-number allocator keeps.

 Main results: `RunsKeepNumbers` (the number of a row is the count of pull-request rows up to it, over
 every run whose recovery writes find the number of the checkpoint unmoved), `RecoveryKeepsIff` and
 `PromiseKeptIff` (that condition is exact, for a step and for whole runs), `RecoveryCanUndoACheckpoint` (a run that violates it) and `UndoneCheckpointIsStuck`.
 */
module MergeNumberSafety {
  import opened Wrappers
  import opened MergeNumberPlan
  import opened MergeNumberRuns

  predicate IsPr(evidence: map<int, Evidence>, s: int) {
    s in evidence && evidence[s].state.Pr?
  }

  /** Number of rows 1..s confirmed as a pull request. */
  function PrCount(evidence: map<int, Evidence>, s: nat): (n: nat)
    ensures n <= s
  {
    if s == 0 then 0 else PrCount(evidence, s - 1) + if IsPr(evidence, s) then 1 else 0
  }

  ghost predicate ConfirmedUpTo(evidence: map<int, Evidence>, h: nat) {
    forall s :: 1 <= s <= h ==> s in evidence && !evidence[s].state.Open?
  }

  /** Row `s` holds what the allocator promises it: its count if it is a pull-request row, nothing otherwise. */
  ghost predicate RowAsPromised(space: Space, s: int)
    requires 1 <= s <= |space.rows|
  {
    var row := space.rows[s - 1];
    if s <= space.headSeq && IsPr(space.evidence, s)
    then row.number == Some(PrCount(space.evidence, s)) && row.pr == Some(space.evidence[s].state.pr)
    else row.number == None
  }

  function NumberAt(space: Space, s: int): Option<int> {
    if 1 <= s <= |space.rows| then space.rows[s - 1].number else None
  }

  function PrAt(space: Space, s: int): Option<int> {
    if 1 <= s <= |space.rows| then space.rows[s - 1].pr else None
  }

  ghost predicate NoPrTwice(evidence: map<int, Evidence>, h: nat) {
    forall s, t :: 1 <= s < t <= h && IsPr(evidence, s) && IsPr(evidence, t) ==>
      evidence[s].state.pr != evidence[t].state.pr
  }

  ghost predicate SpaceInv(space: Space) {
    && space.headSeq <= |space.rows|
    && space.headNumber == PrCount(space.evidence, space.headSeq)
    && ConfirmedUpTo(space.evidence, space.headSeq)
    && NoPrTwice(space.evidence, space.headSeq)
    && (forall s :: 1 <= s <= |space.rows| ==> RowAsPromised(space, s))
    && (forall s :: s in space.evidence ==> space.evidence[s].version >= 1)
  }

  /** A round's view of evidence: never ahead of the store, and equal to it where the version is. */
  ghost predicate ViewOf(view: map<int, Evidence>, evidence: map<int, Evidence>) {
    forall s :: VersionOf(view, s) <= VersionOf(evidence, s) &&
                (SameVersion(view, evidence, s) ==> Lookup(view, s) == Lookup(evidence, s))
  }

  ghost predicate DecisionsFit(round: Round)
    requires round.Resolved?
  {
    && |round.decisions| <= |round.rows|
    && (forall i :: 0 <= i < |round.decisions| ==> MayDecide(Lookup(round.existing, round.headSeq + i + 1), round.decisions[i]))
    && (forall i :: 0 <= i < |round.decisions| - 1 ==> !round.decisions[i].NotResolved?)
  }

  /** Rows a round has read: still there, and a number it saw is still the number. */
  ghost predicate RowsSeen(space: Space, headSeq: nat, rows: seq<Row>) {
    && headSeq + |rows| <= |space.rows|
    && forall i :: 0 <= i < |rows| && rows[i].number.Some? ==> space.rows[headSeq + i].number == rows[i].number
  }

  ghost predicate RoundInv(space: Space, round: Round) {
    round != Idle ==>
      && round.epoch <= space.epoch
      && (round.epoch == space.epoch ==>
            && round.headSeq <= |space.rows|
            && ConfirmedUpTo(space.evidence, round.headSeq)
            && round.headNumber == PrCount(space.evidence, round.headSeq)
            && (round.Loaded? || round.Resolved? ==> RowsSeen(space, round.headSeq, round.rows))
            && (round.Resolved? ==> ViewOf(round.existing, space.evidence) && DecisionsFit(round)))
  }

  ghost predicate Inv(w: World) {
    && SpaceInv(w.space)
    && forall id :: id in w.rounds ==> RoundInv(w.space, w.rounds[id])
  }

  // ----- How the store may move under a round -----

  /** Within an epoch rows only grow, numbers stay, evidence versions rise and confirmations stay. */
  ghost predicate Evolves(a: Space, b: Space) {
    && |a.rows| <= |b.rows|
    && (forall s :: 0 <= s < |a.rows| && a.rows[s].number.Some? ==> b.rows[s].number == a.rows[s].number)
    && (forall s :: VersionOf(a.evidence, s) <= VersionOf(b.evidence, s) &&
                    (SameVersion(a.evidence, b.evidence, s) ==> Lookup(a.evidence, s) == Lookup(b.evidence, s)))
    && (forall s :: s in a.evidence && !a.evidence[s].state.Open? ==> s in b.evidence && b.evidence[s].state == a.evidence[s].state)
  }

  lemma {:induction false} PrCountEvolves(a: Space, b: Space, h: nat)
    requires Evolves(a, b) && ConfirmedUpTo(a.evidence, h)
    ensures ConfirmedUpTo(b.evidence, h) && PrCount(b.evidence, h) == PrCount(a.evidence, h)
  {
    if h > 0 {
      PrCountEvolves(a, b, h - 1);
    }
  }

  lemma RoundEvolves(a: Space, b: Space, round: Round)
    requires RoundInv(a, round) && a.epoch == b.epoch && Evolves(a, b)
    ensures RoundInv(b, round)
  {
    if round != Idle && round.epoch == a.epoch {
      PrCountEvolves(a, b, round.headSeq);
      if round.Loaded? || round.Resolved? {
        forall i | 0 <= i < |round.rows| && round.rows[i].number.Some?
          ensures b.rows[round.headSeq + i].number == round.rows[i].number
        {
          assert a.rows[round.headSeq + i].number == round.rows[i].number;
        }
      }
      if round.Resolved? {
        forall s
          ensures VersionOf(round.existing, s) <= VersionOf(b.evidence, s)
          ensures SameVersion(round.existing, b.evidence, s) ==> Lookup(round.existing, s) == Lookup(b.evidence, s)
        {
          assert VersionOf(a.evidence, s) <= VersionOf(b.evidence, s);
        }
      }
    }
  }

  // ----- The commit -----

  /** Evidence that says what the decision said. */
  ghost predicate Reflects(state: EvidenceState, decision: Finding) {
    match decision
    case ConfirmedPr(pr, mergedAt) => state == Pr(pr, mergedAt)
    case ConfirmedDirect(_) => state.Direct?
    case NotResolved(_) => state.Open?
  }

  ghost predicate EvidenceEvolves(a: map<int, Evidence>, b: map<int, Evidence>) {
    forall s ::
      && VersionOf(a, s) <= VersionOf(b, s)
      && (SameVersion(a, b, s) ==> Lookup(a, s) == Lookup(b, s))
      && (s in a && !a[s].state.Open? ==> s in b && b[s].state == a[s].state)
      && (s in b && (s in a ==> a[s].version >= 1) ==> b[s].version >= 1)
  }

  lemma StoreOneFits(evidence: map<int, Evidence>, s: int, decision: Finding)
    requires MayDecide(Lookup(evidence, s), decision)
    ensures
      var written := StoreOne(evidence, s, decision);
      && written.Some?
      && s in written.value && Reflects(written.value[s].state, decision)
      && EvidenceEvolves(evidence, written.value)
      && (forall t :: t != s ==> Lookup(written.value, t) == Lookup(evidence, t))
  {}

  lemma PriorConfirmationRepeated(existing: Option<Evidence>, decision: Finding)
    requires MayDecide(existing, decision)
    ensures decision.ConfirmedPr? && existing.Some? && existing.value.state.Pr? ==> existing.value.state.pr == decision.pr
  {}

  lemma EvidenceEvolvesRefl(a: map<int, Evidence>)
    ensures EvidenceEvolves(a, a)
  {}

  /** Storing decisions made on evidence that has not moved succeeds, keeps them, and records what they say. */
  lemma {:induction false} StoreFits(evidence: map<int, Evidence>, existing: map<int, Evidence>, base: nat, decisions: seq<Finding>, i: nat)
    requires i <= |decisions|
    requires forall s :: base + i < s <= base + |decisions| ==>
               Lookup(existing, s) == Lookup(evidence, s) && MayDecide(Lookup(evidence, s), decisions[s - base - 1])
    requires forall j :: i <= j < |decisions| - 1 ==> !decisions[j].NotResolved?
    ensures
      var stored := Store(evidence, existing, base, decisions, i);
      && stored.Stored? && stored.decisions == decisions
      && EvidenceEvolves(evidence, stored.evidence)
      && (forall s :: s <= base + i || s > base + |decisions| ==> Lookup(stored.evidence, s) == Lookup(evidence, s))
      && (forall s :: base + i < s <= base + |decisions| ==>
            s in stored.evidence && Reflects(stored.evidence[s].state, decisions[s - base - 1]))
    decreases |decisions| - i
  {
    hide StoreOne, Upsert, MayDecide, LookupMayAnswer, EvidenceEvolves, Reflects;
    if i == |decisions| {
      EvidenceEvolvesRefl(evidence);
    } else {
      var s, decision := base + i + 1, decisions[i];
      assert Lookup(existing, s) == Lookup(evidence, s) && MayDecide(Lookup(evidence, s), decision);
      StoreOneFits(evidence, s, decision);
      var next := StoreOne(evidence, s, decision).value;
      PriorConfirmationRepeated(Lookup(existing, s), decision);
      if decision.NotResolved? {
        assert i == |decisions| - 1;
      } else {
        StoreFits(next, existing, base, decisions, i + 1);
        var last := Store(next, existing, base, decisions, i + 1).evidence;
        EvidenceEvolvesTrans(evidence, next, last);
        assert Lookup(last, s) == Lookup(next, s);
      }
    }
  }

  lemma EvidenceEvolvesTrans(a: map<int, Evidence>, b: map<int, Evidence>, c: map<int, Evidence>)
    requires EvidenceEvolves(a, b) && EvidenceEvolves(b, c)
    ensures EvidenceEvolves(a, c)
  {
    forall s
      ensures VersionOf(a, s) <= VersionOf(c, s)
      ensures SameVersion(a, c, s) ==> Lookup(a, s) == Lookup(c, s)
      ensures s in a && !a[s].state.Open? ==> s in c && c[s].state == a[s].state
      ensures s in c && (s in a ==> a[s].version >= 1) ==> c[s].version >= 1
    {
      assert VersionOf(a, s) <= VersionOf(b, s) <= VersionOf(c, s);
    }
  }

  ghost predicate InRowOrder(assignments: seq<Assignment>) {
    forall a, b :: 0 <= a < b < |assignments| ==> assignments[a].mergeSeq < assignments[b].mergeSeq
  }

  lemma {:induction false} AllAccepted(rows: seq<Row>, assignments: seq<Assignment>)
    requires Written(rows, assignments) == |assignments|
    ensures forall a :: 0 <= a < |assignments| ==> Accepts(rows, assignments[a])
  {
    if assignments != [] {
      WrittenBound(rows, assignments[..|assignments| - 1]);
      AllAccepted(rows, assignments[..|assignments| - 1]);
    }
  }

  lemma {:induction false} WriteElsewhere(rows: seq<Row>, assignments: seq<Assignment>, s: int)
    requires 0 <= s < |rows|
    requires forall a :: 0 <= a < |assignments| ==> assignments[a].mergeSeq != s + 1
    ensures WriteNumbers(rows, assignments)[s] == rows[s]
  {
    if assignments != [] {
      WriteElsewhere(rows, assignments[..|assignments| - 1], s);
    }
  }

  lemma {:induction false} WriteAt(rows: seq<Row>, assignments: seq<Assignment>, a: int)
    requires 0 <= a < |assignments| && InRowOrder(assignments) && Accepts(rows, assignments[a])
    ensures WriteNumbers(rows, assignments)[assignments[a].mergeSeq - 1] ==
            rows[assignments[a].mergeSeq - 1].(pr := Some(assignments[a].prNumber), number := Some(assignments[a].mergeNumber))
  {
    var front := assignments[..|assignments| - 1];
    if a == |front| {
      WriteElsewhere(rows, front, assignments[a].mergeSeq - 1);
    } else {
      WriteAt(rows, front, a);
    }
  }

  lemma {:induction false} WrittenBound(rows: seq<Row>, assignments: seq<Assignment>)
    ensures Written(rows, assignments) <= |assignments|
  {
    if assignments != [] {
      WrittenBound(rows, assignments[..|assignments| - 1]);
    }
  }

  /** Planner rows that say what the evidence says. */
  ghost predicate Agree(evidence: map<int, Evidence>, base: nat, rows: seq<PlanRow>, k: nat)
    requires k <= |rows|
  {
    forall s :: base < s <= base + k ==>
      && s in evidence && !evidence[s].state.Open?
      && (rows[s - base - 1].decision == PrConfirmed <==> IsPr(evidence, s))
      && (IsPr(evidence, s) ==> rows[s - base - 1].prNumber == Some(evidence[s].state.pr))
  }

  lemma PlannedRowsAgree(evidence: map<int, Evidence>, input: PlanInput, budget: Budget, base: nat, view: seq<Row>, decisions: seq<Finding>)
    requires input.headSeq == base && input.rows == PlanRows(base, view, decisions) && |decisions| <= |view|
    requires forall s :: base < s <= base + |decisions| ==>
               s in evidence && Reflects(evidence[s].state, decisions[s - base - 1])
    ensures Agree(evidence, base, input.rows, StopIndex(input, budget, 0))
  {
    var k := StopIndex(input, budget, 0);
    StopIndexFirst(input, budget, 0);
    forall s | base < s <= base + k
      ensures s in evidence && !evidence[s].state.Open?
      ensures input.rows[s - base - 1].decision == PrConfirmed <==> IsPr(evidence, s)
      ensures IsPr(evidence, s) ==> input.rows[s - base - 1].prNumber == Some(evidence[s].state.pr)
    {
      assert RowVerdict(input, budget, s - base - 1) == Pass;
    }
  }

  lemma {:induction false} PrCountWalk(evidence: map<int, Evidence>, base: nat, rows: seq<PlanRow>, k: nat, i: nat)
    requires i <= k <= |rows| && Agree(evidence, base, rows, k)
    ensures PrCount(evidence, base + i) == PrCount(evidence, base) + CountPr(rows[..i])
  {
    if i == 0 {
      CountPrEmpty(rows);
    } else {
      PrCountWalk(evidence, base, rows, k, i - 1);
      CountPrSnoc(rows, i - 1);
      assert IsPr(evidence, base + i) <==> rows[i - 1].decision == PrConfirmed;
    }
  }

  /** The assignment of a walked pull-request row, found at its count. */
  lemma AssignmentOf(evidence: map<int, Evidence>, base: nat, rows: seq<PlanRow>, k: nat, assignments: seq<Assignment>, s: int) returns (a: nat)
    requires k <= |rows| && Agree(evidence, base, rows, k)
    requires Dense(rows[..k], base, PrCount(evidence, base), assignments)
    requires base < s <= base + k && IsPr(evidence, s)
    ensures a < |assignments|
    ensures assignments[a].mergeSeq == s && assignments[a].prNumber == evidence[s].state.pr
    ensures assignments[a].mergeNumber == PrCount(evidence, s)
  {
    var j := s - base - 1;
    var walked := rows[..k];
    assert walked[j] == rows[j] && walked[..j] == rows[..j];
    assert walked[j].decision == PrConfirmed;
    PrCountWalk(evidence, base, rows, k, j);
    a := CountPr(walked[..j]);
    assert PrCount(evidence, s) == PrCount(evidence, s - 1) + 1;
  }

  ghost predicate KnownPrs(evidence: map<int, Evidence>, h: nat, prs: set<int>) {
    forall s :: 1 <= s <= h && IsPr(evidence, s) ==> evidence[s].state.pr in prs
  }

  lemma WalkKeepsPrsDistinct(evidence: map<int, Evidence>, base: nat, rows: seq<PlanRow>, k: nat, assignments: seq<Assignment>, known: set<int>)
    requires k <= |rows| && Agree(evidence, base, rows, k)
    requires Dense(rows[..k], base, PrCount(evidence, base), assignments) && FreshPrs(assignments, known)
    requires NoPrTwice(evidence, base) && KnownPrs(evidence, base, known)
    ensures NoPrTwice(evidence, base + k)
  {
    hide PrCount, Dense, Agree;
    forall s, t | 1 <= s < t <= base + k && IsPr(evidence, s) && IsPr(evidence, t)
      ensures evidence[s].state.pr != evidence[t].state.pr
    {
      if t > base {
        var b := AssignmentOf(evidence, base, rows, k, assignments, t);
        if s > base {
          var a := AssignmentOf(evidence, base, rows, k, assignments, s);
          assert assignments[a].mergeSeq != assignments[b].mergeSeq;
          assert a < b || b < a;
        } else {
          assert evidence[s].state.pr in known;
        }
      }
    }
  }

  lemma WalkKeepsPromise(before: Space, after: Space, rows: seq<PlanRow>, k: nat, assignments: seq<Assignment>, s: int)
    requires SpaceInv(before)
    requires k <= |rows| && Agree(after.evidence, before.headSeq, rows, k)
    requires Dense(rows[..k], before.headSeq, PrCount(after.evidence, before.headSeq), assignments)
    requires PrRowsOnly(rows[..k], before.headSeq, assignments)
    requires Written(before.rows, assignments) == |assignments|
    requires after.rows == WriteNumbers(before.rows, assignments) && after.headSeq == before.headSeq + k
    requires 1 <= s <= |after.rows|
    requires s <= before.headSeq ==> Lookup(after.evidence, s) == Lookup(before.evidence, s) &&
                                     PrCount(after.evidence, s) == PrCount(before.evidence, s)
    ensures RowAsPromised(after, s)
  {
    hide PrCount, Dense, WriteNumbers, Written, CountPr;
    assert RowAsPromised(before, s);
    assert InRowOrder(assignments);
    if before.headSeq < s <= after.headSeq && IsPr(after.evidence, s) {
      var a := AssignmentOf(after.evidence, before.headSeq, rows, k, assignments, s);
      AllAccepted(before.rows, assignments);
      WriteAt(before.rows, assignments, a);
    } else {
      forall a | 0 <= a < |assignments|
        ensures assignments[a].mergeSeq != s
      {
        assert rows[..k][assignments[a].mergeSeq - before.headSeq - 1].decision == PrConfirmed;
      }
      WriteElsewhere(before.rows, assignments, s - 1);
    }
  }

  lemma {:induction false} PrCountSame(a: map<int, Evidence>, b: map<int, Evidence>, h: nat)
    requires forall s :: 1 <= s <= h ==> Lookup(a, s) == Lookup(b, s)
    ensures PrCount(a, h) == PrCount(b, h)
  {
    if h > 0 {
      PrCountSame(a, b, h - 1);
      assert Lookup(a, h) == Lookup(b, h);
    }
  }

  /** What a round that commits has stored and planned. */
  ghost predicate CommitsWith(space: Space, round: Round, budget: Budget, evidence: map<int, Evidence>, input: PlanInput, plan: PlanResult)
    requires round.Resolved?
  {
    && CommitRound(space, round, budget).1 == Done
    && space.epoch == round.epoch && space.headSeq == round.headSeq
    && Store(space.evidence, round.existing, round.headSeq, round.decisions, 0) == Stored(evidence, round.decisions)
    && EvidenceEvolves(space.evidence, evidence)
    && (forall s :: s <= space.headSeq ==> Lookup(evidence, s) == Lookup(space.evidence, s))
    && (forall s :: space.headSeq < s <= space.headSeq + |round.decisions| ==>
          s in evidence && Reflects(evidence[s].state, round.decisions[s - space.headSeq - 1]))
    && input == PlanInputOf(space.(evidence := evidence), round, round.decisions)
    && Plan(input, budget) == Planned(plan)
    && Written(space.rows, plan.assignments) == |plan.assignments|
    && 0 <= plan.nextHeadSeq && 0 <= plan.nextHeadNumber
    && CommitRound(space, round, budget).0 ==
         space.(evidence := evidence, rows := WriteNumbers(space.rows, plan.assignments),
                headSeq := plan.nextHeadSeq, headNumber := plan.nextHeadNumber, blocked := plan.blocked)
  }

  lemma UnmovedDecisions(space: Space, round: Round)
    requires round.Resolved? && RoundInv(space, round)
    requires space.epoch == round.epoch && !EvidenceMoved(space, round)
    ensures |round.decisions| <= |round.rows| && round.headSeq + |round.rows| <= |space.rows|
    ensures forall s :: round.headSeq < s <= round.headSeq + |round.decisions| ==>
              && Lookup(round.existing, s) == Lookup(space.evidence, s)
              && MayDecide(Lookup(space.evidence, s), round.decisions[s - round.headSeq - 1])
    ensures forall i :: 0 <= i < |round.decisions| - 1 ==> !round.decisions[i].NotResolved?
  {
    hide MayDecide;
    forall s | round.headSeq < s <= round.headSeq + |round.decisions|
      ensures Lookup(round.existing, s) == Lookup(space.evidence, s)
      ensures MayDecide(Lookup(space.evidence, s), round.decisions[s - round.headSeq - 1])
    {
      assert SameVersion(round.existing, space.evidence, s);
      var i := s - round.headSeq - 1;
      assert MayDecide(Lookup(round.existing, round.headSeq + i + 1), round.decisions[i]);
    }
  }

  lemma CommitCases(space: Space, round: Round, budget: Budget) returns (evidence: map<int, Evidence>, input: PlanInput, plan: PlanResult)
    requires round.Resolved? && RoundInv(space, round)
    ensures CommitRound(space, round, budget).1 == Done ==> CommitsWith(space, round, budget, evidence, input, plan)
    ensures CommitRound(space, round, budget).1 != Done ==> CommitRound(space, round, budget).0 == space
  {
    hide Plan, WriteNumbers, Written, Store, EvidenceEvolves, Reflects, MayDecide, RoundInv, PlanInputOf, EvidenceMoved;
    evidence, input := map[], PlanInput(0, 0, [], None, {});
    plan := PlanResult([], 0, 0, None, 0, 0, false);
    if space.epoch == round.epoch && space.headSeq == round.headSeq && !EvidenceMoved(space, round) {
      UnmovedDecisions(space, round);
      StoreFits(space.evidence, round.existing, round.headSeq, round.decisions, 0);
      evidence := Store(space.evidence, round.existing, round.headSeq, round.decisions, 0).evidence;
      input := PlanInputOf(space.(evidence := evidence), round, round.decisions);
      if Plan(input, budget).Planned? {
        plan := Plan(input, budget).plan;
      }
    }
  }

  /** A walk of `k` planner rows over the space, with everything known about it. */
  ghost predicate Walks(space: Space, evidence: map<int, Evidence>, rows: seq<PlanRow>, k: nat, assignments: seq<Assignment>) {
    && k <= |rows| && space.headSeq + k <= |space.rows|
    && EvidenceEvolves(space.evidence, evidence)
    && (forall s :: s <= space.headSeq ==> Lookup(evidence, s) == Lookup(space.evidence, s))
    && Agree(evidence, space.headSeq, rows, k)
    && Dense(rows[..k], space.headSeq, PrCount(evidence, space.headSeq), assignments)
    && PrRowsOnly(rows[..k], space.headSeq, assignments)
    && FreshPrs(assignments, NumberedPrs(space.rows))
    && Written(space.rows, assignments) == |assignments|
  }

  /** A commit keeps the space invariant and only moves the space forward. */
  lemma CommitKeepsSpace(space: Space, round: Round, budget: Budget)
    requires SpaceInv(space) && round.Resolved? && RoundInv(space, round)
    ensures
      var after := CommitRound(space, round, budget).0;
      SpaceInv(after) && after.epoch == space.epoch && Evolves(space, after)
  {
    hide CommitRound, CommitsWith, SpaceInv, Evolves, RoundInv;
    var evidence, input, plan := CommitCases(space, round, budget);
    if CommitRound(space, round, budget).1 == Done {
      CommitWalks(space, round, budget, evidence, input, plan);
    } else {
      EvolvesRefl(space);
    }
  }

  lemma EvolvesRefl(a: Space)
    ensures Evolves(a, a)
  {}

  lemma CommitWalks(space: Space, round: Round, budget: Budget, evidence: map<int, Evidence>, input: PlanInput, plan: PlanResult)
    requires SpaceInv(space) && round.Resolved? && RoundInv(space, round)
    requires CommitsWith(space, round, budget, evidence, input, plan)
    ensures
      var after := CommitRound(space, round, budget).0;
      SpaceInv(after) && after.epoch == space.epoch && Evolves(space, after)
  {
    hide CommitRound, Plan, PrCount, Dense, PrRowsOnly, FreshPrs, Agree, Store, WriteNumbers, Written, CountPr, StopIndex,
      MayDecide, Reflects, NoPrTwice, ConfirmedUpTo, RowAsPromised, EvidenceEvolves, Evolves, ViewOf, NumberedPrs;
    var base := space.headSeq;
    PlanNumbersDensely(input, budget);
    PlanWalksToStop(input, budget);
    var k := plan.nextHeadSeq - base;
    PlannedRowsAgree(evidence, input, budget, base, round.rows, round.decisions);
    PrCountSame(evidence, space.evidence, base);
    PrCountWalk(evidence, base, input.rows, k, k);
    DenseCount(input.rows[..k], base, PrCount(evidence, base), plan.assignments);
    assert Walks(space, evidence, input.rows, k, plan.assignments);
    WalkKeepsSpace(space, evidence, input.rows, k, plan.assignments, plan.blocked);
  }

  lemma WalkKeepsSpace(space: Space, evidence: map<int, Evidence>, rows: seq<PlanRow>, k: nat, assignments: seq<Assignment>, blocked: Option<Block>)
    requires SpaceInv(space) && Walks(space, evidence, rows, k, assignments)
    ensures
      var after := space.(evidence := evidence, rows := WriteNumbers(space.rows, assignments),
                          headSeq := space.headSeq + k, headNumber := PrCount(evidence, space.headSeq + k), blocked := blocked);
      SpaceInv(after) && after.epoch == space.epoch && Evolves(space, after)
  {
    hide PrCount, Dense, PrRowsOnly, FreshPrs, Agree, WriteNumbers, Written, NoPrTwice, ConfirmedUpTo, RowAsPromised,
      EvidenceEvolves, Evolves, NumberedPrs;
    var after := space.(evidence := evidence, rows := WriteNumbers(space.rows, assignments),
                        headSeq := space.headSeq + k, headNumber := PrCount(evidence, space.headSeq + k), blocked := blocked);
    var base := space.headSeq;
    KnownPrsAreNumbered(space, evidence);
    PrsDistinctSame(space.evidence, evidence, base);
    WalkKeepsPrsDistinct(evidence, base, rows, k, assignments, NumberedPrs(space.rows));
    AgreeConfirms(evidence, base, rows, k);
    forall s | 1 <= s <= |after.rows|
      ensures RowAsPromised(after, s)
    {
      if s <= base {
        PrCountSame(evidence, space.evidence, s);
      }
      WalkKeepsPromise(space, after, rows, k, assignments, s);
    }
    NumbersStay(space, after);
  }

  lemma PlanWalksToStop(input: PlanInput, budget: Budget)
    requires Plan(input, budget).Planned?
    ensures Plan(input, budget).plan.nextHeadSeq == input.headSeq + StopIndex(input, budget, 0)
  {
    StopIndexFirst(input, budget, 0);
    ScanMeaning(input, budget, StopIndex(input, budget, 0));
  }

  lemma DenseCount(rows: seq<PlanRow>, headSeq: int, headNumber: int, assignments: seq<Assignment>)
    requires Dense(rows, headSeq, headNumber, assignments)
    ensures |assignments| == CountPr(rows)
  {}

  lemma KnownPrsAreNumbered(space: Space, evidence: map<int, Evidence>)
    requires SpaceInv(space)
    requires forall s :: s <= space.headSeq ==> Lookup(evidence, s) == Lookup(space.evidence, s)
    ensures KnownPrs(evidence, space.headSeq, NumberedPrs(space.rows))
  {
    forall s | 1 <= s <= space.headSeq && IsPr(evidence, s)
      ensures evidence[s].state.pr in NumberedPrs(space.rows)
    {
      assert Lookup(evidence, s) == Lookup(space.evidence, s);
      assert RowAsPromised(space, s);
      assert space.rows[s - 1] in space.rows;
    }
  }

  lemma PrsDistinctSame(a: map<int, Evidence>, b: map<int, Evidence>, h: nat)
    requires NoPrTwice(a, h)
    requires forall s :: s <= h ==> Lookup(b, s) == Lookup(a, s)
    ensures NoPrTwice(b, h)
    ensures ConfirmedUpTo(a, h) ==> ConfirmedUpTo(b, h)
  {
    forall s | 1 <= s <= h
      ensures IsPr(b, s) <==> IsPr(a, s)
      ensures IsPr(a, s) ==> a[s].state == b[s].state
      ensures s in a && !a[s].state.Open? ==> s in b && !b[s].state.Open?
    {
      assert Lookup(b, s) == Lookup(a, s);
    }
  }

  lemma AgreeConfirms(evidence: map<int, Evidence>, base: nat, rows: seq<PlanRow>, k: nat)
    requires k <= |rows| && Agree(evidence, base, rows, k) && ConfirmedUpTo(evidence, base)
    ensures ConfirmedUpTo(evidence, base + k)
  {}

  /** Rows keep a number once they hold one, as long as the space keeps its promise on both sides. */
  lemma NumbersStay(a: Space, b: Space)
    requires SpaceInv(a) && |a.rows| == |b.rows| && a.headSeq <= b.headSeq
    requires forall s :: 1 <= s <= |b.rows| ==> RowAsPromised(b, s)
    requires EvidenceEvolves(a.evidence, b.evidence)
    requires forall s :: s <= a.headSeq ==> Lookup(b.evidence, s) == Lookup(a.evidence, s)
    ensures Evolves(a, b)
    ensures forall s :: s in b.evidence ==> b.evidence[s].version >= 1
  {
    forall i | 0 <= i < |a.rows| && a.rows[i].number.Some?
      ensures b.rows[i].number == a.rows[i].number
    {
      assert RowAsPromised(a, i + 1) && RowAsPromised(b, i + 1);
      assert Lookup(b.evidence, i + 1) == Lookup(a.evidence, i + 1);
      PrCountSame(a.evidence, b.evidence, i + 1);
    }
  }

  // ----- The recovery write -----

  lemma {:induction false} PrCountGap(evidence: map<int, Evidence>, low: nat, high: nat) returns (s: nat)
    requires low <= high
    ensures PrCount(evidence, low) <= PrCount(evidence, high)
    ensures PrCount(evidence, low) < PrCount(evidence, high) ==> low < s <= high && IsPr(evidence, s)
    ensures PrCount(evidence, low) == PrCount(evidence, high) ==> forall t :: low < t <= high ==> !IsPr(evidence, t)
  {
    s := 0;
    if low < high {
      s := PrCountGap(evidence, low, high - 1);
      if IsPr(evidence, high) {
        s := high;
      }
    }
  }

  /** The round's checkpoint number is still the space's: no pull-request row was walked over in between. */
  predicate NumberUnmoved(space: Space, round: Round)
    requires round.Recovering?
  {
    space.epoch != round.epoch || space.headNumber == round.headNumber
  }

  /**
   The recovery write keeps the space invariant exactly when the checkpoint number has not moved since
   the round read it. Its only guard is the epoch, so the code does not check that.
   */
  lemma RecoveryKeepsIff(space: Space, round: Round)
    requires SpaceInv(space) && round.Recovering? && RoundInv(space, round)
    ensures SpaceInv(RecoverRound(space, round)) <==> NumberUnmoved(space, round)
  {
    var after := RecoverRound(space, round);
    if space.epoch == round.epoch {
      hide PrCount;
      var low, high := if round.headSeq < space.headSeq then round.headSeq else space.headSeq,
                       if round.headSeq < space.headSeq then space.headSeq else round.headSeq;
      var gap := PrCountGap(space.evidence, low, high);
      if space.headNumber == round.headNumber {
        forall s | 1 <= s <= |after.rows|
          ensures RowAsPromised(after, s)
        {
          assert RowAsPromised(space, s);
        }
        NoPrTwiceDown(space, round, low, high);
      } else {
        assert RowAsPromised(space, gap);
        assert !RowAsPromised(after, gap);
      }
    }
  }

  lemma NoPrTwiceDown(space: Space, round: Round, low: nat, high: nat)
    requires NoPrTwice(space.evidence, space.headSeq)
    requires low <= high && (space.headSeq == low || space.headSeq == high)
    requires forall t :: low < t <= high ==> !IsPr(space.evidence, t)
    ensures NoPrTwice(space.evidence, low) && NoPrTwice(space.evidence, high)
  {}

  // ----- Every step, every run -----

  /** Numbers once given stay, as long as the epoch does. */
  ghost predicate NumbersKept(a: Space, b: Space) {
    a.epoch == b.epoch ==>
      && |a.rows| <= |b.rows|
      && forall s :: 0 <= s < |a.rows| && a.rows[s].number.Some? ==> b.rows[s].number == a.rows[s].number
  }

  ghost predicate RecoversInPlace(w: World, e: Event) {
    e.Recover? && RoundOf(w, e.id).Recovering? ==> NumberUnmoved(w.space, RoundOf(w, e.id))
  }

  /** What a step other than a recovery or an epoch bump does to the space. */
  lemma SpaceStep(w: World, e: Event)
    requires Inv(w) && Enabled(w, e) && !e.Recover? && !e.BumpEpoch?
    ensures
      var after := Apply(w, e).space;
      SpaceInv(after) && after.epoch == w.space.epoch && Evolves(w.space, after)
  {
    var space, after := w.space, Apply(w, e).space;
    match e
    case Commit(id, budget) =>
      hide SpaceInv, Evolves, RoundInv, CommitRound;
      CommitKeepsSpace(space, RoundOf(w, id), budget);
    case ExternalEvidence(s, state) =>
      hide PrCount, CommitRound;
      PrCountSame(space.evidence, after.evidence, space.headSeq);
      PrsDistinctSame(space.evidence, after.evidence, space.headSeq);
      forall t | 1 <= t <= |after.rows|
        ensures RowAsPromised(after, t)
      {
        assert RowAsPromised(space, t);
        if t <= space.headSeq {
          PrCountSame(space.evidence, after.evidence, t);
        }
      }
    case AppendRow(_, _) =>
      hide PrCount, CommitRound;
      forall t | 1 <= t <= |after.rows|
        ensures RowAsPromised(after, t)
      {
        assert t <= |space.rows| ==> RowAsPromised(space, t);
      }
    case FillHint(s, pr) =>
      hide PrCount, CommitRound;
      forall t | 1 <= t <= |after.rows|
        ensures RowAsPromised(after, t)
      {
        assert RowAsPromised(space, t);
      }
    case _ =>
  }

  /** A round that is not the one stepping, or that steps without touching the space. */
  lemma RoundsStep(w: World, e: Event)
    requires Inv(w) && Enabled(w, e)
    requires !e.Recover? && !e.BumpEpoch?
    requires Apply(w, e).space.epoch == w.space.epoch && Evolves(w.space, Apply(w, e).space)
    ensures forall id :: id in Apply(w, e).rounds ==> RoundInv(Apply(w, e).space, Apply(w, e).rounds[id])
  {
    hide Evolves, SpaceInv, CommitRound, PrCount, MayDecide, LookupMayAnswer;
    var after := Apply(w, e);
    forall id | id in after.rounds
      ensures RoundInv(after.space, after.rounds[id])
    {
      if id in w.rounds && after.rounds[id] == w.rounds[id] {
        RoundEvolves(w.space, after.space, w.rounds[id]);
      } else {
        assert after.rounds[id] == Idle || after.rounds[id] == OwnNext(w, e);
        if after.rounds[id] != Idle {
          OwnRound(w, e);
          RoundEvolves(w.space, after.space, OwnNext(w, e));
        }
      }
    }
  }

  /** The stepping round's own next state. */
  function OwnNext(w: World, e: Event): Round
    requires Enabled(w, e)
  {
    if e.Begin? || e.Load? || e.Resolve? || e.Commit? then RoundOf(Apply(w, e), e.id) else Idle
  }

  lemma OwnRound(w: World, e: Event)
    requires Inv(w) && Enabled(w, e)
    ensures RoundInv(w.space, OwnNext(w, e))
  {
    hide PrCount, CommitRound;
    if e.Resolve? && w.space.epoch == RoundOf(w, e.id).epoch {
      var round, next := RoundOf(w, e.id), OwnNext(w, e);
      forall i | 0 <= i < |next.decisions|
        ensures MayDecide(Lookup(next.existing, next.headSeq + i + 1), next.decisions[i])
      {
        assert LookupMayAnswer(Lookup(w.space.evidence, round.headSeq + i + 1), e.answers[i]);
      }
    }
  }

  /** Every step keeps the invariant and every number, recoveries under the exact condition above. */
  lemma StepKeepsInv(w: World, e: Event)
    requires Inv(w) && Enabled(w, e) && RecoversInPlace(w, e)
    ensures Inv(Apply(w, e)) && NumbersKept(w.space, Apply(w, e).space)
  {
    if e.Recover? {
      hide PrCount;
      RecoveryKeepsIff(w.space, RoundOf(w, e.id));
    } else if e.BumpEpoch? {
      hide CommitRound;
    } else {
      hide SpaceInv, RoundInv, Enabled, Apply;
      SpaceStep(w, e);
      RoundsStep(w, e);
    }
  }

  ghost predicate RunOk(w: World, events: seq<Event>)
    decreases |events|
  {
    events != [] ==> Enabled(w, events[0]) && RecoversInPlace(w, events[0]) && RunOk(Apply(w, events[0]), events[1..])
  }

  function Final(w: World, events: seq<Event>): World
    requires RunOk(w, events)
    decreases |events|
  {
    if events == [] then w else Final(Apply(w, events[0]), events[1..])
  }

  ghost predicate Fresh(w: World) {
    w.space.rows == [] && w.space.evidence == map[] && w.space.headSeq == 0 && w.space.headNumber == 0 && w.rounds == map[]
  }

  lemma {:induction false} RunKeepsInv(w: World, events: seq<Event>)
    requires Inv(w) && RunOk(w, events)
    ensures Inv(Final(w, events))
    ensures w.space.epoch <= Final(w, events).space.epoch
    ensures NumbersKept(w.space, Final(w, events).space)
    decreases |events|
  {
    if events != [] {
      hide Inv, Enabled, Apply;
      StepKeepsInv(w, events[0]);
      EpochGrows(w, events[0]);
      RunKeepsInv(Apply(w, events[0]), events[1..]);
    }
  }

  lemma EpochGrows(w: World, e: Event)
    requires Enabled(w, e)
    ensures w.space.epoch <= Apply(w, e).space.epoch
  {}

  /**
   Over every run from an empty space: a row holds number n exactly when the checkpoint has passed it, it is
   confirmed as a pull request, and n counts the pull-request rows up to it; the number belongs to that pull
   request, no pull request holds two, and the rest of any longer run in the same epoch changes none of them.
   */
  lemma RunsKeepNumbers(start: World, events: seq<Event>, more: seq<Event>)
    requires Fresh(start) && RunOk(start, events) && RunOk(Final(start, events), more)
    ensures
      var space := Final(start, events).space;
      && space.headSeq <= |space.rows|
      && space.headNumber == PrCount(space.evidence, space.headSeq)
      && (forall s, n :: NumberAt(space, s) == Some(n) <==>
            1 <= s <= space.headSeq && IsPr(space.evidence, s) && n == PrCount(space.evidence, s))
      && (forall s :: NumberAt(space, s).Some? ==> s in space.evidence && space.evidence[s].state.Pr? &&
                                                   PrAt(space, s) == Some(space.evidence[s].state.pr))
      && (forall s, t :: s < t && NumberAt(space, s).Some? && NumberAt(space, t).Some? ==> PrAt(space, s) != PrAt(space, t))
      && NumbersKept(space, Final(Final(start, events), more).space)
  {
    RunKeepsInv(start, events);
    RunKeepsInv(Final(start, events), more);
    var space := Final(start, events).space;
    forall s
      ensures 1 <= s <= |space.rows| ==> RowAsPromised(space, s)
      ensures NumberAt(space, s).Some? ==> 1 <= s <= space.headSeq && IsPr(space.evidence, s)
    {}
  }

  // ----- What happens when the recovery write does find the checkpoint moved -----

  ghost predicate Legal(w: World, events: seq<Event>)
    decreases |events|
  {
    events != [] ==> Enabled(w, events[0]) && Legal(Apply(w, events[0]), events[1..])
  }

  function After(w: World, events: seq<Event>): World
    requires Legal(w, events)
    decreases |events|
  {
    if events == [] then w else After(Apply(w, events[0]), events[1..])
  }

  /** The space keeps its promise about rows, numbers and pull requests at every moment of the run. */
  ghost predicate AlwaysPromised(w: World, events: seq<Event>)
    requires Legal(w, events)
    decreases |events|
  {
    SpaceInv(w.space) && (events != [] ==> AlwaysPromised(Apply(w, events[0]), events[1..]))
  }

  ghost predicate AlwaysInPlace(w: World, events: seq<Event>)
    requires Legal(w, events)
    decreases |events|
  {
    events != [] ==> RecoversInPlace(w, events[0]) && AlwaysInPlace(Apply(w, events[0]), events[1..])
  }

  lemma MovedRecoveryBreaks(w: World, e: Event)
    requires Inv(w) && Enabled(w, e) && !RecoversInPlace(w, e)
    ensures !SpaceInv(Apply(w, e).space)
  {
    hide SpaceInv, RoundInv, NumberUnmoved;
    RecoveryKeepsIff(w.space, RoundOf(w, e.id));
  }

  lemma NotPromisedNow(w: World, events: seq<Event>)
    requires Legal(w, events) && !SpaceInv(w.space)
    ensures !AlwaysPromised(w, events)
  {}

  lemma SpaceOf(w: World)
    requires Inv(w)
    ensures SpaceInv(w.space)
  {}

  lemma {:induction false} PromisedIff(w: World, events: seq<Event>)
    requires Inv(w) && Legal(w, events)
    ensures AlwaysPromised(w, events) <==> AlwaysInPlace(w, events)
    ensures AlwaysInPlace(w, events) <==> RunOk(w, events)
    decreases |events|
  {
    hide Inv, SpaceInv, Enabled, Apply, RecoversInPlace;
    SpaceOf(w);
    if events != [] {
      if RecoversInPlace(w, events[0]) {
        StepKeepsInv(w, events[0]);
        PromisedIff(Apply(w, events[0]), events[1..]);
      } else {
        MovedRecoveryBreaks(w, events[0]);
        NotPromisedNow(Apply(w, events[0]), events[1..]);
      }
    }
  }

  /**
   Over every legal run from an empty space, recoveries included: the promise holds throughout exactly if every
   recovery finds the checkpoint number it read, and exactly those are the runs of `RunsKeepNumbers`.
   */
  lemma PromiseKeptIff(start: World, events: seq<Event>)
    requires Fresh(start) && Legal(start, events)
    ensures AlwaysPromised(start, events) <==> AlwaysInPlace(start, events)
    ensures AlwaysInPlace(start, events) <==> RunOk(start, events)
  {
    PromisedIff(start, events);
  }

  const START := World(Space(0, [], map[], 0, 0, None), map[])
  const ANSWERS: seq<Finding> := [ConfirmedPr(5, 0), ConfirmedPr(6, 0)]
  const STORED: map<int, Evidence> := map[1 := Evidence(Pr(5, 0), 1), 2 := Evidence(Pr(6, 0), 1)]
  const BLANK := Row(None, None, 0)
  const HINTED := Row(Some(9), None, 0)

  /** A hint arrives between a round's read and its commit, and another round commits before the first recovers. */
  const READS: seq<Event> := [
    AppendRow(None, 0), AppendRow(None, 0),
    Begin(1), Load(1, 2), Resolve(1, ANSWERS, None, 0),
    FillHint(2, 9),
    Begin(2), Load(2, 2), Resolve(2, ANSWERS, None, 0)]
  const WRITES: seq<Event> := [
    Commit(1, NO_BUDGET),   // refused: row 2 now belongs to pull request 9
    Commit(2, NO_BUDGET),   // numbers row 1 and blocks at row 2
    Recover(1)]             // puts the checkpoint back in front of row 1

  const VIEW1 := Resolved(0, 0, 0, [BLANK, BLANK], map[], ANSWERS)
  const VIEW2 := Resolved(0, 0, 0, [BLANK, HINTED], map[], ANSWERS)
  const BEFORE := Space(0, [BLANK, HINTED], map[], 0, 0, None)

  lemma StoresBoth()
    ensures Store(map[], map[], 0, ANSWERS, 0) == Stored(STORED, ANSWERS)
  {
    var once: map<int, Evidence> := map[1 := Evidence(Pr(5, 0), 1)];
    assert StoreOne(map[], 1, ANSWERS[0]) == Some(once);
    assert StoreOne(once, 2, ANSWERS[1]) == Some(STORED);
    assert Store(STORED, map[], 0, ANSWERS, 2) == Stored(STORED, ANSWERS);
    assert Store(once, map[], 0, ANSWERS, 1) == Stored(STORED, ANSWERS);
  }

  const ONE := [Assignment(1, 5, 1, Some(0))]
  const TWO := [Assignment(1, 5, 1, Some(0)), Assignment(2, 6, 2, Some(0))]

  lemma PlanOfFirstView()
    ensures Plan(PlanInputOf(BEFORE.(evidence := STORED), VIEW1, ANSWERS), NO_BUDGET) ==
            Planned(PlanResult(TWO, 2, 2, None, 0, 0, false))
  {
    var input := PlanInputOf(BEFORE.(evidence := STORED), VIEW1, ANSWERS);
    assert RowVerdict(input, NO_BUDGET, 0) == Pass;
    assert ScanAt(input, 1) == Advance(ScanAt(input, 0), input.rows[0]);
    assert RowVerdict(input, NO_BUDGET, 1) == Pass;
    assert ScanAt(input, 2) == Advance(ScanAt(input, 1), input.rows[1]);
    StopIndexIs(input, NO_BUDGET, 0, 2);
  }

  lemma PlanOfSecondView()
    ensures Plan(PlanInputOf(BEFORE.(evidence := STORED), VIEW2, ANSWERS), NO_BUDGET) ==
            Planned(PlanResult(ONE, 1, 1, Some(Block(2, CanonicalMismatch)), 0, 0, false))
  {
    var input := PlanInputOf(BEFORE.(evidence := STORED), VIEW2, ANSWERS);
    assert RowVerdict(input, NO_BUDGET, 0) == Pass;
    assert ScanAt(input, 1) == Advance(ScanAt(input, 0), input.rows[0]);
    assert RowVerdict(input, NO_BUDGET, 1) == Stop(CanonicalMismatch);
    StopIndexIs(input, NO_BUDGET, 0, 1);
  }

  lemma FirstCommitIsRefused()
    ensures CommitRound(BEFORE, VIEW1, NO_BUDGET) == (BEFORE, Mismatched(1))
  {
    hide Plan, PlanInputOf, Store;
    StoresBoth();
    PlanOfFirstView();
    assert TWO[..1] == ONE;
    assert Written(BEFORE.rows, ONE) == 1;
  }

  lemma SecondCommitNumbersOneRow()
    ensures CommitRound(BEFORE, VIEW2, NO_BUDGET) ==
            (Space(0, [Row(Some(5), Some(1), 0), HINTED], STORED, 1, 1, Some(Block(2, CanonicalMismatch))), Done)
  {
    hide Plan, PlanInputOf, Store;
    StoresBoth();
    PlanOfSecondView();
    assert Written(BEFORE.rows, ONE) == 1;
    assert WriteNumbers(BEFORE.rows, ONE) == [Row(Some(5), Some(1), 0), HINTED];
  }

  lemma FirstRoundReads()
    ensures Legal(START, READS[..5])
    ensures After(START, READS[..5]) == World(Space(0, [BLANK, BLANK], map[], 0, 0, None), map[1 := VIEW1])
  {
    hide CommitRound;
    var rows := [BLANK, BLANK];
    var w1 := World(Space(0, [BLANK], map[], 0, 0, None), map[]);
    var w2 := World(Space(0, rows, map[], 0, 0, None), map[]);
    assert Apply(START, READS[0]) == w1 && Apply(w1, READS[1]) == w2;
    var w3 := w2.(rounds := map[1 := Began(0, 0, 0)]);
    assert Apply(w2, READS[2]) == w3;
    assert rows[0..2] == rows;
    var w4 := w2.(rounds := map[1 := Loaded(0, 0, 0, rows)]);
    assert Apply(w3, READS[3]) == w4;
    assert Decisions(w4.rounds[1], ANSWERS, None, 0) == ANSWERS;
    var w5 := w2.(rounds := map[1 := VIEW1]);
    assert Enabled(w4, READS[4]) && Apply(w4, READS[4]) == w5;
    LegalSteps(START, READS[..5], [w1, w2, w3, w4, w5]);
  }

  lemma SecondRoundReads()
    ensures
      var w5 := World(Space(0, [BLANK, BLANK], map[], 0, 0, None), map[1 := VIEW1]);
      Legal(w5, READS[5..]) && After(w5, READS[5..]) == World(BEFORE, map[1 := VIEW1, 2 := VIEW2])
  {
    hide CommitRound;
    var w5 := World(Space(0, [BLANK, BLANK], map[], 0, 0, None), map[1 := VIEW1]);
    var w6 := World(BEFORE, w5.rounds);
    assert Apply(w5, READS[5]) == w6;
    var w7 := w6.(rounds := map[1 := VIEW1, 2 := Began(0, 0, 0)]);
    assert Apply(w6, READS[6]) == w7;
    assert BEFORE.rows[0..2] == BEFORE.rows;
    var w8 := w6.(rounds := map[1 := VIEW1, 2 := Loaded(0, 0, 0, BEFORE.rows)]);
    assert Apply(w7, READS[7]) == w8;
    assert Decisions(w8.rounds[2], ANSWERS, None, 0) == ANSWERS;
    var w9 := World(BEFORE, map[1 := VIEW1, 2 := VIEW2]);
    assert Enabled(w8, READS[8]) && Apply(w8, READS[8]) == w9;
    LegalSteps(w5, READS[5..], [w6, w7, w8, w9]);
  }

  lemma ReadsReach()
    ensures Legal(START, READS)
    ensures After(START, READS) == World(BEFORE, map[1 := VIEW1, 2 := VIEW2])
  {
    hide Enabled, Apply;
    FirstRoundReads();
    SecondRoundReads();
    LegalAppend(START, READS[..5], READS[5..]);
    assert READS[..5] + READS[5..] == READS;
  }

  /** A list of worlds, each the result of the next event, is the run. */
  lemma {:induction false} LegalSteps(w: World, events: seq<Event>, worlds: seq<World>)
    requires |worlds| == |events| > 0
    requires Enabled(w, events[0]) && worlds[0] == Apply(w, events[0])
    requires forall i :: 1 <= i < |events| ==> Enabled(worlds[i - 1], events[i]) && worlds[i] == Apply(worlds[i - 1], events[i])
    ensures Legal(w, events) && After(w, events) == worlds[|worlds| - 1]
    decreases |events|
  {
    hide Enabled, Apply;
    if |events| > 1 {
      assert forall i :: 1 <= i < |events[1..]| ==> worlds[1..][i - 1] == worlds[i] && events[1..][i] == events[i + 1];
      LegalSteps(worlds[0], events[1..], worlds[1..]);
    } else {
      assert events[1..] == [];
    }
  }

  const NUMBERED := Space(0, [Row(Some(5), Some(1), 0), HINTED], STORED, 1, 1, Some(Block(2, CanonicalMismatch)))
  const UNDONE := NUMBERED.(headSeq := 0, headNumber := 0, blocked := Some(Block(1, CanonicalMismatch)))

  lemma WritesReach()
    ensures
      var w9 := World(BEFORE, map[1 := VIEW1, 2 := VIEW2]);
      Legal(w9, WRITES) && After(w9, WRITES) == World(UNDONE, map[1 := Idle, 2 := Idle])
  {
    hide CommitRound;
    FirstCommitIsRefused();
    SecondCommitNumbersOneRow();
    var w9 := World(BEFORE, map[1 := VIEW1, 2 := VIEW2]);
    var w10 := World(BEFORE, map[1 := Recovering(0, 0, 0, 1), 2 := VIEW2]);
    assert Apply(w9, WRITES[0]) == w10;
    var w11 := World(NUMBERED, map[1 := Recovering(0, 0, 0, 1), 2 := Idle]);
    assert Apply(w10, WRITES[1]) == w11;
    var w12 := World(UNDONE, map[1 := Idle, 2 := Idle]);
    assert Apply(w11, WRITES[2]) == w12;
    LegalSteps(w9, WRITES, [w10, w11, w12]);
  }

  /** A legal run after which row 1 holds number 1 although the checkpoint is back at 0. */
  lemma RecoveryCanUndoACheckpoint()
    ensures Legal(START, READS + WRITES) && Fresh(START)
    ensures
      var space := After(START, READS + WRITES).space;
      space.headSeq == 0 && NumberAt(space, 1) == Some(1) && !SpaceInv(space)
  {
    hide Enabled, Apply;
    ReadsReach();
    WritesReach();
    LegalAppend(START, READS, WRITES);
    assert !RowAsPromised(UNDONE, 1);
  }

  lemma {:induction false} LegalAppend(w: World, first: seq<Event>, second: seq<Event>)
    requires Legal(w, first) && Legal(After(w, first), second)
    ensures Legal(w, first + second) && After(w, first + second) == After(After(w, first), second)
    decreases |first|
  {
    hide Enabled, Apply;
    if first == [] {
      assert first + second == second;
    } else {
      LegalAppend(Apply(w, first[0]), first[1..], second);
      assert (first + second)[1..] == first[1..] + second;
    }
  }

  /**
   After such a write the space is stuck: the next row already holds a number, so its pull request counts as
   numbered, and every later round with a true view of that row stops right there again.
   */
  lemma UndoneCheckpointIsStuck(space: Space, round: Round, budget: Budget)
    requires round.Resolved? && space.epoch == round.epoch && space.headSeq == round.headSeq
    requires space.headSeq < |space.rows| && round.rows != [] && round.rows[0] == space.rows[space.headSeq]
    requires round.rows[0].number.Some? && round.rows[0].pr.Some?
    ensures CommitRound(space, round, budget).0.headSeq == space.headSeq
    ensures CommitRound(space, round, budget).0.rows == space.rows
  {
    var stored := Store(space.evidence, round.existing, round.headSeq, round.decisions, 0);
    if stored.Stored? {
      var input := PlanInputOf(space.(evidence := stored.evidence), round, stored.decisions);
      assert space.rows[space.headSeq] in space.rows;
      assert RowVerdict(input, budget, 0) != Pass;
      StopIndexIs(input, budget, 0, 0);
    }
  }
}
