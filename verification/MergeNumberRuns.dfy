/**
 Whole runs of the merge-number allocator.

 Any number of reconcilers work on one sequence space.  Each round reads the checkpoint, the next rows
 and their evidence at different moments, looks the missing evidence up, and then re-checks under the
 space lock before it commits.  Rows, pull-request hints, evidence and epochs move in between.

 Assumed of the store: the locked transaction is atomic, and an evidence writer outside the
 reconcilers never overwrites a confirmed row (`ExternalEvidence`).
 */
module MergeNumberRuns {
  import opened Wrappers
  import opened MergeNumberPlan

  // ----- Store -----

  datatype Row = Row(pr: Option<int>, number: Option<int>, committedAt: int)

  /** `Direct` carries the operator attestation that let the row pass; `None` when it was injected by hand. */
  datatype EvidenceState = Open(reason: BlockReason) | Pr(pr: int, mergedAt: int) | Direct(attestation: Option<int>)
  datatype Evidence = Evidence(state: EvidenceState, version: nat)

  /** Rows are numbered from 1; evidence is keyed by that ordinal and is absent until something is known. */
  datatype Space = Space(
    epoch: nat, rows: seq<Row>, evidence: map<int, Evidence>, headSeq: nat, headNumber: nat, blocked: Option<Block>)

  function VersionOf(evidence: map<int, Evidence>, s: int): nat {
    if s in evidence then evidence[s].version else 0
  }

  /** The store's own last guard: a confirmed row is never taken back to open. */
  function Upsert(evidence: map<int, Evidence>, s: int, state: EvidenceState): Option<map<int, Evidence>> {
    if s in evidence && !evidence[s].state.Open? && state.Open? then None
    else Some(evidence[s := Evidence(state, VersionOf(evidence, s) + 1)])
  }

  // ----- Evidence for one row -----

  /** What a lookup answers. `ConfirmedDirect(None)` repeats a stored confirmation and stores nothing. */
  datatype Finding = ConfirmedPr(pr: int, mergedAt: int) | ConfirmedDirect(attestation: Option<int>) | NotResolved(reason: BlockReason)

  /**
   What a lookup may answer over stored evidence: a confirmation is repeated unasked, and absence of a
   pull request is never concluded from a lookup alone.
   */
  predicate LookupMayAnswer(existing: Option<Evidence>, finding: Finding) {
    if existing.Some? && existing.value.state.Pr? then
      finding == ConfirmedPr(existing.value.state.pr, existing.value.state.mergedAt)
    else if existing.Some? && existing.value.state.Direct? then finding == ConfirmedDirect(None)
    else !finding.ConfirmedDirect?
  }

  datatype Attestation = Attestation(id: int, throughSeq: Option<int>, graceSeconds: int)
  datatype AttestationVerdict = NotApplicable | GracePending(readyAt: int) | Attested(finding: Finding)

  predicate Attestable(reason: BlockReason) {
    reason == NegativeEvidenceUnavailable || reason == UnsupportedMergeProfile
  }

  function ApplyAttestation(attestation: Attestation, finding: Finding, mergeSeq: int, committedAt: int, now: int): AttestationVerdict {
    if !finding.NotResolved? then NotApplicable
    else if !Attestable(finding.reason) then NotApplicable
    else if attestation.throughSeq.Some? && mergeSeq > attestation.throughSeq.value then NotApplicable
    else
      var readyAt := committedAt + attestation.graceSeconds * 1000;
      if now < readyAt then GracePending(readyAt) else Attested(ConfirmedDirect(Some(attestation.id)))
  }

  /** The decision a round keeps for a row: the lookup's answer, lifted by the attestation where that applies. */
  predicate MayDecide(existing: Option<Evidence>, decision: Finding) {
    || LookupMayAnswer(existing, decision)
    || (decision.ConfirmedDirect? && decision.attestation.Some? && (existing.None? || existing.value.state.Open?))
  }

  // ----- One round -----

  datatype Round =
    | Idle
    | Began(epoch: nat, headSeq: nat, headNumber: nat)
    | Loaded(epoch: nat, headSeq: nat, headNumber: nat, rows: seq<Row>)
    | Resolved(epoch: nat, headSeq: nat, headNumber: nat, rows: seq<Row>,
               existing: map<int, Evidence>, decisions: seq<Finding>)
    | Recovering(epoch: nat, headSeq: nat, headNumber: nat, firstSeq: int)

  datatype CommitOutcome = Done | Retry | Failed | Mismatched(firstSeq: int)

  function Lookup(evidence: map<int, Evidence>, s: int): Option<Evidence> {
    if s in evidence then Some(evidence[s]) else None
  }

  predicate SameVersion(a: map<int, Evidence>, b: map<int, Evidence>, s: int) {
    VersionOf(a, s) == VersionOf(b, s)
  }

  /** Some row the round decided has new evidence since the round read it. */
  predicate EvidenceMoved(space: Space, round: Round)
    requires round.Resolved?
  {
    exists s | round.headSeq < s <= round.headSeq + |round.decisions| :: !SameVersion(round.existing, space.evidence, s)
  }

  datatype Stored = Stored(evidence: map<int, Evidence>, decisions: seq<Finding>) | Downgrade

  /** Store the decisions from row `i` on; a different confirmation turns into a conflict and stops. */
  function Store(evidence: map<int, Evidence>, existing: map<int, Evidence>, base: nat, decisions: seq<Finding>, i: nat): Stored
    requires i <= |decisions|
    decreases |decisions| - i
  {
    if i == |decisions| then Stored(evidence, decisions)
    else
      var s, decision := base + i + 1, decisions[i];
      var prior := Lookup(existing, s);
      if decision.ConfirmedPr? && prior.Some? && prior.value.state.Pr? && prior.value.state.pr != decision.pr then
        Stored(evidence, decisions[i := NotResolved(MappingConflict)])
      else
        var written := StoreOne(evidence, s, decision);
        if written.None? then Downgrade
        else if decision.NotResolved? then Stored(written.value, decisions)
        else Store(written.value, existing, base, decisions, i + 1)
  }

  function StoreOne(evidence: map<int, Evidence>, s: int, decision: Finding): Option<map<int, Evidence>> {
    match decision
    case ConfirmedPr(pr, mergedAt) => Upsert(evidence, s, Pr(pr, mergedAt))
    case ConfirmedDirect(None) => Some(evidence)
    case ConfirmedDirect(Some(id)) => Upsert(evidence, s, Direct(Some(id)))
    case NotResolved(reason) => Upsert(evidence, s, Open(reason))
  }

  function ToPlanRow(mergeSeq: int, row: Row, decision: Option<Finding>): PlanRow {
    match decision
    case None => PlanRow(mergeSeq, Unresolved, None, Some(PrEvidencePending), row.number, row.pr, None)
    case Some(ConfirmedPr(pr, mergedAt)) => PlanRow(mergeSeq, PrConfirmed, Some(pr), None, row.number, row.pr, Some(mergedAt))
    case Some(ConfirmedDirect(_)) => PlanRow(mergeSeq, DirectConfirmed, None, None, row.number, row.pr, None)
    case Some(NotResolved(reason)) => PlanRow(mergeSeq, Unresolved, None, Some(reason), row.number, row.pr, None)
  }

  function PlanRows(base: nat, rows: seq<Row>, decisions: seq<Finding>): seq<PlanRow> {
    seq(|rows|, i requires 0 <= i < |rows| =>
      ToPlanRow(base + i + 1, rows[i], if i < |decisions| then Some(decisions[i]) else None))
  }

  /** Pull requests that hold a number in the current epoch. */
  function NumberedPrs(rows: seq<Row>): set<int> {
    set row | row in rows && row.number.Some? && row.pr.Some? :: row.pr.value
  }

  /** Merge time of the last row at or below `s` confirmed as a pull request. */
  function LastConfirmedMergedAt(evidence: map<int, Evidence>, s: nat): Option<int> {
    if s == 0 then None
    else if s in evidence && evidence[s].state.Pr? then Some(evidence[s].state.mergedAt)
    else LastConfirmedMergedAt(evidence, s - 1)
  }

  predicate Accepts(rows: seq<Row>, a: Assignment) {
    && 1 <= a.mergeSeq <= |rows|
    && (var row := rows[a.mergeSeq - 1];
        && (row.pr.None? || row.pr.value == a.prNumber)
        && (row.number.None? || row.number.value == a.mergeNumber))
  }

  /** The guarded update: rows whose pull request and number do not contradict the assignment take it. */
  function WriteNumbers(rows: seq<Row>, assignments: seq<Assignment>): (written: seq<Row>)
    ensures |written| == |rows|
  {
    if assignments == [] then rows
    else
      var a := assignments[|assignments| - 1];
      var before := WriteNumbers(rows, assignments[..|assignments| - 1]);
      if Accepts(rows, a)
      then before[a.mergeSeq - 1 := before[a.mergeSeq - 1].(pr := Some(a.prNumber), number := Some(a.mergeNumber))]
      else before
  }

  function Written(rows: seq<Row>, assignments: seq<Assignment>): nat {
    if assignments == [] then 0
    else Written(rows, assignments[..|assignments| - 1]) + if Accepts(rows, assignments[|assignments| - 1]) then 1 else 0
  }

  function PlanInputOf(space: Space, round: Round, decisions: seq<Finding>): PlanInput
    requires round.Resolved?
  {
    PlanInput(round.headSeq, round.headNumber, PlanRows(round.headSeq, round.rows, decisions),
              LastConfirmedMergedAt(space.evidence, round.headSeq), NumberedPrs(space.rows))
  }

  /** The locked transaction of one round. Nothing changes unless the outcome is `Done`. */
  function CommitRound(space: Space, round: Round, budget: Budget): (r: (Space, CommitOutcome))
    requires round.Resolved?
  {
    if space.epoch != round.epoch || space.headSeq != round.headSeq then (space, Retry)
    else if EvidenceMoved(space, round) then (space, Retry)
    else match Store(space.evidence, round.existing, round.headSeq, round.decisions, 0)
      case Downgrade => (space, Failed)
      case Stored(evidence, decisions) =>
        match Plan(PlanInputOf(space.(evidence := evidence), round, decisions), budget)
        case PlanInputError => (space, Failed)
        case Planned(plan) =>
          if Written(space.rows, plan.assignments) != |plan.assignments| then
            (space, Mismatched(if plan.assignments == [] then round.headSeq + 1 else plan.assignments[0].mergeSeq))
          else if plan.nextHeadSeq < 0 || plan.nextHeadNumber < 0 then (space, Failed)  // a plan never goes below 0
          else
            (space.(evidence := evidence, rows := WriteNumbers(space.rows, plan.assignments),
                    headSeq := plan.nextHeadSeq, headNumber := plan.nextHeadNumber, blocked := plan.blocked), Done)
  }

  /** The separate write after a mismatch, made once the lock is gone and guarded by the epoch only. */
  function RecoverRound(space: Space, round: Round): Space
    requires round.Recovering?
  {
    if space.epoch != round.epoch then space
    else space.(headSeq := round.headSeq, headNumber := round.headNumber,
                blocked := Some(Block(round.firstSeq, CanonicalMismatch)))
  }

  /** The space as the store holds it; one method call is one locked transaction. */
  class SequenceSpace {
    var epoch: nat
    var rows: seq<Row>
    var evidence: map<int, Evidence>
    var headSeq: nat
    var headNumber: nat
    var blocked: Option<Block>

    function State(): Space
      reads this
    {
      Space(epoch, rows, evidence, headSeq, headNumber, blocked)
    }

    method Commit(round: Round, budget: Budget) returns (outcome: CommitOutcome)
      requires round.Resolved?
      modifies this
      ensures (State(), outcome) == CommitRound(old(State()), round, budget)
    {
      hide Plan, WriteNumbers, Written, StoreOne, LastConfirmedMergedAt, NumberedPrs;
      if epoch != round.epoch || headSeq != round.headSeq {
        return Retry;
      }
      var i := 0;
      while i < |round.decisions|
        invariant 0 <= i <= |round.decisions|
        invariant forall s | round.headSeq < s <= round.headSeq + i :: SameVersion(round.existing, evidence, s)
      {
        if VersionOf(round.existing, round.headSeq + i + 1) != VersionOf(evidence, round.headSeq + i + 1) {
          assert !SameVersion(round.existing, evidence, round.headSeq + i + 1);
          return Retry;
        }
        i := i + 1;
      }
      var stored, decisions := evidence, round.decisions;
      ghost var whole := Store(evidence, round.existing, round.headSeq, round.decisions, 0);
      var going := true;
      i := 0;
      while going && i < |decisions|
        invariant 0 <= i <= |decisions| == |round.decisions|
        invariant whole == if going then Store(stored, round.existing, round.headSeq, decisions, i) else Stored(stored, decisions)
        decreases |decisions| - i, going
      {
        var s, decision := round.headSeq + i + 1, decisions[i];
        var prior := Lookup(round.existing, s);
        if decision.ConfirmedPr? && prior.Some? && prior.value.state.Pr? && prior.value.state.pr != decision.pr {
          decisions := decisions[i := NotResolved(MappingConflict)];
          going := false;
        } else {
          var written := StoreOne(stored, s, decision);
          if written.None? {
            return Failed;
          }
          stored := written.value;
          if decision.NotResolved? {
            going := false;
          } else {
            i := i + 1;
          }
        }
      }
      assert whole == Stored(stored, decisions);
      var input := PlanInputOf(State().(evidence := stored), round, decisions);
      var planned := PlanMergeNumbers(input, budget);
      if planned.PlanInputError? {
        return Failed;
      }
      var plan := planned.plan;
      if Written(rows, plan.assignments) != |plan.assignments| {
        return Mismatched(if plan.assignments == [] then round.headSeq + 1 else plan.assignments[0].mergeSeq);
      }
      PlanNumbersDensely(input, budget);
      evidence := stored;
      rows := WriteNumbers(rows, plan.assignments);
      headSeq, headNumber, blocked := plan.nextHeadSeq, plan.nextHeadNumber, plan.blocked;
      return Done;
    }

    /** The write made after a mismatch, outside the transaction. */
    method Recover(round: Round)
      requires round.Recovering?
      modifies this
      ensures State() == RecoverRound(old(State()), round)
    {
      if epoch == round.epoch {
        headSeq, headNumber := round.headSeq, round.headNumber;
        blocked := Some(Block(round.firstSeq, CanonicalMismatch));
      }
    }
  }

  // ----- Runs -----

  datatype World = World(space: Space, rounds: map<nat, Round>)

  datatype Event =
    | AppendRow(hint: Option<int>, committedAt: int)
    | FillHint(s: int, pr: int)
    | BumpEpoch
    | ExternalEvidence(s: int, state: EvidenceState)
    | Begin(id: nat)
    | Load(id: nat, batch: nat)
    | Resolve(id: nat, answers: seq<Finding>, attestation: Option<Attestation>, now: int)
    | Commit(id: nat, budget: Budget)
    | Recover(id: nat)
    | Abandon(id: nat)

  function RoundOf(w: World, id: nat): Round {
    if id in w.rounds then w.rounds[id] else Idle
  }

  /** The decision kept for a lookup answer: the attestation lifts it where it applies. */
  function Decide(answer: Finding, attestation: Option<Attestation>, s: int, committedAt: int, now: int): Finding {
    if attestation.None? then answer
    else
      var verdict := ApplyAttestation(attestation.value, answer, s, committedAt, now);
      if verdict.Attested? then verdict.finding else answer
  }

  function Decisions(round: Round, answers: seq<Finding>, attestation: Option<Attestation>, now: int): seq<Finding>
    requires round.Loaded? && |answers| <= |round.rows|
  {
    seq(|answers|, i requires 0 <= i < |answers| =>
      Decide(answers[i], attestation, round.headSeq + i + 1, round.rows[i].committedAt, now))
  }

  /** Lookups go row by row and stop at the first row left open. */
  ghost predicate LookupRan(space: Space, round: Round, answers: seq<Finding>, attestation: Option<Attestation>, now: int)
    requires round.Loaded?
  {
    && |answers| <= |round.rows|
    && (var decisions := Decisions(round, answers, attestation, now);
        && (forall i :: 0 <= i < |answers| ==> LookupMayAnswer(Lookup(space.evidence, round.headSeq + i + 1), answers[i]))
        && (forall i :: 0 <= i < |answers| - 1 ==> !decisions[i].NotResolved?)
        && (|answers| < |round.rows| ==> answers != [] && decisions[|answers| - 1].NotResolved?))
  }

  ghost predicate Enabled(w: World, e: Event) {
    match e
    case AppendRow(_, _) => true
    case FillHint(s, _) => 1 <= s <= |w.space.rows|
    case BumpEpoch => true
    case ExternalEvidence(s, _) =>
      1 <= s <= |w.space.rows| && (s !in w.space.evidence || w.space.evidence[s].state.Open?)
    case Begin(id) => true
    case Load(id, _) => RoundOf(w, id).Began? && RoundOf(w, id).headSeq <= |w.space.rows|
    case Resolve(id, answers, attestation, now) =>
      && RoundOf(w, id).Loaded? && |answers| <= |RoundOf(w, id).rows|
      && (w.space.epoch == RoundOf(w, id).epoch ==> LookupRan(w.space, RoundOf(w, id), answers, attestation, now))
    case Commit(id, _) => RoundOf(w, id).Resolved?
    case Recover(id) => RoundOf(w, id).Recovering?
    case Abandon(id) => true
  }

  function MinNat(a: nat, b: nat): nat {
    if a < b then a else b
  }

  function Apply(w: World, e: Event): World
    requires Enabled(w, e)
  {
    var space := w.space;
    match e
    case AppendRow(hint, committedAt) => w.(space := space.(rows := space.rows + [Row(hint, None, committedAt)]))
    case FillHint(s, pr) =>
      var row := space.rows[s - 1];
      w.(space := space.(rows := space.rows[s - 1 := if row.pr.Some? then row else row.(pr := Some(pr))]))
    case BumpEpoch => w.(space := Space(space.epoch + 1, [], map[], 0, 0, None))
    case ExternalEvidence(s, state) =>
      w.(space := space.(evidence := space.evidence[s := Evidence(state, VersionOf(space.evidence, s) + 1)]))
    case Begin(id) => w.(rounds := w.rounds[id := Began(space.epoch, space.headSeq, space.headNumber)])
    case Load(id, batch) =>
      var round := RoundOf(w, id);
      // rows are read by epoch: after a bump the batch is empty and the round ends
      if space.epoch != round.epoch then w.(rounds := w.rounds[id := Idle])
      else
        var rows := space.rows[round.headSeq..MinNat(round.headSeq + batch, |space.rows|)];
        w.(rounds := w.rounds[id := Loaded(round.epoch, round.headSeq, round.headNumber, rows)])
    case Resolve(id, answers, attestation, now) =>
      var round := RoundOf(w, id);
      w.(rounds := w.rounds[id := Resolved(round.epoch, round.headSeq, round.headNumber, round.rows,
                                           if space.epoch == round.epoch then space.evidence else map[],
                                           Decisions(round, answers, attestation, now))])
    case Commit(id, budget) =>
      var round := RoundOf(w, id);
      var (after, outcome) := CommitRound(space, round, budget);
      World(after, w.rounds[id := match outcome
        case Mismatched(first) => Recovering(round.epoch, round.headSeq, round.headNumber, first)
        case _ => Idle])
    case Recover(id) => World(RecoverRound(space, RoundOf(w, id)), w.rounds[id := Idle])
    case Abandon(id) => w.(rounds := w.rounds[id := Idle])
  }
}
