/**
 One queued execution of the command-line executor: several executors and sweeps, cancellation, policy changes
 and the reclaim of executions whose executor stopped answering, all acting on one row.

 Assumed of the store: each conditional row update is atomic; the policy lock is shared by claims and exclusive
 for policy changes. Revalidation of the connection and of the arguments is one yes-or-no answer.

 Main results: `SpawnedAtMostOnce`, `ClaimedUnderAcceptedPolicy`, `EndedStaysEnded`, `NotStartedNeverRuns`,
 `StartedOnEndedIff`, `ReclaimedClaimStillSpawns`.
 */
module Executor {
  import opened Wrappers

  datatype State = Queued | Running(executor: nat) | Succeeded | Failed | Cancelled | TimedOut | PolicyBlocked

  predicate Terminal(state: State) {
    !state.Queued? && !state.Running?
  }

  /** `accepted` is the policy revision the request was accepted under. */
  datatype Row = Row(state: State, cancelRequested: bool, accepted: nat)

  /** The policy of the host: its revision, and whether it lets this capability run. */
  datatype Policy = Policy(revision: nat, open: bool)

  predicate Allowed(policy: Policy, row: Row) {
    policy.open && policy.revision == row.accepted
  }

  /** Of the checks before the claim, none of which holds a lock. */
  datatype Verdict = Passes | PolicyRefuses | Invalid | PolicyUnreadable

  /** Where one run of the runner stands; `executor` is the process it belongs to. */
  datatype Stage =
    | Picked(cancelSeen: bool)
    | Closing(reason: State)  // the first checks failed; the row is to be closed if it is still queued
    | Checked               // policy, connection and arguments passed
    | Locked                // holds the policy lock shared, inside the claiming transaction
    | Judged                // judged allowed inside it
    | Owner                 // its claim is committed
    | Spawned               // its process has been started
    | Over

  datatype Run = Run(executor: nat, stage: Stage)

  /** What the claim saw when it took the row, for the record. */
  datatype ClaimRecord = ClaimRecord(run: nat, cancelRequested: bool, allowed: bool)

  datatype World = World(row: Row, policy: Policy, runs: map<nat, Run>, claims: seq<ClaimRecord>, spawns: seq<nat>)

  datatype Event =
    | Pick(run: nat, executor: nat)        // an event delivery or a sweep starts the runner
    | Check(run: nat, verdict: Verdict)
    | CloseQueued(run: nat)
    | Lock(run: nat)
    | Judge(run: nat)
    | Claim(run: nat)
    | AfterLostClaim(run: nat)
    | Spawn(run: nat)
    | Finish(run: nat, outcome: State)
    | Die(run: nat)
    | RequestCancel
    | ChangePolicy(policy: Policy)
    | Reclaim

  predicate In(w: World, run: nat, stage: Stage) {
    run in w.runs && w.runs[run].stage == stage
  }

  predicate HoldsPolicyLock(run: Run) {
    run.stage.Locked? || run.stage.Judged?
  }

  predicate Enabled(w: World, e: Event) {
    match e
    case Pick(run, _) => run !in w.runs && w.row.state.Queued?
    case Check(run, verdict) =>
      && run in w.runs && w.runs[run].stage.Picked?
      && (verdict.Passes? ==> Allowed(w.policy, w.row)) && (verdict.PolicyRefuses? ==> !Allowed(w.policy, w.row))
    case CloseQueued(run) => run in w.runs && w.runs[run].stage.Closing?
    case Lock(run) => In(w, run, Checked)
    case Judge(run) => In(w, run, Locked)
    case Claim(run) => In(w, run, Judged)
    case AfterLostClaim(run) => In(w, run, Over)
    case Spawn(run) => In(w, run, Owner)
    case Finish(run, outcome) =>
      In(w, run, Spawned) && (outcome.Succeeded? || outcome.Failed? || outcome.Cancelled? || outcome.TimedOut?)
    case Die(run) => run in w.runs
    case RequestCancel => w.row.state.Queued? || w.row.state.Running?
    case ChangePolicy(policy) => policy.revision > w.policy.revision && forall r :: r in w.runs ==> !HoldsPolicyLock(w.runs[r])
    case Reclaim => w.row.state.Running?
  }

  function Put(w: World, run: nat, stage: Stage): map<nat, Run>
    requires run in w.runs
  {
    w.runs[run := w.runs[run].(stage := stage)]
  }

  /** Closing a waiting request: only while it is still queued. */
  function Close(row: Row, state: State): Row {
    if row.state.Queued? then row.(state := state) else row
  }

  function Apply(w: World, e: Event): World
    requires Enabled(w, e)
  {
    match e
    case Pick(run, executor) => w.(runs := w.runs[run := Run(executor, Picked(w.row.cancelRequested))])
    case Check(run, verdict) =>
      if w.runs[run].stage.cancelSeen then w.(runs := Put(w, run, Closing(Cancelled)))
      else
        w.(runs := Put(w, run, match verdict
          case Passes => Checked
          case PolicyRefuses => Closing(PolicyBlocked)
          case Invalid => Closing(Failed)
          case PolicyUnreadable => Over))
    case CloseQueued(run) => w.(row := Close(w.row, w.runs[run].stage.reason), runs := Put(w, run, Over))
    case Lock(run) => w.(runs := Put(w, run, Locked))
    case Judge(run) =>
      if Allowed(w.policy, w.row) then w.(runs := Put(w, run, Judged))
      else w.(row := Close(w.row, PolicyBlocked), runs := Put(w, run, Over))
    case Claim(run) =>
      if w.row.state.Queued? && !w.row.cancelRequested then
        w.(row := w.row.(state := Running(w.runs[run].executor)), runs := Put(w, run, Owner),
           claims := w.claims + [ClaimRecord(run, w.row.cancelRequested, Allowed(w.policy, w.row))])
      else w.(runs := Put(w, run, Over))
    case AfterLostClaim(run) => if w.row.cancelRequested then w.(row := Close(w.row, Cancelled)) else w
    case Spawn(run) => w.(runs := Put(w, run, Spawned), spawns := w.spawns + [run])
    case Finish(run, outcome) =>
      w.(row := if w.row.state == Running(w.runs[run].executor) then w.row.(state := outcome) else w.row, runs := Put(w, run, Over))
    case Die(run) => w.(runs := w.runs - {run})
    case RequestCancel => w.(row := w.row.(cancelRequested := true))
    case ChangePolicy(policy) => w.(policy := policy)
    case Reclaim => w.(row := w.row.(state := Failed))
  }

  // ----- Invariant -----

  ghost predicate HistoryInv(w: World) {
    && |w.claims| <= 1 && |w.spawns| <= |w.claims|
    && (w.row.state.Queued? ==> w.claims == [])
    && (w.row.state.Running? ==> w.claims != [])
    && (w.row.state.Succeeded? || w.row.state.TimedOut? ==> w.spawns != [])
    && (w.row.state.PolicyBlocked? ==> w.claims == [])
    && (w.claims != [] ==> !w.claims[0].cancelRequested && w.claims[0].allowed)
    && (w.spawns != [] ==> w.spawns[0] == w.claims[0].run)
  }

  /** The one claim belongs to the run that owns or has started the process; an owner's row runs or was reclaimed. */
  predicate RunInv(w: World, r: nat)
    requires r in w.runs
  {
    match w.runs[r].stage
    case Owner =>
      w.claims != [] && w.claims[0].run == r && w.spawns == [] && (w.row.state == Running(w.runs[r].executor) || w.row.state.Failed?)
    case Spawned => w.claims != [] && w.claims[0].run == r && w.spawns != []
    case Judged => Allowed(w.policy, w.row)
    case Closing(reason) => reason.Cancelled? || reason.PolicyBlocked? || reason.Failed?
    case _ => true
  }

  ghost predicate Inv(w: World) {
    HistoryInv(w) && forall r :: r in w.runs ==> RunInv(w, r)
  }

  lemma HistoryStep(w: World, e: Event)
    requires Inv(w) && Enabled(w, e)
    ensures HistoryInv(Apply(w, e))
    ensures Terminal(w.row.state) ==> Apply(w, e).row.state == w.row.state
    ensures w.claims <= Apply(w, e).claims && w.spawns <= Apply(w, e).spawns
    ensures Terminal(w.row.state) ==> Apply(w, e).claims == w.claims
  {
    hide Allowed;
    assert e.Spawn? || e.Finish? ==> RunInv(w, e.run);
    assert e.CloseQueued? ==> RunInv(w, e.run);
    assert e.Claim? ==> RunInv(w, e.run);
  }

  lemma RunStep(w: World, e: Event, r: nat)
    requires HistoryInv(w) && Enabled(w, e) && r in Apply(w, e).runs
    requires r in w.runs ==> RunInv(w, r)
    requires forall q :: q in w.runs && w.runs[q].stage.Spawned? ==> w.spawns != []
    requires e.Spawn? ==> RunInv(w, e.run)
    ensures RunInv(Apply(w, e), r)
  {}

  lemma StepKeepsInv(w: World, e: Event)
    requires Inv(w) && Enabled(w, e)
    ensures Inv(Apply(w, e))
    ensures Terminal(w.row.state) ==> Apply(w, e).row.state == w.row.state
    ensures w.claims <= Apply(w, e).claims && w.spawns <= Apply(w, e).spawns
    ensures Terminal(w.row.state) ==> Apply(w, e).claims == w.claims
  {
    hide HistoryInv, Apply;
    HistoryStep(w, e);
    assert forall q :: q in w.runs && RunInv(w, q) && w.runs[q].stage.Spawned? ==> w.spawns != [];
    forall r | r in Apply(w, e).runs
      ensures RunInv(Apply(w, e), r)
    {
      RunStep(w, e, r);
    }
  }

  ghost predicate RunOk(w: World, events: seq<Event>)
    decreases |events|
  {
    events != [] ==> Enabled(w, events[0]) && RunOk(Apply(w, events[0]), events[1..])
  }

  function After(w: World, events: seq<Event>): World
    requires RunOk(w, events)
    decreases |events|
  {
    if events == [] then w else After(Apply(w, events[0]), events[1..])
  }

  function Requested(accepted: nat, policy: Policy): World {
    World(Row(Queued, false, accepted), policy, map[], [], [])
  }

  lemma {:induction false} RunKeepsInv(w: World, events: seq<Event>)
    requires Inv(w) && RunOk(w, events)
    ensures Inv(After(w, events))
    ensures Terminal(w.row.state) ==> After(w, events).row.state == w.row.state && After(w, events).claims == w.claims
    ensures w.claims <= After(w, events).claims && w.spawns <= After(w, events).spawns
    decreases |events|
  {
    hide Enabled, Apply, Inv, Terminal;
    if events != [] {
      StepKeepsInv(w, events[0]);
      RunKeepsInv(Apply(w, events[0]), events[1..]);
    }
  }

  /**
   However deliveries, sweeps, executors, deaths and reclaims interleave, one process at most is ever started, by
   the one run that claimed the row, uncancelled and allowed.
   */
  lemma SpawnedAtMostOnce(accepted: nat, policy: Policy, events: seq<Event>)
    requires RunOk(Requested(accepted, policy), events)
    ensures
      var w := After(Requested(accepted, policy), events);
      && |w.spawns| <= 1 && |w.claims| <= 1
      && (w.spawns != [] ==> w.claims != [] && w.spawns[0] == w.claims[0].run)
      && (w.claims != [] ==> w.claims[0].allowed && !w.claims[0].cancelRequested)
  {
    RunKeepsInv(Requested(accepted, policy), events);
  }

  /** The one claim saw no cancellation committed before it, and the policy revision the request was accepted under. */
  lemma ClaimedUnderAcceptedPolicy(w: World, run: nat)
    requires Inv(w) && Enabled(w, Claim(run))
    ensures
      var w' := Apply(w, Claim(run));
      if w.row.state.Queued? && !w.row.cancelRequested
      then w'.claims == [ClaimRecord(run, false, true)] && w.policy.open && w.policy.revision == w.row.accepted
      else w'.claims == w.claims && w'.row == w.row
  {}

  /** An ended row stays as it ended: results that come back after a reclaim are dropped, and nothing claims it again. */
  lemma EndedStaysEnded(accepted: nat, policy: Policy, events: seq<Event>, more: seq<Event>)
    requires RunOk(Requested(accepted, policy), events) && RunOk(After(Requested(accepted, policy), events), more)
    requires Terminal(After(Requested(accepted, policy), events).row.state)
    ensures
      var w := After(Requested(accepted, policy), events);
      After(w, more).row.state == w.row.state && After(w, more).claims == w.claims
  {
    RunKeepsInv(Requested(accepted, policy), events);
    RunKeepsInv(After(Requested(accepted, policy), events), more);
  }

  /** A request that ended without having been claimed never runs; one that succeeded or timed out ran exactly once. */
  lemma NotStartedNeverRuns(accepted: nat, policy: Policy, events: seq<Event>, more: seq<Event>)
    requires RunOk(Requested(accepted, policy), events) && RunOk(After(Requested(accepted, policy), events), more)
    ensures
      var w := After(Requested(accepted, policy), events);
      && (Terminal(w.row.state) && w.claims == [] ==> After(w, more).spawns == [])
      && (w.row.state.PolicyBlocked? ==> After(w, more).spawns == [])
      && (w.row.state.Succeeded? || w.row.state.TimedOut? ==> |After(w, more).spawns| == 1)
  {
    RunKeepsInv(Requested(accepted, policy), events);
    RunKeepsInv(After(Requested(accepted, policy), events), more);
  }

  // ----- A process started on an ended row -----

  /** Once there is a claim nobody else becomes the owner. */
  lemma {:induction false} OwnerWasOwner(w: World, events: seq<Event>, run: nat)
    requires Inv(w) && RunOk(w, events) && w.claims != [] && In(After(w, events), run, Owner)
    ensures In(w, run, Owner)
    decreases |events|
  {
    hide Inv;
    if events != [] {
      StepKeepsInv(w, events[0]);
      OwnerWasOwner(Apply(w, events[0]), events[1..], run);
      if !In(w, run, Owner) { NotOwnerLate(w, events[0], run); }
    }
  }

  lemma NotOwnerLate(w: World, e: Event, run: nat)
    requires Inv(w) && Enabled(w, e) && In(Apply(w, e), run, Owner) && !In(w, run, Owner)
    ensures e == Claim(run) && w.claims == [] && w.row.state.Queued? && Apply(w, e).row.state.Running?
  {}

  /** While its owner waits to start, only a reclaim ends a row. */
  lemma OwnedStep(w: World, e: Event, run: nat)
    requires Inv(w) && Enabled(w, e) && In(w, run, Owner) && In(Apply(w, e), run, Owner) && w.row.state.Running? && e != Reclaim
    ensures Apply(w, e).row.state.Running?
  {}

  lemma {:induction false} ReclaimedWhileOwned(w: World, events: seq<Event>, run: nat) returns (j: nat)
    requires Inv(w) && RunOk(w, events) && In(w, run, Owner) && w.row.state.Running?
    requires In(After(w, events), run, Owner) && Terminal(After(w, events).row.state)
    ensures j < |events| && events[j] == Reclaim
    decreases |events|
  {
    hide Inv;
    if events[0] == Reclaim { return 0; }
    var w1 := Apply(w, events[0]);
    StepKeepsInv(w, events[0]);
    assert w.claims != [] && w1.claims != [] by { ClaimedOwner(w, run); }
    OwnerWasOwner(w1, events[1..], run);
    OwnedStep(w, events[0], run);
    j := ReclaimedWhileOwned(w1, events[1..], run);
    j := j + 1;
  }

  lemma ClaimedOwner(w: World, run: nat)
    requires Inv(w) && In(w, run, Owner)
    ensures w.claims != []
  {}

  lemma {:induction false} ReclaimFollowed(w: World, events: seq<Event>, run: nat) returns (i: nat, j: nat)
    requires Inv(w) && RunOk(w, events) && !In(w, run, Owner)
    requires In(After(w, events), run, Owner) && Terminal(After(w, events).row.state)
    ensures i < j < |events| && events[i] == Claim(run) && events[j] == Reclaim
    decreases |events|
  {
    hide Inv, Enabled, Apply, Terminal;
    var w1 := Apply(w, events[0]);
    StepKeepsInv(w, events[0]);
    if In(w1, run, Owner) {
      NotOwnerLate(w, events[0], run);
      j := ReclaimedWhileOwned(w1, events[1..], run);
      i, j := 0, j + 1;
    } else {
      i, j := ReclaimFollowed(w1, events[1..], run);
      i, j := i + 1, j + 1;
    }
  }

  lemma {:induction false} ReclaimEnds(w: World, events: seq<Event>, j: nat)
    requires Inv(w) && RunOk(w, events) && j < |events| && events[j] == Reclaim
    ensures Terminal(After(w, events).row.state)
    decreases |events|
  {
    hide Inv;
    StepKeepsInv(w, events[0]);
    if j == 0 {
      RunKeepsInv(Apply(w, events[0]), events[1..]);
    } else {
      ReclaimEnds(Apply(w, events[0]), events[1..], j - 1);
    }
  }

  /** The row was reclaimed after this run had claimed it. */
  ghost predicate ReclaimedAfterClaim(events: seq<Event>, run: nat) {
    exists i, j :: 0 <= i < j < |events| && events[i] == Claim(run) && events[j] == Reclaim
  }

  /**
   In every run: a process about to be started is started on an ended row exactly if a reclaim came since its
   claim, and exactly then reading the row once more would no longer find it running under this executor.
   */
  lemma StartedOnEndedIff(accepted: nat, policy: Policy, events: seq<Event>, run: nat)
    requires RunOk(Requested(accepted, policy), events)
    requires Enabled(After(Requested(accepted, policy), events), Spawn(run))
    ensures
      var w := After(Requested(accepted, policy), events);
      && (Terminal(w.row.state) <==> ReclaimedAfterClaim(events, run))
      && (Terminal(w.row.state) <==> w.row.state != Running(w.runs[run].executor))
  {
    var start := Requested(accepted, policy);
    RunKeepsInv(start, events);
    hide Inv, RunOk, After;
    if Terminal(After(start, events).row.state) {
      var i, j := ReclaimFollowed(start, events, run);
    }
    if ReclaimedAfterClaim(events, run) {
      var i, j :| 0 <= i < j < |events| && events[i] == Claim(run) && events[j] == Reclaim;
      ReclaimEnds(start, events, j);
    }
    OwnersRow(After(start, events), run);
  }

  lemma OwnersRow(w: World, run: nat)
    requires Inv(w) && In(w, run, Owner)
    ensures w.row.state == Running(w.runs[run].executor) || w.row.state.Failed?
  {}

  predicate Step(w: World, e: Event, next: World) {
    Enabled(w, e) && Apply(w, e) == next
  }

  /** These are the worlds the events lead through. */
  ghost predicate Traces(worlds: seq<World>, events: seq<Event>) {
    && |worlds| == |events| + 1
    && forall i :: 0 <= i < |events| ==> Step(worlds[i], events[i], worlds[i + 1])
  }

  lemma {:induction false} TraceRuns(worlds: seq<World>, events: seq<Event>)
    requires Traces(worlds, events)
    ensures RunOk(worlds[0], events) && After(worlds[0], events) == worlds[|events|]
    decreases |events|
  {
    hide Enabled, Apply;
    if events != [] {
      assert Step(worlds[0], events[0], worlds[1]);
      TraceRuns(worlds[1..], events[1..]);
    }
  }

  const RECLAIMED_EARLY := [Pick(0, 7), Check(0, Passes), Lock(0), Judge(0), Claim(0), Reclaim, Spawn(0)]

  function Waiting(revision: nat, stage: Stage): World {
    Requested(revision, Policy(revision, true)).(runs := map[0 := Run(7, stage)])
  }

  function Taken(revision: nat, state: State, stage: Stage): World {
    World(Row(state, false, revision), Policy(revision, true), map[0 := Run(7, stage)], [ClaimRecord(0, false, true)],
          if stage.Spawned? then [0] else [])
  }

  lemma WaitingSteps(revision: nat)
    ensures Step(Requested(revision, Policy(revision, true)), Pick(0, 7), Waiting(revision, Picked(false)))
    ensures Step(Waiting(revision, Picked(false)), Check(0, Passes), Waiting(revision, Checked))
    ensures Step(Waiting(revision, Checked), Lock(0), Waiting(revision, Locked))
    ensures Step(Waiting(revision, Locked), Judge(0), Waiting(revision, Judged))
  {}

  lemma TakenSteps(revision: nat)
    ensures Step(Waiting(revision, Judged), Claim(0), Taken(revision, Running(7), Owner))
    ensures Step(Taken(revision, Running(7), Owner), Reclaim, Taken(revision, Failed, Owner))
    ensures Step(Taken(revision, Failed, Owner), Spawn(0), Taken(revision, Failed, Spawned))
  {}

  /** Nothing between the claim and the start reads the row again: claimed, reclaimed, and then its process starts. */
  lemma ReclaimedClaimStillSpawns(revision: nat)
    ensures
      var start := Requested(revision, Policy(revision, true));
      && RunOk(start, RECLAIMED_EARLY)
      && After(start, RECLAIMED_EARLY).spawns == [0] && After(start, RECLAIMED_EARLY).row.state.Failed?
  {
    hide RunOk, After, Enabled, Apply;
    WaitingSteps(revision);
    TakenSteps(revision);
    var start := Requested(revision, Policy(revision, true));
    var worlds := [start, Waiting(revision, Picked(false)), Waiting(revision, Checked), Waiting(revision, Locked), Waiting(revision, Judged),
      Taken(revision, Running(7), Owner), Taken(revision, Failed, Owner), Taken(revision, Failed, Spawned)];
    TraceRuns(worlds, RECLAIMED_EARLY);
  }
}
