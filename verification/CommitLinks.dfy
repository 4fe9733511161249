/**
 The pull requests of one commit, projected from the canonical relation into its document.

 Every change of the canonical set raises the commit's generation in the same transaction. Runners lease the
 commit, read generation and set in one statement, and write them behind a generation guard; leases expire
 while their runner may still be at work. Commits do not interact, so one commit is modelled.
 `pr_links_state` is not part of the model, and writers outside the runners are not part of its runs.

 Main results: `ProjectionNeverRollsBack`, `QuietCommitConverged`, `StepReflectsIff`, `ReflectedIff`,
 `WrongWhenDoneIff`, `LateWriteStays`, `AbsenceStays`.
 */
module CommitLinks {
  import opened Wrappers

  // ----- The document -----

  /** `links` is absent until a projection wrote it: the generation written and its set. */
  datatype Doc = Doc(links: Option<(nat, set<nat>)>)

  datatype Outcome = Updated | Noop | Stale | Conflict | DocumentMissing

  /** What the runner concludes from the document it reads. `Updated` means: go on and send. */
  function Classify(doc: Option<Doc>, generation: nat, numbers: set<nat>): Outcome {
    match doc
    case None => DocumentMissing
    case Some(Doc(None)) => Updated
    case Some(Doc(Some((g, stored)))) =>
      if g > generation then Stale else if g == generation && stored != numbers then Conflict else Updated
  }

  /** The guarded update itself: a lower generation, or the same content, changes nothing. */
  function Sent(doc: Doc, generation: nat, numbers: set<nat>): Doc {
    if doc.links.Some? && (doc.links.value.0 > generation || doc.links.value == (generation, numbers)) then doc
    else Doc(Some((generation, numbers)))
  }

  function GenerationOf(doc: Option<Doc>): nat {
    if doc.Some? && doc.value.links.Some? then doc.value.links.value.0 else 0
  }

  /** The set a reader finds; no document and no field count as none. */
  function Shown(doc: Option<Doc>): set<nat> {
    if doc.Some? && doc.value.links.Some? then doc.value.links.value.1 else {}
  }

  // ----- The queue row -----

  datatype RowState = Ready | Retry | Leased(token: nat) | Parked | Done
  datatype Row = Row(generation: nat, projected: nat, state: RowState)

  function Bumped(row: Row): Row {
    row.(generation := row.generation + 1, state := if row.state.Leased? then row.state else Ready)
  }

  predicate Due(row: Row) {
    (row.state.Ready? || row.state.Retry?) && row.projected < row.generation
  }

  function Completed(row: Row, token: nat, generation: nat): Row {
    if row.state != Leased(token) then row
    else row.(projected := if row.projected < generation then generation else row.projected,
              state := if row.generation > generation then Ready else Done)
  }

  function Released(row: Row, token: nat, next: RowState): Row {
    if row.state != Leased(token) then row else row.(state := next)
  }

  // ----- Runners on one commit -----

  /** After the claim: the canonical read, the document read, the write, the acknowledgement. */
  datatype Stage =
    | Claimed
    | HasTruth(generation: nat, numbers: set<nat>)
    | Sending(generation: nat, numbers: set<nat>)
    | Concluded(generation: nat, numbers: set<nat>, outcome: Outcome)

  datatype Runner = Runner(token: nat, stage: Stage)

  /** `truth[g - 1]` is the canonical set of generation g. */
  datatype Commit = Commit(truth: seq<set<nat>>, row: Row, doc: Option<Doc>, runners: map<nat, Runner>, tokens: nat)

  datatype Event =
    | Bump(numbers: set<nat>)
    | CreateDocument
    | Expire
    | Claim(r: nat)
    | ReadTruth(r: nat)
    | ReadDocument(r: nat)
    | Send(r: nat)
    | Acknowledge(r: nat)
    | GiveUp(r: nat, parked: bool)   // an error, a missing document, or a conflict
    | Crash(r: nat)

  predicate Acknowledges(stage: Stage) {
    stage.Concluded? &&
    (stage.outcome.Updated? || stage.outcome.Noop? || stage.outcome.Stale? || (stage.outcome.DocumentMissing? && stage.numbers == {}))
  }

  predicate Enabled(c: Commit, e: Event) {
    match e
    case Bump(_) => true
    case CreateDocument => c.doc.None?
    case Expire => c.row.state.Leased?
    case Claim(r) => r !in c.runners && Due(c.row)
    case ReadTruth(r) => r in c.runners && c.runners[r].stage.Claimed?
    case ReadDocument(r) => r in c.runners && c.runners[r].stage.HasTruth?
    case Send(r) => r in c.runners && c.runners[r].stage.Sending? && c.doc.Some?
    case Acknowledge(r) => r in c.runners && Acknowledges(c.runners[r].stage)
    case GiveUp(r, _) => r in c.runners
    case Crash(r) => r in c.runners
  }

  function At(c: Commit, r: nat, stage: Stage): map<nat, Runner>
    requires r in c.runners
  {
    c.runners[r := c.runners[r].(stage := stage)]
  }

  function Apply(c: Commit, e: Event): Commit
    requires Enabled(c, e)
  {
    match e
    case Bump(numbers) => c.(truth := c.truth + [numbers], row := Bumped(c.row))
    case CreateDocument => c.(doc := Some(Doc(None)))
    case Expire => c.(row := c.row.(state := Retry))
    case Claim(r) =>
      c.(row := c.row.(state := Leased(c.tokens)), runners := c.runners[r := Runner(c.tokens, Claimed)], tokens := c.tokens + 1)
    case ReadTruth(r) =>
      c.(runners := At(c, r, HasTruth(c.row.generation, if c.truth == [] then {} else c.truth[|c.truth| - 1])))
    case ReadDocument(r) =>
      var stage := c.runners[r].stage;
      var outcome := Classify(c.doc, stage.generation, stage.numbers);
      c.(runners := At(c, r, if outcome.Updated? then Sending(stage.generation, stage.numbers)
                             else Concluded(stage.generation, stage.numbers, outcome)))
    case Send(r) =>
      var stage := c.runners[r].stage;
      var doc := Sent(c.doc.value, stage.generation, stage.numbers);
      c.(doc := Some(doc), runners := At(c, r, Concluded(stage.generation, stage.numbers, if doc == c.doc.value then Noop else Updated)))
    case Acknowledge(r) =>
      c.(row := Completed(c.row, c.runners[r].token, c.runners[r].stage.generation), runners := c.runners - {r})
    case GiveUp(r, parked) =>
      c.(row := Released(c.row, c.runners[r].token, if parked then Parked else Retry), runners := c.runners - {r})
    case Crash(r) => c.(runners := c.runners - {r})
  }

  // ----- What always holds -----

  ghost predicate TruthAt(c: Commit, generation: nat, numbers: set<nat>) {
    1 <= generation <= |c.truth| && c.truth[generation - 1] == numbers
  }

  /** The document always carries the canonical set of the generation it names; so do the runners. */
  ghost predicate Honest(c: Commit) {
    && c.row.generation == |c.truth|
    && (c.doc.Some? && c.doc.value.links.Some? ==> TruthAt(c, c.doc.value.links.value.0, c.doc.value.links.value.1))
    && (c.row.state.Leased? || Due(c.row) ==> c.truth != [])
    && (forall r :: r in c.runners ==>
          match c.runners[r].stage
          case Claimed => c.truth != []
          case HasTruth(g, n) => TruthAt(c, g, n)
          case Sending(g, n) => TruthAt(c, g, n)
          case Concluded(g, n, _) => TruthAt(c, g, n))
  }

  ghost predicate RunOk(c: Commit, events: seq<Event>)
    decreases |events|
  {
    events != [] ==> Enabled(c, events[0]) && RunOk(Apply(c, events[0]), events[1..])
  }

  function After(c: Commit, events: seq<Event>): Commit
    requires RunOk(c, events)
    decreases |events|
  {
    if events == [] then c else After(Apply(c, events[0]), events[1..])
  }

  lemma HonestStep(c: Commit, e: Event)
    requires Honest(c) && Enabled(c, e)
    ensures Honest(Apply(c, e))
    ensures GenerationOf(c.doc) <= GenerationOf(Apply(c, e).doc)
    ensures e.ReadDocument? ==> !Classify(c.doc, c.runners[e.r].stage.generation, c.runners[e.r].stage.numbers).Conflict?
  {}

  /**
   With any number of runners, expired leases and crashes: the generation in the index never goes down, and
   the indexed set is the canonical set of exactly that generation.
   */
  lemma {:induction false} ProjectionNeverRollsBack(c: Commit, events: seq<Event>)
    requires Honest(c) && RunOk(c, events)
    ensures
      var end := After(c, events);
      && Honest(end) && GenerationOf(c.doc) <= GenerationOf(end.doc)
      && (GenerationOf(end.doc) > 0 ==> TruthAt(end, GenerationOf(end.doc), Shown(end.doc)))
    decreases |events|
  {
    if events != [] {
      hide Enabled, Apply;
      HonestStep(c, events[0]);
      ProjectionNeverRollsBack(Apply(c, events[0]), events[1..]);
    }
  }

  // ----- What a row counts as projected -----

  /** What the row counts as projected is in the index, or was and is the empty set of a commit without one. */
  ghost predicate Reflected(c: Commit) {
    && c.row.projected <= |c.truth|
    && (c.row.projected <= GenerationOf(c.doc) || (Shown(c.doc) == {} && c.truth[c.row.projected - 1] == {}))
  }

  predicate Holds(c: Commit, r: nat) {
    r in c.runners && c.row.state == Leased(c.runners[r].token)
  }

  ghost predicate RowInv(c: Commit) {
    && (if c.row.state.Done? then c.row.projected == c.row.generation else c.row.projected < c.row.generation)
    && (c.row.state.Leased? ==> c.row.state.token < c.tokens)
    && (forall r :: r in c.runners ==> c.runners[r].token < c.tokens)
    && (forall r, q :: r in c.runners && q in c.runners && c.runners[r].token == c.runners[q].token ==> r == q)
  }

  /** A runner under its lease is ahead of the row, and one that found something written is not ahead of the index. */
  predicate StageInv(c: Commit, r: nat)
    requires r in c.runners
  {
    match c.runners[r].stage
    case Claimed => true
    case HasTruth(g, _) => Holds(c, r) ==> c.row.projected < g
    case Sending(g, _) => Holds(c, r) ==> c.row.projected < g
    case Concluded(g, _, outcome) =>
      && (Holds(c, r) ==> c.row.projected < g)
      && (outcome.Updated? || outcome.Noop? || outcome.Stale? ==> g <= GenerationOf(c.doc))
  }

  /** Past the index a row is only moved by a runner that found no document and an empty set. */
  ghost predicate ProjectedInv(c: Commit) {
    c.row.projected <= |c.truth| && (c.row.projected <= GenerationOf(c.doc) || c.truth[c.row.projected - 1] == {})
  }

  ghost predicate Inv(c: Commit) {
    Honest(c) && RowInv(c) && ProjectedInv(c) && forall r :: r in c.runners ==> StageInv(c, r)
  }

  lemma RowStep(c: Commit, e: Event)
    requires Inv(c) && Enabled(c, e)
    ensures RowInv(Apply(c, e))
  {
    hide Shown, Classify, Sent;
    assert e.Acknowledge? ==> StageInv(c, e.r);
  }

  lemma StageStep(c: Commit, e: Event, r: nat)
    requires Honest(c) && RowInv(c) && Enabled(c, e) && r in Apply(c, e).runners
    requires forall q :: q in c.runners ==> StageInv(c, q)
    ensures StageInv(Apply(c, e), r)
  {
    hide Shown;
    HonestStep(c, e);
    assert r in c.runners ==> StageInv(c, r);
  }

  lemma ProjectedStep(c: Commit, e: Event)
    requires Inv(c) && Enabled(c, e)
    ensures ProjectedInv(Apply(c, e))
  {
    hide Classify;
    HonestStep(c, e);
    assert e.Acknowledge? ==> StageInv(c, e.r);
  }

  lemma StepKeepsInv(c: Commit, e: Event)
    requires Inv(c) && Enabled(c, e)
    ensures Inv(Apply(c, e))
  {
    HonestStep(c, e);
    RowStep(c, e);
    ProjectedStep(c, e);
    hide Honest, RowInv, ProjectedInv, StageInv, Apply;
    forall r | r in Apply(c, e).runners
      ensures StageInv(Apply(c, e), r)
    {
      StageStep(c, e, r);
    }
  }

  // ----- The steps that do harm, and those that repair it -----

  /**
   A write that is behind the row and not empty; or the acknowledgement that a commit without a document has no
   pull requests, when meanwhile it has a document that shows some.
   */
  predicate Harms(c: Commit, e: Event)
    requires Enabled(c, e)
  {
    match e
    case Send(r) =>
      var stage := c.runners[r].stage;
      stage.generation < c.row.projected && stage.numbers != {} && Sent(c.doc.value, stage.generation, stage.numbers) != c.doc.value
    case Acknowledge(r) =>
      var stage := c.runners[r].stage;
      Holds(c, r) && stage.outcome.DocumentMissing? && GenerationOf(c.doc) < stage.generation && Shown(c.doc) != {}
    case _ => false
  }

  /** A write that takes effect and reaches the row, or empties the set. */
  predicate Mends(c: Commit, e: Event)
    requires Enabled(c, e)
  {
    e.Send? && var stage := c.runners[e.r].stage;
    && Sent(c.doc.value, stage.generation, stage.numbers) != c.doc.value
    && (stage.generation >= c.row.projected || stage.numbers == {})
  }

  /** In every reachable state: from an index that reflects the row only a harmful step leads away, else only a mending one back. */
  lemma StepReflectsIff(c: Commit, e: Event)
    requires Inv(c) && Enabled(c, e)
    ensures Reflected(Apply(c, e)) <==> if Reflected(c) then !Harms(c, e) else Mends(c, e)
  {
    hide Classify;
    HonestStep(c, e);
    assert e.Acknowledge? ==> StageInv(c, e.r);
  }

  ghost predicate AlwaysReflected(c: Commit, events: seq<Event>)
    requires RunOk(c, events)
    decreases |events|
  {
    Reflected(c) && (events != [] ==> AlwaysReflected(Apply(c, events[0]), events[1..]))
  }

  ghost predicate NeverHarms(c: Commit, events: seq<Event>)
    requires RunOk(c, events)
    decreases |events|
  {
    events != [] ==> !Harms(c, events[0]) && NeverHarms(Apply(c, events[0]), events[1..])
  }

  ghost predicate NeverMends(c: Commit, events: seq<Event>)
    requires RunOk(c, events)
    decreases |events|
  {
    events != [] ==> !Mends(c, events[0]) && NeverMends(Apply(c, events[0]), events[1..])
  }

  /** Some step of the run does harm, and no later one repairs it. */
  ghost predicate HarmStays(c: Commit, events: seq<Event>)
    requires RunOk(c, events)
    decreases |events|
  {
    events != [] &&
    (HarmStays(Apply(c, events[0]), events[1..]) || (Harms(c, events[0]) && NeverMends(Apply(c, events[0]), events[1..])))
  }

  lemma {:induction false} AlwaysIff(c: Commit, events: seq<Event>)
    requires Inv(c) && Reflected(c) && RunOk(c, events)
    ensures AlwaysReflected(c, events) <==> NeverHarms(c, events)
    decreases |events|
  {
    hide Enabled, Apply, Inv, Reflected, Harms, Mends;
    if events != [] {
      StepReflectsIff(c, events[0]);
      StepKeepsInv(c, events[0]);
      if Reflected(Apply(c, events[0])) { AlwaysIff(Apply(c, events[0]), events[1..]); }
    }
  }

  lemma {:induction false} EndIff(c: Commit, events: seq<Event>)
    requires Inv(c) && RunOk(c, events)
    ensures Inv(After(c, events))
    ensures !Reflected(After(c, events)) <==> HarmStays(c, events) || (!Reflected(c) && NeverMends(c, events))
    decreases |events|
  {
    hide Enabled, Apply, Inv, Reflected, Harms, Mends;
    if events != [] {
      StepReflectsIff(c, events[0]);
      StepKeepsInv(c, events[0]);
      assert !(Harms(c, events[0]) && Mends(c, events[0])) by { NotBoth(c, events[0]); }
      EndIff(Apply(c, events[0]), events[1..]);
    }
  }

  lemma NotBoth(c: Commit, e: Event)
    requires Enabled(c, e)
    ensures !(Harms(c, e) && Mends(c, e))
  {}

  const UNKNOWN := Commit([], Row(0, 0, Done), None, map[], 0)

  /** Over every run, whatever leases expire and crashes happen: the index always reflects the row iff no step does harm. */
  lemma ReflectedIff(events: seq<Event>)
    requires RunOk(UNKNOWN, events)
    ensures AlwaysReflected(UNKNOWN, events) <==> NeverHarms(UNKNOWN, events)
  {
    AlwaysIff(UNKNOWN, events);
  }

  /** The pull requests the commit has by the canonical relation. */
  function Canonical(c: Commit): set<nat> {
    if c.truth == [] then {} else c.truth[|c.truth| - 1]
  }

  lemma DoneShowsIff(c: Commit)
    requires Inv(c) && c.row.state.Done?
    ensures Shown(c.doc) == Canonical(c) <==> Reflected(c)
  {}

  /** Over every run: a commit nobody has to look at any more shows the wrong set iff some step did harm that no later one repaired. */
  lemma WrongWhenDoneIff(events: seq<Event>)
    requires RunOk(UNKNOWN, events)
    ensures
      var c := After(UNKNOWN, events);
      c.row.state.Done? ==> (Shown(c.doc) != Canonical(c) <==> HarmStays(UNKNOWN, events))
  {
    EndIff(UNKNOWN, events);
    if After(UNKNOWN, events).row.state.Done? { DoneShowsIff(After(UNKNOWN, events)); }
  }

  // ----- Runs in which runners write under their lease -----

  /** A runner writes only while it still holds the lease. */
  predicate InLease(c: Commit, e: Event) {
    e.Send? ==> Holds(c, e.r)
  }

  ghost predicate InLeaseRun(c: Commit, events: seq<Event>)
    requires RunOk(c, events)
    decreases |events|
  {
    events != [] ==> InLease(c, events[0]) && InLeaseRun(Apply(c, events[0]), events[1..])
  }

  /** Then a document that a lease holder found missing is not written behind its back. */
  predicate AbsentInv(c: Commit) {
    forall r :: r in c.runners && Holds(c, r) && c.runners[r].stage.Concluded? && c.runners[r].stage.outcome.DocumentMissing? ==>
      GenerationOf(c.doc) == 0
  }

  lemma InLeaseStep(c: Commit, e: Event)
    requires Inv(c) && AbsentInv(c) && Enabled(c, e) && InLease(c, e)
    ensures AbsentInv(Apply(c, e)) && !Harms(c, e)
  {
    hide ProjectedInv;
    assert e.Send? ==> StageInv(c, e.r);
    assert GenerationOf(c.doc) == 0 ==> Shown(c.doc) == {};
  }

  lemma {:induction false} InLeaseIsHarmless(c: Commit, events: seq<Event>)
    requires Inv(c) && AbsentInv(c) && RunOk(c, events) && InLeaseRun(c, events)
    ensures NeverHarms(c, events)
    decreases |events|
  {
    hide Enabled, Apply, Inv, AbsentInv, InLease, Harms;
    if events != [] {
      StepKeepsInv(c, events[0]);
      InLeaseStep(c, events[0]);
      InLeaseIsHarmless(Apply(c, events[0]), events[1..]);
    }
  }

  lemma {:induction false} HarmlessStays(c: Commit, events: seq<Event>)
    requires RunOk(c, events) && NeverHarms(c, events)
    ensures !HarmStays(c, events)
    decreases |events|
  {
    hide Enabled, Apply, Harms, Mends;
    if events != [] { HarmlessStays(Apply(c, events[0]), events[1..]); }
  }

  /** If every write happens under its lease: a commit nobody has to look at any more shows its canonical set. */
  lemma QuietCommitConverged(events: seq<Event>)
    requires RunOk(UNKNOWN, events) && InLeaseRun(UNKNOWN, events)
    ensures After(UNKNOWN, events).row.state.Done? ==> Shown(After(UNKNOWN, events).doc) == Canonical(After(UNKNOWN, events))
  {
    InLeaseIsHarmless(UNKNOWN, events);
    HarmlessStays(UNKNOWN, events);
    WrongWhenDoneIff(events);
  }

  // ----- Two runs that end with the wrong set -----

  ghost predicate Goes(c: Commit, e: Event, d: Commit) {
    Enabled(c, e) && Apply(c, e) == d
  }

  lemma {:induction false} RunSteps(c: Commit, events: seq<Event>, states: seq<Commit>)
    requires |states| == |events| > 0 && Goes(c, events[0], states[0])
    requires forall i :: 1 <= i < |events| ==> Goes(states[i - 1], events[i], states[i])
    ensures RunOk(c, events) && After(c, events) == states[|states| - 1]
    decreases |events|
  {
    hide Enabled, Apply;
    if |events| > 1 {
      assert forall i :: 1 <= i < |events[1..]| ==> states[1..][i - 1] == states[i] && events[1..][i] == events[i + 1];
      RunSteps(states[0], events[1..], states[1..]);
    } else {
      assert events[1..] == [];
    }
  }

  lemma {:induction false} RunJoins(c: Commit, first: seq<Event>, second: seq<Event>)
    requires RunOk(c, first) && RunOk(After(c, first), second)
    ensures RunOk(c, first + second) && After(c, first + second) == After(After(c, first), second)
    decreases |first|
  {
    hide Enabled, Apply;
    if first == [] {
      assert first + second == second;
    } else {
      RunJoins(Apply(c, first[0]), first[1..], second);
      assert (first + second)[1..] == first[1..] + second;
    }
  }

  /**
   The first runner has read set {5} when its lease runs out; the set becomes empty, and the second runner leases
   and finds no document.
   */
  const MISSING: seq<Event> := [
    Bump({5}), Claim(1), ReadTruth(1), Expire,
    Bump({}), Claim(2), ReadTruth(2), ReadDocument(2)]

  /** It acknowledges, and then the document is created and written by the first. */
  const LATE: seq<Event> := [Acknowledge(2), CreateDocument, ReadDocument(1), Send(1), Acknowledge(1)]

  function Slow(stage: Stage): map<nat, Runner> {
    map[1 := Runner(0, stage)]
  }

  function Two(stage: Stage): map<nat, Runner> {
    map[1 := Runner(0, HasTruth(1, {5})), 2 := Runner(1, stage)]
  }

  const C1 := Commit([{5}], Row(1, 0, Ready), None, map[], 0)
  const C2 := Commit([{5}], Row(1, 0, Leased(0)), None, Slow(Claimed), 1)
  const C3 := Commit([{5}], Row(1, 0, Leased(0)), None, Slow(HasTruth(1, {5})), 1)
  const C4 := Commit([{5}], Row(1, 0, Retry), None, Slow(HasTruth(1, {5})), 1)
  const C5 := Commit([{5}, {}], Row(2, 0, Ready), None, Slow(HasTruth(1, {5})), 1)
  const C6 := Commit([{5}, {}], Row(2, 0, Leased(1)), None, Two(Claimed), 2)
  const C7 := Commit([{5}, {}], Row(2, 0, Leased(1)), None, Two(HasTruth(2, {})), 2)
  const C8 := Commit([{5}, {}], Row(2, 0, Leased(1)), None, Two(Concluded(2, {}, DocumentMissing)), 2)
  const C9 := Commit([{5}, {}], Row(2, 2, Done), None, Slow(HasTruth(1, {5})), 2)
  const C10 := Commit([{5}, {}], Row(2, 2, Done), Some(Doc(None)), Slow(HasTruth(1, {5})), 2)
  const C11 := Commit([{5}, {}], Row(2, 2, Done), Some(Doc(None)), Slow(Sending(1, {5})), 2)
  const C12 := Commit([{5}, {}], Row(2, 2, Done), Some(Doc(Some((1, {5})))), Slow(Concluded(1, {5}, Updated)), 2)
  const C13 := Commit([{5}, {}], Row(2, 2, Done), Some(Doc(Some((1, {5})))), map[], 2)

  lemma FirstReads()
    ensures Goes(UNKNOWN, MISSING[0], C1) && Goes(C1, MISSING[1], C2) && Goes(C2, MISSING[2], C3) && Goes(C3, MISSING[3], C4)
  {
    assert map[][1 := Runner(0, Claimed)] == Slow(Claimed);
    assert At(C2, 1, HasTruth(1, {5})) == Slow(HasTruth(1, {5}));
  }

  lemma SecondReads()
    ensures Goes(C4, MISSING[4], C5) && Goes(C5, MISSING[5], C6) && Goes(C6, MISSING[6], C7)
  {
    assert [{5}] + [{}] == [{5}, {}];
    assert Slow(HasTruth(1, {5}))[2 := Runner(1, Claimed)] == Two(Claimed);
    assert At(C6, 2, HasTruth(2, {})) == Two(HasTruth(2, {}));
  }

  lemma SecondFindsNone()
    ensures Goes(C7, MISSING[7], C8)
  {
    assert At(C7, 2, Concluded(2, {}, DocumentMissing)) == Two(Concluded(2, {}, DocumentMissing));
  }

  lemma MissingRuns()
    ensures RunOk(UNKNOWN, MISSING) && After(UNKNOWN, MISSING) == C8
  {
    FirstReads();
    SecondReads();
    SecondFindsNone();
    hide Goes, Slow, Two, RunOk, After;
    RunSteps(UNKNOWN, MISSING, [C1, C2, C3, C4, C5, C6, C7, C8]);
  }

  lemma SecondCompletes()
    ensures Goes(C8, LATE[0], C9) && Goes(C9, LATE[1], C10)
  {
    assert Two(Concluded(2, {}, DocumentMissing)) - {2} == Slow(HasTruth(1, {5}));
  }

  lemma FirstWrites()
    ensures Goes(C10, LATE[2], C11) && Goes(C11, LATE[3], C12) && Goes(C12, LATE[4], C13)
  {
    assert At(C10, 1, Sending(1, {5})) == Slow(Sending(1, {5}));
    assert At(C11, 1, Concluded(1, {5}, Updated)) == Slow(Concluded(1, {5}, Updated));
    assert Slow(Concluded(1, {5}, Updated)) - {1} == map[];
  }

  /**
   A commit without a document is completed with the empty set, gains a document, and then gets the older set
   from the runner whose lease was gone: nobody has to look at it any more, and it shows the wrong set.
   */
  lemma LateWriteStays()
    ensures RunOk(UNKNOWN, MISSING + LATE) && After(UNKNOWN, MISSING + LATE) == C13
    ensures C13.row.state.Done? && Canonical(C13) == {} && Shown(C13.doc) == {5} && HarmStays(UNKNOWN, MISSING + LATE)
  {
    MissingRuns();
    SecondCompletes();
    FirstWrites();
    hide Goes, Slow, Two, RunOk, After;
    RunSteps(C8, LATE, [C9, C10, C11, C12, C13]);
    RunJoins(UNKNOWN, MISSING, LATE);
    WrongWhenDoneIff(MISSING + LATE);
  }

  /** The other order: the document is created and written before the second runner acknowledges that there is none. */
  const ABSENT: seq<Event> := [CreateDocument, ReadDocument(1), Send(1), Acknowledge(2), Acknowledge(1)]

  function Absent(stage: Stage): map<nat, Runner> {
    map[1 := Runner(0, stage), 2 := Runner(1, Concluded(2, {}, DocumentMissing))]
  }

  const A9 := Commit([{5}, {}], Row(2, 0, Leased(1)), Some(Doc(None)), Absent(HasTruth(1, {5})), 2)
  const A10 := Commit([{5}, {}], Row(2, 0, Leased(1)), Some(Doc(None)), Absent(Sending(1, {5})), 2)
  const A11 := Commit([{5}, {}], Row(2, 0, Leased(1)), Some(Doc(Some((1, {5})))), Absent(Concluded(1, {5}, Updated)), 2)

  lemma AbsentWrites()
    ensures Goes(C8, ABSENT[0], A9) && Goes(A9, ABSENT[1], A10) && Goes(A10, ABSENT[2], A11)
    ensures Goes(A11, ABSENT[3], C12) && Goes(C12, ABSENT[4], C13)
    ensures !Harms(A10, ABSENT[2]) && Harms(A11, ABSENT[3])
  {
    assert Two(Concluded(2, {}, DocumentMissing)) == Absent(HasTruth(1, {5}));
    assert At(A9, 1, Sending(1, {5})) == Absent(Sending(1, {5}));
    assert At(A10, 1, Concluded(1, {5}, Updated)) == Absent(Concluded(1, {5}, Updated));
    assert Absent(Concluded(1, {5}, Updated)) - {2} == Slow(Concluded(1, {5}, Updated));
    assert Slow(Concluded(1, {5}, Updated)) - {1} == map[];
  }

  /** The late write itself is harmless here; the acknowledgement after it is not, and the commit ends done with the wrong set. */
  lemma AbsenceStays()
    ensures RunOk(UNKNOWN, MISSING + ABSENT) && After(UNKNOWN, MISSING + ABSENT) == C13
    ensures C13.row.state.Done? && Canonical(C13) == {} && Shown(C13.doc) == {5} && HarmStays(UNKNOWN, MISSING + ABSENT)
    ensures Goes(A10, ABSENT[2], A11) && !Harms(A10, ABSENT[2]) && Goes(A11, ABSENT[3], C12) && Harms(A11, ABSENT[3])
  {
    MissingRuns();
    AbsentWrites();
    hide Goes, Slow, Two, Absent, RunOk, After, Harms;
    RunSteps(C8, ABSENT, [A9, A10, A11, C12, C13]);
    RunJoins(UNKNOWN, MISSING, ABSENT);
    WrongWhenDoneIff(MISSING + ABSENT);
  }

  // ----- One cycle of one runner, undisturbed -----

  datatype Attempt = Acked | Retried | ParkedNow

  /** The queue and the documents as one runner sees them; rows and documents by commit. */
  class LinkRunner {
    var rows: map<nat, Row>
    var attempts: map<nat, nat>
    var docs: map<nat, Doc>

    const MAX_RETRIES := 5

    function DocOf(sha: nat): Option<Doc>
      reads this
    {
      if sha in docs then Some(docs[sha]) else None
    }

    /** Classifies by what it reads, and only then sends the guarded update. Never creates a document. */
    method ApplyLinks(sha: nat, generation: nat, numbers: set<nat>) returns (outcome: Outcome)
      modifies this`docs
      ensures
        var before := old(DocOf(sha));
        if Classify(before, generation, numbers).Updated?
        then docs == old(docs)[sha := Sent(before.value, generation, numbers)] && outcome == (if docs == old(docs) then Noop else Updated)
        else docs == old(docs) && outcome == Classify(before, generation, numbers)
    {
      if sha !in docs { return DocumentMissing; }
      var stored := docs[sha].links;
      if stored.Some? && stored.value.0 > generation { return Stale; }
      if stored.Some? && stored.value.0 == generation && stored.value.1 != numbers { return Conflict; }
      if stored == Some((generation, numbers)) {
        assert docs == docs[sha := docs[sha]];
        return Noop;
      }
      docs := docs[sha := Doc(Some((generation, numbers)))];
      outcome := Updated;
    }

    method Complete(sha: nat, token: nat, generation: nat) returns (acked: bool)
      requires sha in rows
      modifies this`rows, this`attempts
      ensures acked == (old(rows)[sha].state == Leased(token))
      ensures rows == old(rows)[sha := Completed(old(rows)[sha], token, generation)]
    {
      var row := rows[sha];
      acked := row.state == Leased(token);
      if acked {
        rows := rows[sha := Row(row.generation, if row.projected < generation then generation else row.projected,
                                if row.generation > generation then Ready else Done)];
        attempts := attempts[sha := 0];
      } else {
        assert rows == rows[sha := row];
      }
    }

    method Release(sha: nat, token: nat, next: RowState)
      requires sha in rows
      modifies this`rows
      ensures rows == old(rows)[sha := Released(old(rows)[sha], token, next)]
    {
      if rows[sha].state == Leased(token) {
        rows := rows[sha := rows[sha].(state := next)];
      } else {
        assert rows == rows[sha := rows[sha]];
      }
    }

    /** One leased row: `numbers` is the canonical set read together with the row's generation. */
    method RunOne(sha: nat, token: nat, numbers: set<nat>) returns (attempt: Attempt)
      requires sha in rows && rows[sha].state == Leased(token)
      modifies this
      ensures
        var row, before := old(rows)[sha], old(DocOf(sha));
        && rows.Keys == old(rows).Keys && (forall k :: k in rows && k != sha ==> rows[k] == old(rows)[k])
        && (forall k :: k != sha ==> DocOf(k) == old(DocOf(k)))
        && (attempt.Acked? <==> rows[sha].state.Done?)
        && (attempt.Acked? ==>
              rows[sha] == Completed(row, token, row.generation) &&
              (GenerationOf(DocOf(sha)) > row.generation || Shown(DocOf(sha)) == numbers))
        && (!attempt.Acked? ==>
              DocOf(sha) == before && rows[sha].projected == row.projected &&
              ((before.None? && numbers != {}) || Classify(before, row.generation, numbers).Conflict?))
    {
      var generation := rows[sha].generation;
      var outcome := ApplyLinks(sha, generation, numbers);
      if outcome == DocumentMissing && numbers != {} {
        var tries := if sha in attempts then attempts[sha] else 0;
        var next := if tries >= MAX_RETRIES then Parked else Retry;
        Release(sha, token, next);
        return if next == Parked then ParkedNow else Retried;
      }
      if outcome == Conflict {
        Release(sha, token, Parked);
        return ParkedNow;
      }
      var acked := Complete(sha, token, generation);
      attempt := Acked;
    }
  }
}
