/**
 When exactly the alias move loses something: every run, with no condition on it.

 A history is kept beside the system: for each runner the documents that a write left out of the new index
 since the runner's activation. A write leaves a document out when it serves it without a shadow, as it does
 while the job is paused or ended, and when it closes, or is abandoned, while the shadow still lacks it.

 Main results: `StepRegressesIff`, `CheckAndMoveIff`, `RunRegressesIff`.
 */
module ReindexExact {
  import opened Wrappers
  import opened ReindexCutover
  import opened ReindexSafety

  // ----- History -----

  type History = map<nat, set<DocId>>

  function LeftBy(history: History, r: nat): set<DocId> {
    if r in history then history[r] else {}
  }

  function LeftOut(s: System, e: Event): set<DocId>
    requires Enabled(s, e)
  {
    match e
    case Item(w, id, answer) => if answer.Served? && !s.sections[w].shadow then {id} else {}
    case Leave(w) => s.sections[w].lacking
    case Abandon(w) => s.sections[w].lacking
    case _ => {}
  }

  /** A runner forgets the past when it activates: the scan that follows copies it. */
  function Noted(s: System, history: History, e: Event): History
    requires Enabled(s, e)
  {
    map r | r in Apply(s, e).runners :: if e == Run(r, Activate) then {} else LeftBy(history, r) + LeftOut(s, e)
  }

  // ----- Invariant -----

  /** The system without what the alias shows of some documents. */
  function Without(s: System, docs: set<DocId>): System {
    s.(source := s.source - docs)
  }

  predicate Past(stage: Stage) {
    Scans(stage) || stage.Switching?
  }

  ghost predicate CoveredBut(s: System, stage: Stage, docs: set<DocId>) {
    CoveredAll(Without(s, docs), stage)
  }

  ghost predicate ExactInv(s: System, history: History) {
    && StoreInv(s) && RunnersInv(s) && PagesInv(s) && FenceInv(s)
    && (!s.switched ==> forall r :: r in s.runners && Past(s.runners[r].stage) ==> CoveredBut(s, s.runners[r].stage, LeftBy(history, r)))
  }

  /** Fewer documents to cover, in the same indexes and writes. */
  lemma Restricted(a: System, b: System, stage: Stage)
    requires CoveredAll(a, stage)
    requires b.target == a.target && b.sections == a.sections
    requires forall id :: id in b.source ==> id in a.source && b.source[id] == a.source[id]
    ensures CoveredAll(b, stage)
  {
    hide Owes, ToCopy;
    forall id | id in b.source
      ensures Covered(b, stage, id)
    {
      assert Covered(a, stage, id);
      if Owed(a, id) {
        var w :| w in a.sections && Owes(a.sections[w], id, Version(a.source, id));
        OwedIn(b, w, id);
      }
    }
  }

  lemma StoreWithout(s: System, docs: set<DocId>)
    requires StoreInv(s)
    ensures StoreInv(Without(s, docs))
  {}

  // ----- Items -----

  /** A write without a shadow owes nothing, so answers to it change the cover of its own document at most. */
  lemma PlainItemCovers(s: System, stage: Stage, w: nat, id: DocId, answer: Answer, left: set<DocId>)
    requires CoveredBut(s, stage, left) && !s.switched
    requires w in s.sections && Awaits(s.sections[w], id, answer) && !s.sections[w].shadow
    requires answer.Served? ==> id in left
    ensures CoveredBut(ItemStep(s, w, id, answer), stage, left)
  {
    hide ToCopy, Answered, Awaits, Owes, Upsert, ItemStep, Version;
    var s' := ItemStep(s, w, id, answer);
    ItemGrows(s, w, id, answer);
    var a, b := Without(s, left), Without(s', left);
    forall other | other in b.source
      ensures Covered(b, stage, other)
    {
      PlainSource(s, w, id, answer, other, left);
      assert Covered(a, stage, other);
      assert Version(a.target, other) <= Version(b.target, other);
      if Owed(a, other) {
        var k :| k in a.sections && Owes(a.sections[k], other, Version(a.source, other));
        assert k != w by { PlainOwesNothing(a.sections[w], other, Version(a.source, other)); }
        OwedIn(b, k, other);
      }
    }
  }

  lemma PlainOwesNothing(section: Section, id: DocId, version: int)
    requires !section.shadow
    ensures !Owes(section, id, version)
  {}

  lemma PlainSource(s: System, w: nat, id: DocId, answer: Answer, other: DocId, left: set<DocId>)
    requires w in s.sections && Awaits(s.sections[w], id, answer) && !s.switched
    requires (answer.Served? ==> id in left) && other in Without(ItemStep(s, w, id, answer), left).source
    ensures other in Without(s, left).source
    ensures Version(Without(ItemStep(s, w, id, answer), left).source, other) == Version(Without(s, left).source, other)
  {
    hide Answered;
  }

  lemma ShadowItemCovers(s: System, stage: Stage, w: nat, id: DocId, answer: Answer, left: set<DocId>)
    requires StoreInv(s) && CoveredBut(s, stage, left) && !s.switched
    requires w in s.sections && Awaits(s.sections[w], id, answer) && s.sections[w].shadow
    ensures CoveredBut(ItemStep(s, w, id, answer), stage, left)
  {
    hide CoveredAll, StoreInv, Answered, Awaits;
    StoreWithout(s, left);
    ItemCovers(Without(s, left), stage, w, id, answer);
    Restricted(ItemStep(Without(s, left), w, id, answer), Without(ItemStep(s, w, id, answer), left), stage);
  }

  // ----- Closing -----

  lemma ClosedCovers(s: System, s': System, w: nat, stage: Stage, left: set<DocId>)
    requires CoveredBut(s, stage, left) && w in s.sections && s.sections[w].lacking <= left
    requires s'.source == s.source && s'.target == s.target && s'.sections == s.sections - {w}
    ensures CoveredBut(s', stage, left)
  {
    hide Covered, CoveredAll;
    var a := Without(s, left);
    forall id | id in a.source
      ensures !Owes(a.sections[w], id, Version(a.source, id))
    {}
    CloseCovers(a, Without(s', left), w, stage);
  }

  lemma PageLeft(s: System, r: nat, stage: Stage, left: set<DocId>)
    requires StoreInv(s) && CoveredBut(s, stage, left) && stage.Paging? && stage.rest != []
    requires r in s.sections && s.sections[r].docs == stage.page && s.sections[r].lacking <= left
    ensures CoveredBut(s, Next(stage), left)
  {
    hide Owed;
    SectionOf(s, r);
    var a := Without(s, left);
    forall id | id in a.source
      ensures Covered(a, Next(stage), id)
    {
      assert Covered(a, stage, id);
    }
  }

  // ----- Runner steps -----

  lemma RunnerCovers(s: System, r: nat, step: RunnerStep)
    requires StoreInv(s) && r in s.runners && MayRun(s, r, s.runners[r].stage, step)
    requires Past(s.runners[r].stage) ==> CoveredAll(s, s.runners[r].stage)
    requires Past(NextStage(s, s.runners[r].stage, step))
    ensures CoveredAll(s, NextStage(s, s.runners[r].stage, step))
  {
    hide Covered, PageRows, StoreInv;
    var stage := s.runners[r].stage;
    match step {
      case ListRepos => ListCovers(s);
      case ReadPage(last) => PageCovers(s, stage, last);
      case FinishScan =>
        forall id | id in s.source
          ensures Covered(s, ScanComplete, id)
        {
          EmptyRest(s, stage, id);
        }
      case Activate => AllToCopy(s);
      case CheckCutover =>
        forall id | id in s.source
          ensures Covered(s, Switching, id)
        {
          NothingToCopy(s, id);
        }
      case _ =>
    }
  }

  lemma AllToCopy(s: System)
    ensures CoveredAll(s, Activated)
  {}

  lemma NothingToCopy(s: System, id: DocId)
    requires Covered(s, ScanComplete, id)
    ensures Covered(s, Switching, id)
  {}

  lemma RunCovers(s: System, r: nat, step: RunnerStep, left: set<DocId>)
    requires StoreInv(s) && r in s.runners && MayRun(s, r, s.runners[r].stage, step)
    requires Past(s.runners[r].stage) ==> CoveredBut(s, s.runners[r].stage, left)
    requires Past(NextStage(s, s.runners[r].stage, step))
    ensures CoveredBut(RunnerStepped(s, r, step), NextStage(s, s.runners[r].stage, step), left)
  {
    hide CoveredAll, StoreInv, RunnerStepped, NextStage, MayRun;
    StoreWithout(s, left);
    SameSteps(s, r, step, left);
    RunnerCovers(Without(s, left), r, step);
    RunKeepsIndexes(s, r, step);
    Restricted(Without(s, left), Without(RunnerStepped(s, r, step), left), NextStage(s, s.runners[r].stage, step));
  }

  lemma SameSteps(s: System, r: nat, step: RunnerStep, left: set<DocId>)
    requires r in s.runners
    ensures MayRun(Without(s, left), r, s.runners[r].stage, step) == MayRun(s, r, s.runners[r].stage, step)
    ensures NextStage(Without(s, left), s.runners[r].stage, step) == NextStage(s, s.runners[r].stage, step)
  {}

  // ----- Every step -----

  lemma Coverless(s: System, s': System, stage: Stage, left: set<DocId>)
    requires CoveredBut(s, stage, left) && s'.source == s.source && s'.target == s.target
    requires forall w :: w in s.sections ==> w in s'.sections && s'.sections[w] == s.sections[w]
    ensures CoveredBut(s', stage, left)
  {
    hide CoveredAll;
    CoverageKept(Without(s, left), Without(s', left), stage);
  }

  lemma Widened(s: System, stage: Stage, left: set<DocId>, more: set<DocId>)
    requires CoveredBut(s, stage, left) && left <= more
    ensures CoveredBut(s, stage, more)
  {
    hide CoveredAll;
    Restricted(Without(s, left), Without(s, more), stage);
  }

  /** A runner is past its activation after a step only if it was before, or has just activated. */
  lemma PastBefore(s: System, e: Event, r: nat)
    requires Enabled(s, e) && r in Apply(s, e).runners && Past(Apply(s, e).runners[r].stage)
    ensures r in s.runners && (Past(s.runners[r].stage) || e == Run(r, Activate))
  {
    hide JobAfter, PhaseAfter, HoldAfter, Recorded, Open, Upsert, Answered, Awaits, PageRows;
  }

  /** Without a close, an answer or a runner's own step, writes stay open and nothing moves. */
  lemma Idle(s: System, e: Event)
    requires Enabled(s, e) && !e.Item? && !e.Leave? && !e.Abandon? && !e.Run?
    ensures
      var s' := Apply(s, e);
      s'.source == s.source && s'.target == s.target && forall w :: w in s.sections ==> w in s'.sections && s'.sections[w] == s.sections[w]
  {
    hide Recorded, Open, MayAct;
  }

  lemma ExactCovers(s: System, history: History, e: Event, r: nat)
    requires ExactInv(s, history) && Enabled(s, e) && !Apply(s, e).switched
    requires r in Apply(s, e).runners && Past(Apply(s, e).runners[r].stage)
    ensures CoveredBut(Apply(s, e), Apply(s, e).runners[r].stage, LeftBy(Noted(s, history, e), r))
  {
    hide CoveredBut, StoreInv, RunnersInv, FenceInv, Next, NextStage, Awaits, MayAct, Recorded, Upsert, Open, PageRows, Answered, MayRun,
      ItemStep, RunnerStepped, Past, AfterPage, Left;
    PastBefore(s, e, r);
    RunningPages(s, r);
    StageAfter(s, e, r);
    StillUnswitched(s, e);
    var s', stage := Apply(s, e), s.runners[r].stage;
    var left := if e == Run(r, Activate) then {} else LeftBy(history, r) + LeftOut(s, e);
    assert LeftBy(Noted(s, history, e), r) == left;
    if Past(stage) && e != Run(r, Activate) { Widened(s, stage, LeftBy(history, r), left); }
    match e {
      case Item(w, id, answer) =>
        if s.sections[w].shadow { ShadowItemCovers(s, stage, w, id, answer, left); } else { PlainItemCovers(s, stage, w, id, answer, left); }
      case Leave(w) => LeaveLeft(s, w, r, stage, left);
      case Abandon(w) => ClosedCovers(s, s', w, stage, left);
      case Run(q, step) =>
        if q == r {
          if step.Activate? { NotPastClaimed(s, r); }
          RunCovers(s, r, step, left);
        } else {
          RunKeepsIndexes(s, q, step);
          Coverless(s, s', stage, left);
        }
      case _ => Idle(s, e); Coverless(s, s', stage, left);
    }
  }

  lemma LeaveLeft(s: System, w: nat, r: nat, stage: Stage, left: set<DocId>)
    requires StoreInv(s) && CoveredBut(s, stage, left) && Enabled(s, Leave(w)) && s.sections[w].lacking <= left
    requires w == r ==> stage.Paging? && stage.rest != [] && s.sections[r].docs == stage.page
    ensures CoveredBut(Left(s, w), if w == r then Next(stage) else stage, left)
  {
    hide CoveredBut, StoreInv, Next, AfterPage;
    if w == r { PageLeft(s, r, stage, left); }
    ClosedCovers(s, Left(s, w), w, if w == r then Next(stage) else stage, left);
  }

  lemma NotPastClaimed(s: System, r: nat)
    requires Enabled(s, Run(r, Activate))
    ensures !Past(s.runners[r].stage)
  {}

  lemma RunningPages(s: System, r: nat)
    requires RunnersInv(s) && PagesInv(s) && r in s.runners
    ensures r in s.sections ==> s.runners[r].stage.Paging? && s.runners[r].stage.rest != [] && s.sections[r].docs == s.runners[r].stage.page
  {
    if r in s.sections { assert PageInv(s, r); }
  }

  lemma StillUnswitched(s: System, e: Event)
    requires Enabled(s, e) && !Apply(s, e).switched
    ensures !s.switched
  {
    AliasStays(s, e);
  }

  lemma StepKeepsExact(s: System, history: History, e: Event)
    requires ExactInv(s, history) && Enabled(s, e)
    ensures ExactInv(Apply(s, e), Noted(s, history, e))
  {
    hide StoreInv, RunnersInv, FenceInv, PagesInv, Enabled, Apply, CoveredBut, Noted;
    StoreStep(s, e);
    RunnersStep(s, e);
    PagesStep(s, e);
    FenceStep(s, e);
    if !Apply(s, e).switched {
      forall r | r in Apply(s, e).runners && Past(Apply(s, e).runners[r].stage)
        ensures CoveredBut(Apply(s, e), Apply(s, e).runners[r].stage, LeftBy(Noted(s, history, e), r))
      {
        ExactCovers(s, history, e, r);
      }
    }
  }

  // ----- What a step takes back -----

  /** Some other write brought each of these documents to the new index, no older. */
  ghost predicate MadeGood(s: System, docs: set<DocId>) {
    forall id :: id in docs ==> Version(s.source, id) <= Version(s.target, id)
  }

  lemma MirroredIff(s: System, docs: set<DocId>)
    requires CoveredBut(s, Switching, docs) && s.sections == map[]
    ensures AllMirrored(s) <==> MadeGood(s, docs)
  {
    if MadeGood(s, docs) {
      forall id | id in s.source
        ensures s.source[id] <= Version(s.target, id)
      {
        if id !in docs { assert Covered(Without(s, docs), Switching, id); }
      }
    }
  }

  lemma MoveRegressesIff(s: System, r: nat, recorded: bool)
    requires Enabled(s, Run(r, MoveAlias(recorded)))
    ensures NothingRegressed(s, Apply(s, Run(r, MoveAlias(recorded)))) <==> AllMirrored(s)
  {
    var s' := Apply(s, Run(r, MoveAlias(recorded)));
    assert forall id :: id in s.source ==> Visible(s, id) == s.source[id] && Visible(s', id) == Version(s.target, id);
  }

  lemma OtherStepsKeepVisible(s: System, e: Event)
    requires Enabled(s, e) && !(e.Run? && e.step.MoveAlias?)
    ensures NothingRegressed(s, Apply(s, e))
  {
    hide Recorded, Open, Upsert, Answered, Awaits, PageRows, Next, NextStage, MayAct, AfterPage, JobAfter, PhaseAfter, ItemStep;
    if e.Item? {
      ItemGrows(s, e.w, e.id, e.answer);
      ItemKeepsAlias(s, e.w, e.id, e.answer);
    }
  }

  /** What a move by this runner needs: each document a write left out since its activation was made good. */
  ghost predicate MakesGood(s: System, history: History, e: Event) {
    e.Run? && e.step.MoveAlias? ==> MadeGood(s, LeftBy(history, e.r))
  }

  /** In every reachable state a step takes back what readers see exactly if it is a move with something left out. */
  lemma StepRegressesIff(s: System, history: History, e: Event)
    requires ExactInv(s, history) && Enabled(s, e)
    ensures NothingRegressed(s, Apply(s, e)) <==> MakesGood(s, history, e)
  {
    if e.Run? && e.step.MoveAlias? {
      MirroredIff(s, LeftBy(history, e.r));
      MoveRegressesIff(s, e.r, e.step.recorded);
    } else {
      OtherStepsKeepVisible(s, e);
    }
  }

  function CheckAndMove(r: nat): seq<Event> {
    [Run(r, CheckCutover), Run(r, MoveAlias(true))]
  }

  /**
   A runner of the newest or of any older claim that comes to the cutover of a running job: its check and move
   take nothing back exactly if every document left out since it activated has been made good.
   */
  lemma CheckAndMoveIff(s: System, history: History, r: nat)
    requires ExactInv(s, history) && !s.switched && CutoverAllowed(s)
    requires r in s.runners && s.runners[r].stage.ScanComplete? && Alone(s)
    ensures RunOk(s, CheckAndMove(r))
    ensures NothingRegressed(s, After(s, CheckAndMove(r))) <==> MadeGood(s, LeftBy(history, r))
  {
    hide ExactInv, MadeGood, RunOk, After, Alone, Noted, Apply, Enabled, NothingRegressed, LeftBy, CutoverAllowed;
    var s1 := CheckThenMove(s, history, r);
    var noted := Noted(s, history, Run(r, CheckCutover));
    StepKeepsExact(s, history, Run(r, CheckCutover));
    StepRegressesIff(s1, noted, Run(r, MoveAlias(true)));
    assert MakesGood(s1, noted, Run(r, MoveAlias(true))) == MadeGood(s1, LeftBy(noted, r));
    SameIndexes(s, s1, After(s, CheckAndMove(r)), LeftBy(history, r));
  }

  lemma SameIndexes(s: System, s1: System, end: System, docs: set<DocId>)
    requires s1.source == s.source && s1.target == s.target && s1.switched == s.switched
    ensures MadeGood(s1, docs) <==> MadeGood(s, docs)
    ensures NothingRegressed(s1, end) <==> NothingRegressed(s, end)
  {
    assert forall id :: Visible(s1, id) == Visible(s, id);
  }

  lemma CheckThenMove(s: System, history: History, r: nat) returns (s1: System)
    requires CutoverAllowed(s) && !s.switched && r in s.runners && s.runners[r].stage.ScanComplete? && Alone(s)
    ensures Enabled(s, Run(r, CheckCutover)) && s1 == Apply(s, Run(r, CheckCutover)) && Enabled(s1, Run(r, MoveAlias(true)))
    ensures RunOk(s, CheckAndMove(r)) && After(s, CheckAndMove(r)) == Apply(s1, Run(r, MoveAlias(true)))
    ensures LeftBy(Noted(s, history, Run(r, CheckCutover)), r) == LeftBy(history, r)
    ensures s1.source == s.source && s1.target == s.target && s1.switched == s.switched
  {
    s1 := Apply(s, Run(r, CheckCutover));
    assert CheckAndMove(r)[1..] == [Run(r, MoveAlias(true))];
    RunOfOne(s1, Run(r, MoveAlias(true)));
  }

  // ----- Whole runs -----

  ghost predicate NeverRegresses(s: System, events: seq<Event>)
    requires RunOk(s, events)
    decreases |events|
  {
    events != [] ==> NothingRegressed(s, Apply(s, events[0])) && NeverRegresses(Apply(s, events[0]), events[1..])
  }

  ghost predicate AlwaysMadeGood(s: System, history: History, events: seq<Event>)
    requires RunOk(s, events)
    decreases |events|
  {
    events != [] ==>
      MakesGood(s, history, events[0]) && AlwaysMadeGood(Apply(s, events[0]), Noted(s, history, events[0]), events[1..])
  }

  lemma {:induction false} RegressesIff(s: System, history: History, events: seq<Event>)
    requires ExactInv(s, history) && RunOk(s, events)
    ensures NeverRegresses(s, events) <==> AlwaysMadeGood(s, history, events)
    decreases |events|
  {
    hide Enabled, Apply, ExactInv, Noted, MakesGood, NothingRegressed;
    if events != [] {
      StepRegressesIff(s, history, events[0]);
      StepKeepsExact(s, history, events[0]);
      RegressesIff(Apply(s, events[0]), Noted(s, history, events[0]), events[1..]);
    }
  }

  /**
   Over every run of writers, operators and any number of claims, with writes abandoned and jobs paused and
   resumed at any time: what readers see never goes back exactly if no move happens with something left out.
   */
  lemma RunRegressesIff(s: System, events: seq<Event>)
    requires Start(s) && RunOk(s, events)
    ensures NeverRegresses(s, events) <==> AlwaysMadeGood(s, map[], events)
  {
    RegressesIff(s, map[], events);
  }
}
