/** No write is lost at the alias move: the invariant, every step, and whole runs. */
module ReindexSafety {
  import opened Wrappers
  import opened ReindexCutover

  // ----- Invariant -----

  ghost predicate Under(docs: Index, canonical: Index) {
    forall id :: id in docs ==> docs[id] <= Version(canonical, id)
  }

  /** What is not lacking has reached the shadow; what is, is still to be sent or its failure is noted. */
  ghost predicate SectionInv(section: Section, target: Index) {
    && section.todo <= section.docs.Keys && section.served <= section.docs.Keys
    && section.mirrors <= section.docs.Keys && section.lacking <= section.docs.Keys
    && (forall id :: id in section.docs && id !in section.lacking ==> Version(target, id) >= section.docs[id])
    && (section.shadow ==> forall id :: id in section.lacking ==> id in section.mirrors || section.failures > 0)
  }

  ghost predicate StoreInv(s: System) {
    && Under(s.source, s.canonical)
    && (forall id :: id in s.canonical ==> id.repo in s.repos)
    && (forall w :: w in s.recorded ==> Under(s.recorded[w], s.canonical))
    && SectionsInv(s)
  }

  ghost predicate SectionsInv(s: System) {
    forall w :: w in s.sections ==> Under(s.sections[w].docs, s.canonical) && SectionInv(s.sections[w], s.target)
  }

  ghost predicate AllMirrored(s: System) {
    forall id :: id in s.source ==> s.source[id] <= Version(s.target, id)
  }

  ghost predicate RunnersInv(s: System) {
    && (forall r :: r in s.runners ==> s.runners[r].claim <= s.claims && r !in s.recorded)
    && (forall r :: r in s.runners && r in s.sections ==> s.runners[r].stage.Paging?)
    && ClaimsDiffer(s)
  }

  ghost predicate ClaimsDiffer(s: System) {
    forall r, q :: r in s.runners && q in s.runners && s.runners[r].claim == s.runners[q].claim ==> r == q
  }

  /** Behind the exclusive fence there is one runner, no open write, and no failure. */
  ghost predicate FenceInv(s: System) {
    && (forall r :: r in s.runners ==> (s.runners[r].stage.Switching? <==> s.exclusive == Some(r)))
    && (s.exclusive.Some? ==> s.sections == map[] && s.exclusive.value in s.runners && s.failures == 0)
  }

  ghost predicate HoldInv(s: System) {
    FenceInv(s) && (s.exclusive.Some? ==> s.switched || AllMirrored(s))
  }

  ghost predicate PagesInv(s: System) {
    forall r :: r in s.runners && s.runners[r].stage.Paging? ==> PageInv(s, r)
  }

  ghost predicate JobInv(s: System) {
    (s.failures > 0 ==> s.job == Failed) && RunnersInv(s) && HoldInv(s) && PagesInv(s)
  }

  ghost predicate PageInv(s: System, r: nat)
    requires r in s.runners && s.runners[r].stage.Paging?
  {
    var stage := s.runners[r].stage;
    stage.rest != [] && Under(stage.page, s.canonical) && (r in s.sections ==> s.sections[r].docs == stage.page)
  }

  predicate Scans(stage: Stage) {
    stage.Activated? || stage.Scanning? || stage.Paging? || stage.ScanComplete?
  }

  predicate AheadOf(rest: seq<nat>, after: nat, id: DocId) {
    rest != [] && (id.repo in rest[1..] || (id.repo == rest[0] && id.number > after))
  }

  /** The scan will still copy this document, or is copying a version at least as new. */
  predicate ToCopy(stage: Stage, id: DocId, version: int) {
    match stage
    case Activated => true
    case Scanning(rest, after) => AheadOf(rest, after, id)
    case Paging(rest, after, page, last) =>
      || (rest != [] && Next(stage).Scanning? && AheadOf(Next(stage).rest, Next(stage).after, id))
      || version <= Version(page, id)
    case _ => false
  }

  predicate Owes(section: Section, id: DocId, version: int) {
    section.shadow && id in section.served && id in section.lacking && version <= Version(section.docs, id)
  }

  ghost predicate Owed(s: System, id: DocId) {
    exists w :: w in s.sections && Owes(s.sections[w], id, Version(s.source, id))
  }

  ghost predicate Covered(s: System, stage: Stage, id: DocId) {
    || Version(s.source, id) <= Version(s.target, id)
    || ToCopy(stage, id, Version(s.source, id))
    || Owed(s, id)
  }

  /** The runner of the newest claim, while it scans and the job runs. */
  predicate Current(s: System, r: nat) {
    r in s.runners && s.runners[r].claim == s.claims && Scans(s.runners[r].stage) && s.job == Running && !s.switched
  }

  ghost predicate ScanInv(s: System, r: nat)
    requires r in s.runners
  {
    && s.phase == DualWriting
    && (forall w :: w in s.sections ==> s.sections[w].shadow)
    && (forall id :: id in s.source ==> Covered(s, s.runners[r].stage, id))
  }

  ghost predicate Inv(s: System) {
    StoreInv(s) && JobInv(s) && forall r :: Current(s, r) ==> ScanInv(s, r)
  }

  // ----- Conditions the code does not enforce -----

  /** Nothing of this write is visible through the alias without being in the shadow. */
  predicate Clean(section: Section) {
    section.shadow ==> section.served * section.lacking == {}
  }

  predicate Newest(s: System, r: nat) {
    r in s.runners && s.runners[r].claim == s.claims
  }

  /** No write ends half visible, and a runner whose job was paused and claimed again does not reach the alias. */
  predicate Calm(s: System, e: Event) {
    match e
    case Abandon(w) => w in s.sections ==> Clean(s.sections[w]) || Newest(s, w)
    case Run(r, CheckCutover) => Newest(s, r) || s.job != Running
    case _ => true
  }

  // ----- Stores -----

  ghost predicate Grew(a: Index, b: Index) {
    forall id :: Version(a, id) <= Version(b, id)
  }

  lemma RecordedGrows(canonical: Index, docs: Index)
    ensures Grew(canonical, Recorded(canonical, docs)) && Under(docs, Recorded(canonical, docs))
  {}

  lemma UnderGrows(docs: Index, a: Index, b: Index)
    requires Under(docs, a) && Grew(a, b)
    ensures Under(docs, b)
  {
    assert forall id :: Version(a, id) <= Version(b, id);
  }

  lemma UpsertGrows(index: Index, id: DocId, version: nat)
    ensures Grew(index, Upsert(index, id, version)) && Version(Upsert(index, id, version), id) >= version
  {}

  lemma UpsertUnder(index: Index, id: DocId, version: nat, canonical: Index)
    requires Under(index, canonical) && version <= Version(canonical, id)
    ensures Under(Upsert(index, id, version), canonical)
  {}

  lemma SectionGrows(section: Section, a: Index, b: Index)
    requires SectionInv(section, a) && Grew(a, b)
    ensures SectionInv(section, b)
  {
    assert forall id :: Version(a, id) <= Version(b, id);
  }

  lemma OpenInv(s: System, docs: Index)
    ensures SectionInv(Open(s, docs), s.target) && Open(s, docs).docs == docs && Open(s, docs).shadow == DualWrites(s)
    ensures Open(s, docs).served == {}
  {}

  lemma AnswerInv(section: Section, id: DocId, answer: Answer, target: Index)
    requires SectionInv(section, target) && Awaits(section, id, answer)
    requires answer.Mirrored? ==> Version(target, id) >= section.docs[id]
    ensures SectionInv(Answered(section, id, answer), target) && Answered(section, id, answer).docs == section.docs
  {}

  lemma ItemGrows(s: System, w: nat, id: DocId, answer: Answer)
    requires w in s.sections && Awaits(s.sections[w], id, answer)
    ensures
      var s' := ItemStep(s, w, id, answer);
      s'.canonical == s.canonical && Grew(s.source, s'.source) && Grew(s.target, s'.target) &&
      s'.sections == s.sections[w := Answered(s.sections[w], id, answer)] &&
      (answer.Mirrored? ==> Version(s'.target, id) >= s.sections[w].docs[id])
  {
    hide Answered, Upsert, Grew;
    GrewRefl(s.source);
    GrewRefl(s.target);
    UpsertGrows(s.source, id, s.sections[w].docs[id]);
    UpsertGrows(s.target, id, s.sections[w].docs[id]);
  }

  lemma GrewRefl(a: Index)
    ensures Grew(a, a)
  {}

  lemma SectionsKept(s: System, s': System)
    requires SectionsInv(s) && Grew(s.canonical, s'.canonical) && Grew(s.target, s'.target)
    requires forall w :: w in s'.sections ==> w in s.sections && s'.sections[w] == s.sections[w]
    ensures SectionsInv(s')
  {
    hide Under, SectionInv, Grew;
    forall w | w in s'.sections
      ensures Under(s'.sections[w].docs, s'.canonical) && SectionInv(s'.sections[w], s'.target)
    {
      UnderGrows(s.sections[w].docs, s.canonical, s'.canonical);
      SectionGrows(s.sections[w], s.target, s'.target);
    }
  }

  lemma SectionChanged(s: System, s': System, w: nat, section: Section)
    requires SectionsInv(s) && Grew(s.target, s'.target) && s'.canonical == s.canonical
    requires s'.sections == s.sections[w := section]
    requires Under(section.docs, s'.canonical) && SectionInv(section, s'.target)
    ensures SectionsInv(s')
  {
    hide Under, SectionInv, Grew;
    forall k | k in s'.sections
      ensures Under(s'.sections[k].docs, s'.canonical) && SectionInv(s'.sections[k], s'.target)
    {
      if k != w {
        SectionGrows(s.sections[k], s.target, s'.target);
      }
    }
  }

  predicate Quiet(e: Event) {
    !e.Record? && !e.Enter? && !e.EnterPage? && !e.Item?
  }

  ghost predicate Same(s: System, s': System) {
    && s'.canonical == s.canonical && s'.source == s.source && s'.target == s.target
    && (forall w :: w in s'.sections ==> w in s.sections && s'.sections[w] == s.sections[w])
    && (forall w :: w in s'.recorded ==> w in s.recorded && s'.recorded[w] == s.recorded[w])
  }

  lemma RunSame(s: System, r: nat, step: RunnerStep)
    requires r in s.runners
    ensures Same(s, RunnerStepped(s, r, step))
  {
    hide NextStage, SetStage, JobAfter, PhaseAfter, HoldAfter;
  }

  lemma QuietStep(s: System, e: Event)
    requires Enabled(s, e) && Quiet(e)
    ensures Same(s, Apply(s, e))
  {
    hide RunnerStepped, MayRun, MayAct, Awaits, AfterPage;
    if e.Run? {
      RunSame(s, e.r, e.step);
    }
  }

  lemma SectionsStep(s: System, e: Event)
    requires SectionsInv(s) && Enabled(s, e)
    requires forall w :: w in s.recorded ==> Under(s.recorded[w], s.canonical)
    requires PagesInv(s)
    ensures SectionsInv(Apply(s, e))
  {
    hide Recorded, Under, Upsert, Version, SectionInv, Answered, Awaits, Grew, PageRows, Open, Next, SectionsInv, ItemStep, MayRun, MayAct, RunnerStepped, Left;
    GrewRefl(s.canonical);
    GrewRefl(s.target);
    match e {
      case Record(w, docs) => RecordedGrows(s.canonical, docs); SectionsKept(s, Apply(s, e));
      case Enter(w) => OpenInv(s, s.recorded[w]); SectionChanged(s, Apply(s, e), w, Open(s, s.recorded[w]));
      case EnterPage(r) => OpenInv(s, s.runners[r].stage.page); SectionChanged(s, Apply(s, e), r, Open(s, s.runners[r].stage.page));
      case Item(w, id, answer) =>
        var s' := ItemStep(s, w, id, answer);
        ItemGrows(s, w, id, answer);
        SectionOf(s, w);
        SectionGrows(s.sections[w], s.target, s'.target);
        AnswerInv(s.sections[w], id, answer, s'.target);
        SectionChanged(s, s', w, Answered(s.sections[w], id, answer));
      case _ => QuietStep(s, e); SectionsKept(s, Apply(s, e));
    }
  }

  lemma SectionOf(s: System, w: nat)
    requires SectionsInv(s) && w in s.sections
    ensures Under(s.sections[w].docs, s.canonical) && SectionInv(s.sections[w], s.target)
  {}

  lemma UnderRecorded(canonical: Index, docs: Index, other: Index)
    requires Under(other, canonical)
    ensures Under(other, Recorded(canonical, docs))
  {}

  lemma StoreStep(s: System, e: Event)
    requires StoreInv(s) && PagesInv(s) && Enabled(s, e)
    ensures StoreInv(Apply(s, e))
  {
    hide PageRows, Open, Next, SectionInv, Answered, RunnerStepped, Left, MayRun, MayAct, PageInv, AllMirrored, SectionsInv, Under, Recorded, Upsert, Version;
    SectionsStep(s, e);
    var s' := Apply(s, e);
    match e {
      case Record(w, docs) =>
        RecordedGrows(s.canonical, docs);
        RecordedRepos(s.canonical, docs);
        UnderRecorded(s.canonical, docs, s.source);
        forall k | k in s'.recorded
          ensures Under(s'.recorded[k], s'.canonical)
        {
          if k != w { UnderRecorded(s.canonical, docs, s.recorded[k]); }
        }
      case Item(w, id, answer) =>
        SectionOf(s, w);
        UnderAt(s.sections[w].docs, s.canonical, id);
        UpsertUnder(s.source, id, s.sections[w].docs[id], s.canonical);
      case Enter(_) =>
      case EnterPage(_) =>
      case _ => QuietStep(s, e); QuietRepos(s, e);
    }
  }

  lemma UnderAt(docs: Index, canonical: Index, id: DocId)
    requires Under(docs, canonical) && id in docs
    ensures docs[id] <= Version(canonical, id)
  {}

  lemma RecordedRepos(canonical: Index, docs: Index)
    ensures Recorded(canonical, docs).Keys == canonical.Keys + docs.Keys
  {}

  lemma QuietRepos(s: System, e: Event)
    requires Enabled(s, e) && Quiet(e)
    ensures forall repo :: repo in s.repos ==> repo in Apply(s, e).repos
  {
    hide NextStage, SetStage, JobAfter, PhaseAfter, HoldAfter, MayRun, MayAct, Awaits, AfterPage;
  }

  // ----- Job, fence and pages -----

  lemma FailuresStep(s: System, e: Event)
    requires s.failures > 0 ==> s.job == Failed
    requires Enabled(s, e)
    ensures Apply(s, e).failures > 0 ==> Apply(s, e).job == Failed
  {
    hide NextStage, SetStage, PhaseAfter, HoldAfter, Awaits, AfterPage, Recorded, Open, Upsert, Answered, PageRows;
  }

  lemma ClaimsStep(s: System, e: Event)
    requires RunnersInv(s) && Enabled(s, e)
    ensures ClaimsDiffer(Apply(s, e))
  {
    hide JobAfter, PhaseAfter, HoldAfter, Recorded, Open, Upsert, Answered, Awaits, Next, NextStage, PageRows, MayAct, MayRun;
  }

  lemma RunnersStep(s: System, e: Event)
    requires RunnersInv(s) && Enabled(s, e)
    ensures RunnersInv(Apply(s, e))
  {
    hide JobAfter, PhaseAfter, HoldAfter, Recorded, Open, Upsert, Answered, Awaits, Next, PageRows, MayAct, ClaimsDiffer;
    ClaimsStep(s, e);
  }

  lemma FenceStep(s: System, e: Event)
    requires FenceInv(s) && RunnersInv(s) && Enabled(s, e)
    ensures FenceInv(Apply(s, e))
    ensures s.exclusive.None? && Apply(s, e).exclusive.Some? ==> e == Run(Apply(s, e).exclusive.value, CheckCutover) && CutoverAllowed(s) && Alone(s)
    ensures s.exclusive.Some? && Apply(s, e).exclusive.Some? ==> Apply(s, e).exclusive == s.exclusive
    ensures s.exclusive.Some? ==> Apply(s, e).source == s.source && Apply(s, e).target == s.target
  {
    hide JobAfter, PhaseAfter, Recorded, Open, Upsert, Answered, Awaits, PageRows, MayAct, ClaimsDiffer;
  }

  lemma HoldStep(s: System, e: Event)
    requires HoldInv(s) && RunnersInv(s) && Enabled(s, e)
    requires e.Run? && e.step.CheckCutover? && CutoverAllowed(s) ==> s.switched || AllMirrored(s)
    ensures HoldInv(Apply(s, e))
  {
    hide JobAfter, PhaseAfter, Recorded, Open, Upsert, Answered, Awaits, PageRows, MayAct, RunnersInv, Version, FenceInv;
    FenceStep(s, e);
    if s.exclusive.None? && e.Run? { RunKeepsIndexes(s, e.r, e.step); }
    AliasStays(s, e);
  }

  lemma AliasStays(s: System, e: Event)
    requires Enabled(s, e)
    ensures s.switched ==> Apply(s, e).switched
  {
    hide JobAfter, PhaseAfter, Recorded, Open, Upsert, Answered, Awaits, PageRows, MayAct, HoldAfter, NextStage, MayRun, AfterPage, SetStage;
  }

  lemma PagesStep(s: System, e: Event)
    requires PagesInv(s) && RunnersInv(s) && Enabled(s, e)
    ensures PagesInv(Apply(s, e))
  {
    hide JobAfter, PhaseAfter, HoldAfter, Upsert, Awaits, MayAct, Recorded, Under, PageRows;
    var s' := Apply(s, e);
    forall r | r in s'.runners && s'.runners[r].stage.Paging?
      ensures PageInv(s', r)
    {
      match e {
        case Record(w, docs) => UnderRecorded(s.canonical, docs, s.runners[r].stage.page);
        case Run(q, ReadPage(last)) =>
          if q == r {
            PageRowsUnder(s.canonical, s.runners[r].stage.rest[0], s.runners[r].stage.after, last);
          }
        case _ =>
      }
    }
  }

  lemma PageRowsUnder(canonical: Index, repo: nat, after: nat, last: Option<PrNumber>)
    ensures Under(PageRows(canonical, repo, after, last), canonical)
  {}

  // ----- Coverage -----

  ghost predicate CoveredAll(s: System, stage: Stage) {
    forall id :: id in s.source ==> Covered(s, stage, id)
  }

  lemma OwedIn(s: System, w: nat, id: DocId)
    requires w in s.sections && Owes(s.sections[w], id, Version(s.source, id))
    ensures Owed(s, id)
  {}

  /** Sections only come, nothing moves in the indexes: what was covered stays covered. */
  lemma CoverageKept(s: System, s': System, stage: Stage)
    requires CoveredAll(s, stage) && s'.source == s.source && s'.target == s.target
    requires forall w :: w in s.sections ==> w in s'.sections && s'.sections[w] == s.sections[w]
    ensures CoveredAll(s', stage)
  {
    hide Owes, ToCopy, Version;
    forall id | id in s'.source
      ensures Covered(s', stage, id)
    {
      assert Covered(s, stage, id);
      if Owed(s, id) {
        var w :| w in s.sections && Owes(s.sections[w], id, Version(s.source, id));
        OwedIn(s', w, id);
      }
    }
  }

  lemma AnswerOwes(section: Section, id: DocId, answer: Answer, other: DocId, version: int, target: Index)
    requires Awaits(section, id, answer) && SectionInv(section, target) && section.shadow
    requires Owes(section, other, version)
    requires answer.Mirrored? ==> Version(target, id) >= section.docs[id]
    ensures Owes(Answered(section, id, answer), other, version) || version <= Version(target, other)
  {}

  lemma ServedOwes(section: Section, id: DocId, target: Index)
    requires Awaits(section, id, Served) && SectionInv(section, target) && section.shadow
    ensures Owes(Answered(section, id, Served), id, section.docs[id]) || section.docs[id] <= Version(target, id)
  {}

  lemma ItemCovers(s: System, stage: Stage, w: nat, id: DocId, answer: Answer)
    requires StoreInv(s) && CoveredAll(s, stage) && !s.switched
    requires w in s.sections && Awaits(s.sections[w], id, answer) && s.sections[w].shadow
    ensures CoveredAll(ItemStep(s, w, id, answer), stage)
  {
    hide Owes, ToCopy, Answered, Upsert, SectionInv, Under, Covered, ItemStep, SectionsInv, Awaits;
    SectionOf(s, w);
    ItemGrows(s, w, id, answer);
    var s' := ItemStep(s, w, id, answer);
    SectionGrows(s.sections[w], s.target, s'.target);
    forall other | other in s'.source
      ensures Covered(s', stage, other)
    {
      ItemCoversOne(s, stage, w, id, answer, other);
    }
  }

  lemma ItemCoversOne(s: System, stage: Stage, w: nat, id: DocId, answer: Answer, other: DocId)
    requires CoveredAll(s, stage) && !s.switched
    requires w in s.sections && Awaits(s.sections[w], id, answer) && s.sections[w].shadow
    requires other in ItemStep(s, w, id, answer).source
    requires SectionInv(s.sections[w], ItemStep(s, w, id, answer).target)
    ensures Covered(ItemStep(s, w, id, answer), stage, other)
  {
    hide Owes, ToCopy, Answered, Upsert, SectionInv, Owed, ItemStep, CoveredAll;
    var s', section := ItemStep(s, w, id, answer), s.sections[w];
    ItemGrows(s, w, id, answer);
    ItemSource(s, w, id, answer, other);
    assert Version(s.target, other) <= Version(s'.target, other);
    if Version(s'.source, other) != Version(s.source, other) {
      ServedOwes(section, id, s'.target);
      if Owes(Answered(section, id, Served), id, section.docs[id]) {
        OwedIn(s', w, id);
      }
    } else {
      SameVersionIn(s.source, s'.source, other);
      assert Covered(s, stage, other) by { CoveredAt(s, stage, other); }
      if Owed(s, other) {
        OwedKept(s, s', w, id, answer, other);
      }
    }
  }

  lemma CoveredAt(s: System, stage: Stage, id: DocId)
    requires CoveredAll(s, stage) && id in s.source
    ensures Covered(s, stage, id)
  {}

  /** Only a served answer can change what the alias shows, and only for its own document. */
  lemma ItemSource(s: System, w: nat, id: DocId, answer: Answer, other: DocId)
    requires w in s.sections && Awaits(s.sections[w], id, answer) && !s.switched
    ensures
      var s' := ItemStep(s, w, id, answer);
      Version(s'.source, other) == Version(s.source, other) ||
      (answer == Served && other == id && Version(s'.source, other) == s.sections[w].docs[id])
  {
    hide Answered;
  }

  lemma OwedKept(s: System, s': System, w: nat, id: DocId, answer: Answer, other: DocId)
    requires w in s.sections && Awaits(s.sections[w], id, answer) && s.sections[w].shadow
    requires s'.sections == s.sections[w := Answered(s.sections[w], id, answer)]
    requires Version(s'.source, other) == Version(s.source, other) && Owed(s, other)
    requires SectionInv(s.sections[w], s'.target)
    requires answer.Mirrored? ==> Version(s'.target, id) >= s.sections[w].docs[id]
    ensures Owed(s', other) || Version(s'.source, other) <= Version(s'.target, other)
  {
    hide Owes, Answered, SectionInv, Version;
    var k :| k in s.sections && Owes(s.sections[k], other, Version(s.source, other));
    if k == w {
      AnswerOwes(s.sections[w], id, answer, other, Version(s.source, other), s'.target);
    }
    if Owes(s'.sections[k], other, Version(s'.source, other)) {
      OwedIn(s', k, other);
    }
  }

  lemma SameVersionIn(a: Index, b: Index, id: DocId)
    requires id in b && Version(a, id) == Version(b, id)
    ensures id in a
  {}

  /** A write closes owing nothing: its failures end the job, and a runner's page has reached the shadow. */
  lemma CloseCovers(s: System, s': System, w: nat, stage: Stage)
    requires CoveredAll(s, stage) && w in s.sections
    requires s'.source == s.source && s'.target == s.target && s'.sections == s.sections - {w}
    requires forall id :: id in s.source && Owes(s.sections[w], id, Version(s.source, id)) ==> ToCopy(stage, id, Version(s.source, id))
    ensures CoveredAll(s', stage)
  {
    hide Owes, ToCopy, Version;
    forall id | id in s'.source
      ensures Covered(s', stage, id)
    {
      assert Covered(s, stage, id);
      if Owed(s, id) {
        var k :| k in s.sections && Owes(s.sections[k], id, Version(s.source, id));
        if k != w {
          OwedIn(s', k, id);
        }
      }
    }
  }

  lemma PageWritten(s: System, r: nat, stage: Stage)
    requires StoreInv(s) && CoveredAll(s, stage) && stage.Paging? && stage.rest != []
    requires r in s.sections && s.sections[r].docs == stage.page && s.sections[r].shadow && s.sections[r].lacking == {}
    ensures CoveredAll(s, Next(stage))
  {
    hide Owed;
    SectionOf(s, r);
    forall id | id in s.source
      ensures Covered(s, Next(stage), id)
    {
      assert Covered(s, stage, id);
    }
  }

  lemma ListCovers(s: System)
    requires StoreInv(s)
    ensures CoveredAll(s, Scanning(s.repos, 0))
  {
    forall id | id in s.source
      ensures Covered(s, Scanning(s.repos, 0), id)
    {
      assert id in s.canonical;
    }
  }

  lemma AheadTail(rest: seq<nat>, id: DocId)
    requires rest != [] && id.repo in rest[1..]
    ensures AheadOf(rest[1..], 0, id)
  {
    if id.repo != rest[1] {
      assert rest[1..] == [rest[1]] + rest[1..][1..];
    }
  }

  lemma PageCopies(s: System, stage: Stage, last: Option<PrNumber>, id: DocId)
    requires stage.Scanning? && stage.rest != [] && AheadOf(stage.rest, stage.after, id)
    requires id in s.canonical && id in s.source && s.source[id] <= s.canonical[id]
    requires last.Some? ==> PageRows(s.canonical, stage.rest[0], stage.after, last) != map[]
    ensures ToCopy(NextStage(s, stage, ReadPage(last)), id, s.source[id])
  {
    var rows := PageRows(s.canonical, stage.rest[0], stage.after, last);
    if id.repo in stage.rest[1..] {
      AheadTail(stage.rest, id);
    } else if last.Some? && id.number > last.value {
    } else {
      assert id in rows;
    }
  }

  lemma PageCovers(s: System, stage: Stage, last: Option<PrNumber>)
    requires StoreInv(s) && CoveredAll(s, stage) && stage.Scanning? && stage.rest != []
    requires last.Some? ==> PageRows(s.canonical, stage.rest[0], stage.after, last) != map[]
    ensures CoveredAll(s, NextStage(s, stage, ReadPage(last)))
  {
    hide Owed, SectionsInv, NextStage, AheadOf, PageRows;
    forall id | id in s.source
      ensures Covered(s, NextStage(s, stage, ReadPage(last)), id)
    {
      assert Covered(s, stage, id) && s.source[id] <= Version(s.canonical, id);
      if ToCopy(stage, id, s.source[id]) {
        PageCopies(s, stage, last, id);
      }
    }
  }

  // ----- Every step -----

  lemma StageCovers(s: System, r: nat, step: RunnerStep)
    requires Inv(s) && Current(s, r) && MayRun(s, r, s.runners[r].stage, step)
    requires Scans(NextStage(s, s.runners[r].stage, step))
    ensures CoveredAll(s, NextStage(s, s.runners[r].stage, step))
  {
    hide Covered, PageRows, StoreInv, JobInv;
    assert CoveredAll(s, s.runners[r].stage);
    match step {
      case ListRepos => ListCovers(s);
      case ReadPage(last) => PageCovers(s, s.runners[r].stage, last);
      case FinishScan =>
        forall id | id in s.source
          ensures Covered(s, ScanComplete, id)
        {
          EmptyRest(s, s.runners[r].stage, id);
        }
      case _ =>
    }
  }

  lemma EmptyRest(s: System, stage: Stage, id: DocId)
    requires Covered(s, stage, id) && stage.Scanning? && stage.rest == []
    ensures Covered(s, ScanComplete, id)
  {}

  lemma StoreOf(s: System)
    requires Inv(s)
    ensures StoreInv(s) && JobInv(s) && RunnersInv(s) && HoldInv(s) && PagesInv(s)
  {}

  lemma ScanOf(s: System, r: nat)
    requires Inv(s) && Current(s, r)
    ensures ScanInv(s, r) && CoveredAll(s, s.runners[r].stage) && DualWrites(s)
  {}

  ghost predicate AllShadow(s: System) {
    forall w :: w in s.sections ==> s.sections[w].shadow
  }

  lemma ClosedOwesNothing(section: Section, target: Index)
    requires SectionInv(section, target) && section.shadow && section.mirrors == {} && section.failures == 0
    ensures section.lacking == {} && forall id, version :: !Owes(section, id, version)
  {}

  lemma LeaveCovers(s: System, w: nat, r: nat)
    requires Inv(s) && Current(s, r) && Enabled(s, Leave(w)) && s.sections[w].failures == 0
    ensures CoveredAll(Left(s, w), if w == r then Next(s.runners[r].stage) else s.runners[r].stage)
  {
    hide Covered, Next, CoveredAll, Version, SectionInv, Owes, HoldInv, AfterPage;
    ScanOf(s, r);
    ClosedOwesNothing(s.sections[w], s.target);
    if w == r {
      assert PageInv(s, r);
      PageWritten(s, r, s.runners[r].stage);
    }
    CloseCovers(s, Left(s, w), w, if w == r then Next(s.runners[r].stage) else s.runners[r].stage);
  }

  lemma CleanOwesNothing(section: Section)
    requires Clean(section)
    ensures forall id, version :: !Owes(section, id, version)
  {
    forall id, version
      ensures !Owes(section, id, version)
    {
      if section.shadow {
        assert id !in section.served * section.lacking;
      }
    }
  }

  lemma AbandonCovers(s: System, w: nat, r: nat)
    requires Inv(s) && Current(s, r) && Enabled(s, Abandon(w)) && (Clean(s.sections[w]) || Newest(s, w))
    ensures CoveredAll(Apply(s, Abandon(w)), s.runners[r].stage)
  {
    hide Covered, CoveredAll, Version, HoldInv, StoreInv;
    ScanOf(s, r);
    var section, stage := s.sections[w], s.runners[r].stage;
    if Newest(s, w) {
      assert w == r && PageInv(s, r);
    } else {
      CleanOwesNothing(section);
    }
    CloseCovers(s, Apply(s, Abandon(w)), w, stage);
  }

  /** A runner is current after a step only if it was before it, or has just activated. */
  lemma CurrentBefore(s: System, e: Event, r: nat)
    requires RunnersInv(s) && Enabled(s, e) && Current(Apply(s, e), r)
    ensures r in s.runners && s.runners[r].claim == s.claims && s.job == Running && !s.switched
    ensures Current(s, r) || e == Run(r, Activate)
    ensures e.Leave? ==> s.sections[e.w].failures == 0
  {
    hide PhaseAfter, HoldAfter, Recorded, Open, Upsert, Answered, Awaits, PageRows;
  }

  /** How a step moves a current runner. */
  lemma StageAfter(s: System, e: Event, r: nat)
    requires Enabled(s, e) && r in s.runners && (r in s.sections ==> s.runners[r].stage.Paging? && s.runners[r].stage.rest != [])
    ensures
      r in Apply(s, e).runners &&
      Apply(s, e).runners[r].stage ==
        if e == Leave(r) then Next(s.runners[r].stage)
        else if e.Run? && e.r == r then NextStage(s, s.runners[r].stage, e.step)
        else s.runners[r].stage
  {
    hide JobAfter, PhaseAfter, HoldAfter, Recorded, Open, Upsert, Answered, Awaits, PageRows, NextStage, Next, MayRun, MayAct;
  }

  lemma ScanStep(s: System, e: Event, r: nat)
    requires Inv(s) && Enabled(s, e) && Calm(s, e) && Current(Apply(s, e), r)
    ensures CoveredAll(Apply(s, e), Apply(s, e).runners[r].stage)
  {
    hide Covered, CoveredAll, Version, ScanInv, Clean, StoreInv, HoldInv, Next, NextStage, Awaits, MayAct, Recorded, Upsert, Open, PageRows, Answered, MayRun,
      ItemStep, Left, RunnerStepped;
    CurrentBefore(s, e, r);
    StoreOf(s);
    if r in s.sections { assert PageInv(s, r); }
    StageAfter(s, e, r);
    var s', stage := Apply(s, e), s.runners[r].stage;
    if Current(s, r) {
      ScanOf(s, r);
      match e {
        case Item(w, id, answer) => ItemCovers(s, stage, w, id, answer);
        case Leave(w) => LeaveCovers(s, w, r);
        case Abandon(w) => AbandonCovers(s, w, r);
        case Enter(w) => CoverageKept(s, s', stage);
        case EnterPage(w) => CoverageKept(s, s', stage);
        case Run(q, step) =>
          if q == r { StageCovers(s, r, step); }
          RunKeepsIndexes(s, q, step);
          CoverageKept(s, s', s'.runners[r].stage);
        case _ => CoverageKept(s, s', stage);
      }
    } else {
      JustActivated(s, r);
    }
  }

  lemma RunKeepsIndexes(s: System, r: nat, step: RunnerStep)
    requires r in s.runners
    ensures
      var s' := RunnerStepped(s, r, step);
      s'.source == s.source && s'.target == s.target && s'.sections == s.sections
  {
    hide NextStage, SetStage, JobAfter, PhaseAfter, HoldAfter;
  }

  lemma JustActivated(s: System, r: nat)
    requires Enabled(s, Run(r, Activate))
    ensures CoveredAll(Apply(s, Run(r, Activate)), Apply(s, Run(r, Activate)).runners[r].stage)
  {}

  /** While a current runner scans, every open write also writes to the index under construction. */
  lemma ShadowStep(s: System, e: Event, r: nat)
    requires Inv(s) && Enabled(s, e) && Current(Apply(s, e), r)
    ensures Apply(s, e).phase == DualWriting && AllShadow(Apply(s, e))
  {
    hide Covered, CoveredAll, Version, StoreInv, HoldInv, Next, NextStage, Recorded, Upsert, PageRows, MayAct, AfterPage, JobAfter;
    CurrentBefore(s, e, r);
    if Current(s, r) {
      ScanOf(s, r);
    }
  }

  lemma StepKeepsInv(s: System, e: Event)
    requires Inv(s) && Enabled(s, e) && Calm(s, e)
    ensures Inv(Apply(s, e))
  {
    hide StoreInv, RunnersInv, HoldInv, PagesInv, Enabled, Apply, Covered, AllMirrored, Calm;
    StoreOf(s);
    StoreStep(s, e);
    FailuresStep(s, e);
    RunnersStep(s, e);
    PagesStep(s, e);
    CutoverMirrored(s, e);
    HoldStep(s, e);
    forall r | Current(Apply(s, e), r)
      ensures ScanInv(Apply(s, e), r)
    {
      ScanStep(s, e, r);
      ShadowStep(s, e, r);
    }
  }

  /** Behind the exclusive fence, after the scan, the check finds every visible document in the new index. */
  lemma CutoverMirrored(s: System, e: Event)
    requires Inv(s) && Enabled(s, e) && Calm(s, e)
    ensures e.Run? && e.step.CheckCutover? && CutoverAllowed(s) ==> s.switched || AllMirrored(s)
  {
    hide StoreInv, JobInv, Version;
    if e.Run? && e.step.CheckCutover? && CutoverAllowed(s) && !s.switched {
      assert Current(s, e.r);
      ScanOf(s, e.r);
      forall id | id in s.source
        ensures s.source[id] <= Version(s.target, id)
      {
        assert Covered(s, ScanComplete, id);
        VersionOfKnown(s.source, id);
      }
    }
  }

  lemma VersionOfKnown(index: Index, id: DocId)
    requires id in index
    ensures Version(index, id) == index[id]
  {}

  // ----- Whole runs -----

  ghost predicate Start(s: System) {
    && Under(s.source, s.canonical) && (forall id :: id in s.canonical ==> id.repo in s.repos)
    && s.job == Queued && s.failures == 0 && s.claims == 0
    && s.recorded == map[] && s.sections == map[] && s.exclusive == None && s.runners == map[]
  }

  ghost predicate RunOk(s: System, events: seq<Event>)
    decreases |events|
  {
    events != [] ==> Enabled(s, events[0]) && RunOk(Apply(s, events[0]), events[1..])
  }

  function After(s: System, events: seq<Event>): System
    requires RunOk(s, events)
    decreases |events|
  {
    if events == [] then s else After(Apply(s, events[0]), events[1..])
  }

  ghost predicate CalmRun(s: System, events: seq<Event>)
    requires RunOk(s, events)
    decreases |events|
  {
    events != [] ==> Calm(s, events[0]) && CalmRun(Apply(s, events[0]), events[1..])
  }

  ghost predicate NothingRegressed(s: System, s': System) {
    forall id :: Visible(s, id) <= Visible(s', id)
  }

  lemma StepKeepsVisible(s: System, e: Event)
    requires Inv(s) && Enabled(s, e)
    ensures NothingRegressed(s, Apply(s, e))
  {
    hide Recorded, Open, Upsert, Answered, Awaits, PageRows, Next, NextStage, StoreInv, ScanInv, RunnersInv, PagesInv, MayAct, AfterPage, JobAfter, PhaseAfter, Current, ItemStep;
    if e.Item? {
      ItemGrows(s, e.w, e.id, e.answer);
      ItemKeepsAlias(s, e.w, e.id, e.answer);
    }
  }

  lemma ItemKeepsAlias(s: System, w: nat, id: DocId, answer: Answer)
    requires w in s.sections && Awaits(s.sections[w], id, answer)
    ensures ItemStep(s, w, id, answer).switched == s.switched
  {}

  /**
   In every calm run, whatever writers, operators and runners interleave, the version of a document that
   readers of the alias see never goes back: not while the index is rebuilt, not at the move, not after it.
   */
  lemma {:induction false} NothingIsLost(s: System, events: seq<Event>)
    requires Inv(s) && RunOk(s, events) && CalmRun(s, events)
    ensures Inv(After(s, events)) && NothingRegressed(s, After(s, events))
    decreases |events|
  {
    if events != [] {
      hide Inv, Enabled, Apply, Calm, Visible;
      StepKeepsInv(s, events[0]);
      StepKeepsVisible(s, events[0]);
      NothingIsLost(Apply(s, events[0]), events[1..]);
    }
  }

  lemma StartInv(s: System)
    requires Start(s)
    ensures Inv(s)
  {}

  /** From the start of a job: at the very move, every document served so far is in the new index, no older. */
  lemma MoveIsComplete(s: System, events: seq<Event>, r: nat, recorded: bool)
    requires Start(s) && RunOk(s, events) && CalmRun(s, events)
    requires Enabled(After(s, events), Run(r, MoveAlias(recorded)))
    ensures AllMirrored(After(s, events)) && After(s, events).sections == map[]
  {
    StartInv(s);
    NothingIsLost(s, events);
  }

  // ----- When the alias moves -----

  lemma {:induction false} RunPrefix(s: System, events: seq<Event>, n: nat)
    requires RunOk(s, events) && n <= |events|
    ensures RunOk(s, events[..n]) && RunOk(After(s, events[..n]), events[n..]) && After(After(s, events[..n]), events[n..]) == After(s, events)
    decreases |events|
  {
    hide Enabled, Apply;
    if n > 0 {
      RunPrefix(Apply(s, events[0]), events[1..], n - 1);
      assert events[..n][0] == events[0] && events[..n][1..] == events[1..][..n - 1];
      assert events[1..][n - 1..] == events[n..];
    } else {
      assert events[..0] == [] && events[0..] == events;
    }
  }

  /** Event i is runner r's check, alone, of a running job without failures; from then on it has held the fence. */
  ghost predicate CheckedAt(s: System, events: seq<Event>, i: nat, r: nat)
    requires RunOk(s, events)
  {
    && i < |events| && events[i] == Run(r, CheckCutover)
    && RunOk(s, events[..i])
    && (var before := After(s, events[..i]); before.job == Running && before.failures == 0 && Alone(before))
    && forall j :: i < j <= |events| ==> RunOk(s, events[..j]) && HeldBy(After(s, events[..j]), r)
  }

  predicate HeldBy(s: System, r: nat) {
    s.exclusive == Some(r) && s.sections.Keys == {} && s.failures == 0
  }

  lemma {:induction false} FenceRun(s: System, events: seq<Event>)
    requires FenceInv(s) && RunnersInv(s) && RunOk(s, events)
    ensures FenceInv(After(s, events)) && RunnersInv(After(s, events))
    decreases |events|
  {
    hide Enabled, Apply, FenceInv, RunnersInv;
    if events != [] {
      FenceStep(s, events[0]);
      RunnersStep(s, events[0]);
      FenceRun(Apply(s, events[0]), events[1..]);
    }
  }

  /** Whoever holds the fence exclusively for a cutover has made the check itself and never let go since. */
  lemma {:induction false} HolderChecked(s: System, events: seq<Event>, r: nat) returns (i: nat)
    requires FenceInv(s) && RunnersInv(s) && s.exclusive.None? && RunOk(s, events) && After(s, events).exclusive == Some(r)
    ensures CheckedAt(s, events, i, r)
    decreases |events|
  {
    hide Enabled, Apply, RunnersInv, Alone;
    var n := |events| - 1;
    var front := events[..n];
    RunPrefix(s, events, n);
    var before := After(s, front);
    assert events[n..] == [events[n]];
    assert events[n..][1..] == [];
    assert After(s, events) == Apply(before, events[n]);
    FenceRun(s, front);
    FenceRun(s, events);
    FenceStep(before, events[n]);
    assert events[..|events|] == events;
    if before.exclusive.None? {
      i := n;
    } else {
      i := HolderChecked(s, front, r);
      assert front[i] == events[i] && front[..i] == events[..i];
      forall j | i < j <= |events|
        ensures RunOk(s, events[..j]) && HeldBy(After(s, events[..j]), r)
      {
        if j <= n { assert front[..j] == events[..j]; }
      }
    }
  }

  /**
   In every run from a start, calm or not: the runner that moves the alias has itself checked, alone behind the
   exclusive fence, that the job was running and no failure noted, and from the check to the move it held the
   fence, with no write open and no failure noted.
   */
  lemma AliasMoveWasChecked(s: System, events: seq<Event>, r: nat, recorded: bool) returns (i: nat)
    requires Start(s) && RunOk(s, events) && Enabled(After(s, events), Run(r, MoveAlias(recorded)))
    ensures CheckedAt(s, events, i, r)
  {
    FenceRun(s, events);
    i := HolderChecked(s, events, r);
  }

  // ----- Where calm is needed -----

  /** What a served, lacking document needs for the move not to take it back. */
  ghost predicate Superseded(s: System, section: Section) {
    forall id :: id in section.served * section.lacking ==> Version(s.source, id) <= Version(s.target, id)
  }

  lemma MovedRegresses(s: System, s': System, w: nat)
    requires CoveredAll(s, ScanComplete) && s.sections.Keys == {w} && !s.switched
    requires s'.switched && s'.target == s.target
    ensures NothingRegressed(s, s') <==> Superseded(s, s.sections[w])
  {
    if Superseded(s, s.sections[w]) {
      forall id
        ensures Visible(s, id) <= Visible(s', id)
      {
        if id in s.source {
          assert Covered(s, ScanComplete, id);
          assert id in s.sections[w].served && id in s.sections[w].lacking ==> id in s.sections[w].served * s.sections[w].lacking;
        }
      }
    } else {
      var id :| id in s.sections[w].served * s.sections[w].lacking && !(Version(s.source, id) <= Version(s.target, id));
      assert Visible(s, id) > Visible(s', id);
    }
  }

  function AbandonAndMove(w: nat, r: nat): seq<Event> {
    [Abandon(w), Run(r, CheckCutover), Run(r, MoveAlias(true))]
  }

  lemma AbandonAndMoveRuns(s: System, w: nat, r: nat)
    requires Current(s, r) && s.runners[r].stage.ScanComplete? && s.sections.Keys == {w} && s.exclusive.None? && s.failures == 0
    ensures RunOk(s, AbandonAndMove(w, r))
    ensures After(s, AbandonAndMove(w, r)).switched && After(s, AbandonAndMove(w, r)).target == s.target
  {
    var events := AbandonAndMove(w, r);
    var s1 := Apply(s, events[0]);
    assert s1.sections.Keys == {};
    var s2 := Apply(s1, events[1]);
    var s3 := Apply(s2, events[2]);
    assert events[1..][1..] == [events[2]];
    RunOfOne(s2, events[2]);
    assert RunOk(s1, events[1..]) && After(s1, events[1..]) == s3;
  }

  lemma RunOfOne(s: System, e: Event)
    requires Enabled(s, e)
    ensures RunOk(s, [e]) && After(s, [e]) == Apply(s, e)
  {
    hide Enabled, Apply;
    assert [e][1..] == [];
  }

  /**
   A write whose failures are dropped, met by a cutover right after the scan: nothing regresses exactly when
   each document it made visible is in the new index in a version at least as new.
   */
  lemma AbandonThenMoveIff(s: System, w: nat, r: nat)
    requires Inv(s) && Current(s, r) && s.runners[r].stage.ScanComplete? && s.sections.Keys == {w} && s.exclusive.None?
    ensures RunOk(s, AbandonAndMove(w, r))
    ensures NothingRegressed(s, After(s, AbandonAndMove(w, r))) <==> Superseded(s, s.sections[w])
  {
    hide ScanInv, StoreInv, RunnersInv, HoldInv, PagesInv, RunOk, After, CoveredAll, NothingRegressed, Superseded, AbandonAndMove;
    ScanOf(s, r);
    StoreOf(s);
    AbandonAndMoveRuns(s, w, r);
    MovedRegresses(s, After(s, AbandonAndMove(w, r)), w);
  }

  ghost predicate Goes(s: System, e: Event, s': System) {
    Enabled(s, e) && Apply(s, e) == s'
  }

  /** A run given by the states it passes through. */
  lemma {:induction false} RunSteps(s: System, events: seq<Event>, states: seq<System>)
    requires |states| == |events| > 0 && Goes(s, events[0], states[0])
    requires forall i :: 1 <= i < |events| ==> Goes(states[i - 1], events[i], states[i])
    ensures RunOk(s, events) && After(s, events) == states[|states| - 1]
    decreases |events|
  {
    hide Enabled, Apply;
    if |events| > 1 {
      assert forall i :: 1 <= i < |events[1..]| ==> states[1..][i - 1] == states[i] && events[1..][i] == events[i + 1];
      RunSteps(states[0], events[1..], states[1..]);
    } else {
      assert events[1..] == [];
    }
  }

  lemma {:induction false} RunJoin(s: System, a: seq<Event>, b: seq<Event>)
    requires RunOk(s, a) && RunOk(After(s, a), b)
    ensures RunOk(s, a + b) && After(s, a + b) == After(After(s, a), b)
    decreases |a|
  {
    hide Enabled, Apply;
    if a == [] {
      assert a + b == b;
    } else {
      RunJoin(Apply(s, a[0]), a[1..], b);
      assert (a + b)[1..] == a[1..] + b;
    }
  }

  const DOC := DocId(1, 7)
  const ONE_DOC: Index := map[DOC := 6]
  const EMPTY := System([1], map[], map[], map[], false, Queued, Prepare, 0, 0, map[], map[], None, map[])

  /** A system whose one repository is empty, with runner 1 of the first claim at the given stage. */
  function Scanner(stage: Stage): System {
    EMPTY.(job := Running, phase := if stage.Claimed? then Prepare else DualWriting, claims := 1, runners := map[1 := Runner(1, stage)])
  }

  const SCANNED := Scanner(Scanning([], 0))
  const SCAN := [Claim(1), Run(1, Activate), Run(1, ListRepos), Run(1, ReadPage(None))]

  lemma StageMoves(s: System, stage: Stage)
    requires s.runners == map[1 := Runner(1, stage)]
    ensures forall next :: SetStage(s, 1, next) == map[1 := Runner(1, next)]
  {}

  lemma LastPageEmpty()
    ensures Goes(Scanner(Scanning([1], 0)), Run(1, ReadPage(None)), SCANNED)
  {
    hide SetStage;
    assert PageRows(map[], 1, 0, None) == map[];
    StageMoves(Scanner(Scanning([1], 0)), Scanning([1], 0));
    assert [1][1..] == [];
  }

  lemma ScanRuns()
    ensures RunOk(EMPTY, SCAN) && After(EMPTY, SCAN) == SCANNED
  {
    hide RunOk, After, SetStage, PageRows;
    assert Goes(EMPTY, SCAN[0], Scanner(Claimed)) by {
      assert map[][1 := Runner(1, Claimed)] == map[1 := Runner(1, Claimed)];
    }
    assert Goes(Scanner(Claimed), SCAN[1], Scanner(Activated)) by { StageMoves(Scanner(Claimed), Claimed); }
    assert Goes(Scanner(Activated), SCAN[2], Scanner(Scanning([1], 0))) by { StageMoves(Scanner(Activated), Activated); }
    LastPageEmpty();
    hide Goes;
    RunSteps(EMPTY, SCAN, [Scanner(Claimed), Scanner(Activated), Scanner(Scanning([1], 0)), SCANNED]);
  }

  /** The one document is in the snapshot rows, and a write of it is at the given point. */
  function Writing(s: System, section: Section): System {
    s.(canonical := ONE_DOC, source := if section.served == {} then map[] else ONE_DOC,
       recorded := map[2 := ONE_DOC], sections := map[2 := section])
  }

  function OneWrite(shadow: bool, served: bool): Section {
    Section(ONE_DOC, shadow, if served then {} else {DOC}, if shadow then {DOC} else {}, if served then {DOC} else {}, {DOC}, 0)
  }

  lemma WriteStarts(s: System)
    requires s.repos == [1] && s.runners.Keys == {1} && s.canonical == map[] && s.source == map[] && !s.switched
    requires s.recorded == map[] && s.sections == map[] && s.exclusive == None
    ensures
      var events := [Record(2, ONE_DOC), Enter(2), Item(2, DOC, Served)];
      RunOk(s, events) && After(s, events) == Writing(s, OneWrite(DualWrites(s), true))
  {
    hide RunOk, After;
    var stored := s.(canonical := ONE_DOC, recorded := map[2 := ONE_DOC]);
    var before, after := Writing(s, OneWrite(DualWrites(s), false)), Writing(s, OneWrite(DualWrites(s), true));
    assert Goes(s, Record(2, ONE_DOC), stored) by {
      assert Recorded(map[], ONE_DOC) == ONE_DOC;
      assert s.recorded[2 := ONE_DOC] == map[2 := ONE_DOC];
    }
    assert Goes(stored, Enter(2), before) by {
      assert ONE_DOC.Keys == {DOC};
      assert Open(stored, ONE_DOC) == OneWrite(DualWrites(s), false);
      assert stored.sections[2 := OneWrite(DualWrites(s), false)] == map[2 := OneWrite(DualWrites(s), false)];
    }
    assert Goes(before, Item(2, DOC, Served), after) by {
      ServedAlone(DualWrites(s));
      assert before.sections[2 := OneWrite(DualWrites(s), true)] == map[2 := OneWrite(DualWrites(s), true)];
    }
    hide Goes;
    RunSteps(s, [Record(2, ONE_DOC), Enter(2), Item(2, DOC, Served)], [stored, before, after]);
  }

  lemma ServedAlone(shadow: bool)
    ensures Awaits(OneWrite(shadow, false), DOC, Served) && Answered(OneWrite(shadow, false), DOC, Served) == OneWrite(shadow, true)
    ensures Upsert(map[], DOC, 6) == ONE_DOC
  {}

  const WRITE := [Record(2, ONE_DOC), Enter(2), Item(2, DOC, Served)]
  const PAUSED := SCANNED.(job := Paused)
  const MISSED := SCANNED.(canonical := ONE_DOC, source := ONE_DOC, job := Queued)

  /** Paused, the job gets no second write: the document reaches only the alias. Then it is resumed. */
  lemma PausedWriteRuns()
    ensures RunOk(SCANNED, [Operator(Pause)] + WRITE + [Leave(2), Operator(Resume)])
    ensures After(SCANNED, [Operator(Pause)] + WRITE + [Leave(2), Operator(Resume)]) == MISSED
  {
    hide RunOk, After;
    var written := Writing(PAUSED, OneWrite(false, true));
    assert Goes(SCANNED, Operator(Pause), PAUSED);
    assert Goes(written, Leave(2), MISSED.(job := Paused)) by {
      assert written.sections - {2} == map[] && written.recorded - {2} == map[];
    }
    assert Goes(MISSED.(job := Paused), Operator(Resume), MISSED);
    WriteStarts(PAUSED);
    hide Goes;
    RunSteps(SCANNED, [Operator(Pause)], [PAUSED]);
    RunSteps(written, [Leave(2), Operator(Resume)], [MISSED.(job := Paused), MISSED]);
    RunJoin(SCANNED, [Operator(Pause)], WRITE);
    RunJoin(SCANNED, [Operator(Pause)] + WRITE, [Leave(2), Operator(Resume)]);
  }

  /** Another process claims the resumed job, and the runner that never stopped finds it running. */
  const TAKEN_OVER := [Claim(3), Run(1, FinishScan), Run(1, CheckCutover), Run(1, MoveAlias(true))]

  function Both(stage: Stage): System {
    MISSED.(job := Running, claims := 2, runners := map[1 := Runner(1, stage), 3 := Runner(2, Claimed)])
  }

  lemma BothMove(s: System, stage: Stage)
    requires s.runners == map[1 := Runner(1, stage), 3 := Runner(2, Claimed)]
    ensures forall next :: SetStage(s, 1, next) == map[1 := Runner(1, next), 3 := Runner(2, Claimed)]
  {}

  lemma StaleMoveRuns()
    ensures RunOk(MISSED, TAKEN_OVER) && After(MISSED, TAKEN_OVER).switched && After(MISSED, TAKEN_OVER).target == map[]
  {
    hide RunOk, After, SetStage;
    var s1, s2, s3 := Both(Scanning([], 0)), Both(ScanComplete), Both(Switching).(exclusive := Some(1));
    var s4 := Both(Moved).(phase := Retention, switched := true);
    assert Goes(MISSED, TAKEN_OVER[0], s1) by {
      assert MISSED.runners[3 := Runner(2, Claimed)] == s1.runners;
    }
    assert Goes(s1, TAKEN_OVER[1], s2) by { BothMove(s1, Scanning([], 0)); }
    assert Goes(s2, TAKEN_OVER[2], s3) by { BothMove(s2, ScanComplete); }
    assert Goes(s3, TAKEN_OVER[3], s4) by { BothMove(s3, Switching); }
    hide Goes;
    RunSteps(MISSED, TAKEN_OVER, [s1, s2, s3, s4]);
  }

  /**
   A pause, a write and a resume during a job that a second process can claim: the first runner moves the
   alias, with the check passed, and the document written meanwhile disappears from it.
   */
  lemma ResumedJobLosesAWrite()
    ensures
      var events := SCAN + ([Operator(Pause)] + WRITE + [Leave(2), Operator(Resume)]);
      && Start(EMPTY) && RunOk(EMPTY, events) && RunOk(EMPTY, events + TAKEN_OVER)
      && Visible(After(EMPTY, events), DOC) == 6 && Visible(After(EMPTY, events + TAKEN_OVER), DOC) == -1
  {
    hide RunOk, After;
    ScanRuns();
    PausedWriteRuns();
    StaleMoveRuns();
    RunJoin(EMPTY, SCAN, [Operator(Pause)] + WRITE + [Leave(2), Operator(Resume)]);
    RunJoin(EMPTY, SCAN + ([Operator(Pause)] + WRITE + [Leave(2), Operator(Resume)]), TAKEN_OVER);
  }

  /** A write that ends after the alias took its document and before the shadow did is lost at the next move. */
  lemma AbandonedWriteIsLost()
    ensures
      var events := SCAN + [Run(1, FinishScan)] + WRITE;
      && Start(EMPTY) && RunOk(EMPTY, events) && RunOk(EMPTY, events + AbandonAndMove(2, 1))
      && Visible(After(EMPTY, events), DOC) == 6 && Visible(After(EMPTY, events + AbandonAndMove(2, 1)), DOC) == -1
  {
    hide RunOk, After, SetStage, AbandonAndMove;
    ScanRuns();
    var scanned := Scanner(ScanComplete);
    assert Goes(SCANNED, Run(1, FinishScan), scanned) by { StageMoves(SCANNED, Scanning([], 0)); }
    RunSteps(SCANNED, [Run(1, FinishScan)], [scanned]);
    RunJoin(EMPTY, SCAN, [Run(1, FinishScan)]);
    WriteStarts(scanned);
    RunJoin(EMPTY, SCAN + [Run(1, FinishScan)], WRITE);
    AbandonAndMoveRuns(Writing(scanned, OneWrite(true, true)), 2, 1);
    RunJoin(EMPTY, SCAN + [Run(1, FinishScan)] + WRITE, AbandonAndMove(2, 1));
  }
}
