/**
 Zero-downtime reindex of pull-request documents.

 Writers store the canonical snapshot first and then write the alias, and the index under construction while
 a job asks for it, inside a shared fence. The job activates that second write, copies the canonical rows page
 by page, and moves the alias; activation and the move hold the fence exclusively. A document is represented
 by its `document_version`. The four phases from dual_write to cutover differ in nothing this logic reads and
 are one `DualWriting` here.

 Assumed of the stores: one upsert, one row update and one alias move are atomic; advisory locks exclude.
 */
module ReindexCutover {
  import opened Wrappers

  type PrNumber = n: int | n > 0 witness 1
  datatype DocId = DocId(repo: nat, number: PrNumber)
  type Index = map<DocId, nat>

  function Version(index: Index, id: DocId): int {
    if id in index then index[id] else -1
  }

  /** The conditional upsert: only a newer version is written. */
  function Upsert(index: Index, id: DocId, version: nat): Index {
    if Version(index, id) < version then index[id := version] else index
  }

  /** The snapshot rows after a writer recorded its documents; an older version does not win. */
  function Recorded(canonical: Index, docs: Index): Index {
    map id | id in canonical.Keys + docs.Keys ::
      if id in docs && (id in canonical ==> canonical[id] <= docs[id]) then docs[id] else canonical[id]
  }

  /**
   One logical write inside the shared fence. `todo` and `mirrors` are the writes to the alias and to the
   shadow still to be tried; `served` are those that reached the alias, `lacking` those that have not reached
   the shadow, and `failures` the shadow failures noted so far.
   */
  datatype Section = Section(
    docs: Index, shadow: bool, todo: set<DocId>, mirrors: set<DocId>, served: set<DocId>, lacking: set<DocId>, failures: nat)

  datatype JobState = Queued | Running | Paused | Completed | Failed | Cancelled
  datatype Phase = Prepare | DualWriting | Retention

  /** A page starts after `after` in the first of the remaining repositories; `last` is its last row if it is full. */
  datatype Stage =
    | Claimed
    | Activated
    | Scanning(rest: seq<nat>, after: nat)
    | Paging(rest: seq<nat>, after: nat, page: Index, last: Option<PrNumber>)
    | ScanComplete
    | Switching
    | Moved
    | Ended

  datatype Runner = Runner(claim: nat, stage: Stage)

  datatype System = System(
    repos: seq<nat>, canonical: Index, source: Index, target: Index, switched: bool,
    job: JobState, phase: Phase, failures: nat, claims: nat,
    recorded: map<nat, Index>, sections: map<nat, Section>, exclusive: Option<nat>, runners: map<nat, Runner>)

  const REINDEX_BATCH := 200

  predicate DualWrites(s: System) {
    s.job == Running && s.phase == DualWriting
  }

  /** What a reader of the alias sees. */
  function Visible(s: System, id: DocId): int {
    Version(if s.switched then s.target else s.source, id)
  }

  function Open(s: System, docs: Index): Section {
    Section(docs, DualWrites(s), docs.Keys, if DualWrites(s) then docs.Keys else {}, {}, docs.Keys, 0)
  }

  /** The rows a page query returns: one repository, numbers above the cursor, up to the last row read. */
  function PageRows(canonical: Index, repo: nat, after: nat, last: Option<PrNumber>): Index {
    map id | id in canonical && id.repo == repo && id.number > after && (last.Some? ==> id.number <= last.value) :: canonical[id]
  }

  /** Where the scan stands once the page it has read is written. */
  function Next(stage: Stage): Stage
    requires stage.Paging? && stage.rest != []
  {
    if stage.last.Some? then Scanning(stage.rest, stage.last.value) else Scanning(stage.rest[1..], 0)
  }

  // ----- Events -----

  /** What happens to one document of an open write: an answer from either index, or another attempt. */
  datatype Answer = Served | ServeFailed | Mirrored | MirrorFailed | Resent

  datatype Event =
    | Register(repo: nat)
    | Record(w: nat, docs: Index)
    | Enter(w: nat)
    | Item(w: nat, id: DocId, answer: Answer)
    | Leave(w: nat)
    | Abandon(w: nat)              // the write throws, or its session dies, before failures are recorded
    | Operator(action: Action)
    | Claim(r: nat)
    | EnterPage(r: nat)
    | Run(r: nat, step: RunnerStep)

  datatype Action = Pause | Resume | Cancel

  datatype RunnerStep =
    | Activate
    | ListRepos
    | ReadPage(last: Option<PrNumber>)
    | FinishScan
    | CheckCutover
    | MoveAlias(recorded: bool)
    | Fail                         // verification, epochs or index identity refuse, or the runner throws
    | Complete

  predicate Awaits(section: Section, id: DocId, answer: Answer) {
    id in section.docs &&
    match answer
    case Served => id in section.todo
    case ServeFailed => id in section.todo
    case Mirrored => id in section.mirrors
    case MirrorFailed => id in section.mirrors
    case Resent => true
  }

  function Answered(section: Section, id: DocId, answer: Answer): Section {
    match answer
    case Served => section.(todo := section.todo - {id}, served := section.served + {id})
    case ServeFailed => section.(todo := section.todo - {id})
    case Mirrored => section.(mirrors := section.mirrors - {id}, lacking := section.lacking - {id})
    case MirrorFailed => section.(mirrors := section.mirrors - {id}, failures := section.failures + 1)
    case Resent => section.(todo := section.todo + {id}, mirrors := if section.shadow then section.mirrors + {id} else section.mirrors)
  }

  predicate Unfenced(s: System) {
    s.exclusive.None?
  }

  predicate Alone(s: System) {
    s.exclusive.None? && s.sections.Keys == {}
  }

  predicate Enabled(s: System, e: Event) {
    match e
    case Register(repo) => repo !in s.repos
    case Record(w, docs) => w !in s.recorded && w !in s.sections && w !in s.runners && forall id :: id in docs ==> id.repo in s.repos
    case Enter(w) => w in s.recorded && w !in s.sections && Unfenced(s)
    case Item(w, id, answer) => w in s.sections && Awaits(s.sections[w], id, answer)
    case Leave(w) => w in s.sections && s.sections[w].todo == {} && s.sections[w].mirrors == {}
    case Abandon(w) => w in s.sections
    case Operator(action) => MayAct(s.job, action)
    case Claim(r) => s.job == Queued && r !in s.recorded && r !in s.sections && r !in s.runners
    case EnterPage(r) => r in s.runners && s.runners[r].stage.Paging? && r !in s.sections && Unfenced(s)
    case Run(r, step) => r in s.runners && MayRun(s, r, s.runners[r].stage, step)
  }

  predicate MayAct(job: JobState, action: Action) {
    match action
    case Pause => job == Queued || job == Running
    case Resume => job == Paused
    case Cancel => job == Queued || job == Running || job == Paused
  }

  predicate MayRun(s: System, r: nat, stage: Stage, step: RunnerStep) {
    match step
    case Activate => stage.Claimed? && Alone(s)
    case ListRepos => stage.Activated?
    case ReadPage(last) =>
      && stage.Scanning? && stage.rest != []
      && var rows := PageRows(s.canonical, stage.rest[0], stage.after, last);
         if last.Some? then |rows| == REINDEX_BATCH && DocId(stage.rest[0], last.value) in rows else |rows| < REINDEX_BATCH
    case FinishScan => stage.Scanning? && stage.rest == []
    case CheckCutover => stage.ScanComplete? && Alone(s)
    case MoveAlias(_) => stage.Switching? && !s.switched
    case Fail => r !in s.sections && !stage.Ended?
    case Complete => stage.Moved?
  }

  function SetStage(s: System, r: nat, stage: Stage): map<nat, Runner>
    requires r in s.runners
  {
    s.runners[r := s.runners[r].(stage := stage)]
  }

  /** A served document reaches the index behind the alias, a mirrored one the index under construction. */
  function ItemStep(s: System, w: nat, id: DocId, answer: Answer): System
    requires w in s.sections && Awaits(s.sections[w], id, answer)
  {
    var version := s.sections[w].docs[id];
    s.(sections := s.sections[w := Answered(s.sections[w], id, answer)],
       source := if answer.Served? && !s.switched then Upsert(s.source, id, version) else s.source,
       target := if answer.Mirrored? || (answer.Served? && s.switched) then Upsert(s.target, id, version) else s.target)
  }

  /** Shadow failures are recorded before the fence is released, and only against a running job. */
  function Left(s: System, w: nat): System
    requires w in s.sections
  {
    var noted := if s.job == Running then s.sections[w].failures else 0;
    s.(job := if noted > 0 then Failed else s.job, failures := s.failures + noted,
       sections := s.sections - {w}, recorded := s.recorded - {w}, runners := AfterPage(s, w))
  }

  /** A runner whose page is written moves its cursor on. */
  function AfterPage(s: System, w: nat): map<nat, Runner> {
    if w in s.runners && s.runners[w].stage.Paging? && s.runners[w].stage.rest != [] then SetStage(s, w, Next(s.runners[w].stage))
    else s.runners
  }

  function FailedJob(job: JobState): JobState {
    if job == Running then Failed else job
  }

  function AfterAction(action: Action): JobState {
    match action
    case Pause => Paused
    case Resume => Queued
    case Cancel => Cancelled
  }

  predicate CutoverAllowed(s: System) {
    s.job == Running && s.failures == 0
  }

  function NextStage(s: System, stage: Stage, step: RunnerStep): Stage {
    match step
    case Activate => Activated
    case ListRepos => Scanning(s.repos, 0)
    case ReadPage(last) =>
      if !stage.Scanning? || stage.rest == [] then stage
      else
        var rows := PageRows(s.canonical, stage.rest[0], stage.after, last);
        if rows == map[] then Scanning(stage.rest[1..], 0) else Paging(stage.rest, stage.after, rows, last)
    case FinishScan => ScanComplete
    case CheckCutover => if CutoverAllowed(s) then Switching else Ended
    case MoveAlias(_) => Moved
    case Fail => Ended
    case Complete => Ended
  }

  function JobAfter(s: System, step: RunnerStep): JobState {
    match step
    case CheckCutover => if CutoverAllowed(s) then s.job else FailedJob(s.job)
    case Fail => FailedJob(s.job)
    case Complete => if s.job == Running then Completed else s.job
    case _ => s.job
  }

  function PhaseAfter(phase: Phase, step: RunnerStep): Phase {
    match step
    case Activate => DualWriting
    case MoveAlias(true) => Retention
    case _ => phase
  }

  /** Who holds the fence exclusively: activation takes and releases it at once, a cutover until the alias moved. */
  function HoldAfter(s: System, r: nat, step: RunnerStep): Option<nat> {
    match step
    case CheckCutover => if CutoverAllowed(s) then Some(r) else s.exclusive
    case MoveAlias(_) => None
    case Fail => if s.exclusive == Some(r) then None else s.exclusive
    case _ => s.exclusive
  }

  function RunnerStepped(s: System, r: nat, step: RunnerStep): System
    requires r in s.runners
  {
    s.(runners := SetStage(s, r, NextStage(s, s.runners[r].stage, step)),
       job := JobAfter(s, step), phase := PhaseAfter(s.phase, step), exclusive := HoldAfter(s, r, step),
       switched := s.switched || step.MoveAlias?)
  }

  function Apply(s: System, e: Event): System
    requires Enabled(s, e)
  {
    match e
    case Register(repo) => s.(repos := s.repos + [repo])
    case Record(w, docs) => s.(canonical := Recorded(s.canonical, docs), recorded := s.recorded[w := docs])
    case Enter(w) => s.(sections := s.sections[w := Open(s, s.recorded[w])])
    case Item(w, id, answer) => ItemStep(s, w, id, answer)
    case Leave(w) => Left(s, w)
    case Abandon(w) => s.(sections := s.sections - {w}, recorded := s.recorded - {w})
    case Operator(action) => s.(job := AfterAction(action))
    case Claim(r) => s.(job := Running, claims := s.claims + 1, runners := s.runners[r := Runner(s.claims + 1, Claimed)])
    case EnterPage(r) => s.(sections := s.sections[r := Open(s, s.runners[r].stage.page)])
    case Run(r, step) => RunnerStepped(s, r, step)
  }
}
