/**
 The resumable backfill: pages of a listing are projected one after the other, the cursor is stored now and
 then, and the process may be stopped, rate limited or die at any moment and be started again.

 Ordered by creation the listing only grows at its end; ordered by update any change may rearrange it. A page is
 short exactly when it is the last. A log of the pages processed, each with the listing it was read from, says
 what has been projected. Settings of the index and the projection itself are not part of the model, and one
 runner works on a job at a time.

 Main results: `SlidesOff`, `CoversIff`, `SkippedSlid`, `BackfillJob.Run`, `BackfillJob.Work`, `UpdatedOrderSkips`.
 */
module Backfill {
  import opened Wrappers

  const BACKFILL_PAGE_SIZE := 100
  const MAX_SLEEP_MS := 60000

  /** The page to read next, from 1, and how many pull requests have been processed. */
  datatype Cursor = Cursor(page: int, done: int)

  const FIRST := Cursor(1, 0)

  /** What may be stored as a cursor: two numbers, whole or not, or something else. */
  datatype RawCursor = NoCursor | Garbage | Fields(page: Option<int>, done: Option<int>)

  function ReadCursor(raw: RawCursor): (c: Cursor)
    ensures c.page >= 1 && c.done >= 0
  {
    if raw.Fields? && raw.page.Some? && raw.done.Some? && raw.page.value >= 1 && raw.done.value >= 0
    then Cursor(raw.page.value, raw.done.value)
    else FIRST
  }

  function Stored(c: Cursor): RawCursor {
    Fields(Some(c.page), Some(c.done))
  }

  function AdvanceCursor(c: Cursor, processed: nat): Cursor {
    Cursor(c.page + 1, c.done + processed)
  }

  /** At most a minute at a time, and nothing for a time that has passed. */
  function SleepMsUntil(retryAt: int, now: int): (ms: nat)
    ensures ms <= MAX_SLEEP_MS && (ms > 0 <==> retryAt > now) && (ms < MAX_SLEEP_MS && ms > 0 ==> now + ms == retryAt)
  {
    if retryAt <= now then 0 else if retryAt - now < MAX_SLEEP_MS then retryAt - now else MAX_SLEEP_MS
  }

  function Min(a: int, b: int): int {
    if a < b then a else b
  }

  function PageOf<T>(listing: seq<T>, page: int): seq<T>
    requires page >= 1
  {
    var from := Min((page - 1) * BACKFILL_PAGE_SIZE, |listing|);
    listing[from..Min(page * BACKFILL_PAGE_SIZE, |listing|)]
  }

  // ----- Readings of a listing that changes -----

  predicate Distinct(s: seq<nat>) {
    forall i, j :: 0 <= i < j < |s| ==> s[i] != s[j]
  }

  function IndexOf(s: seq<nat>, x: nat): (i: nat)
    requires x in s
    ensures i < |s| && s[i] == x && x !in s[..i]
  {
    if s[0] == x then 0
    else
      assert s[..1 + IndexOf(s[1..], x)] == [s[0]] + s[1..][..IndexOf(s[1..], x)];
      1 + IndexOf(s[1..], x)
  }

  lemma OnPageIff(listing: seq<nat>, page: int, x: nat)
    requires page >= 1 && Distinct(listing) && x in listing
    ensures x in PageOf(listing, page) <==> (page - 1) * BACKFILL_PAGE_SIZE <= IndexOf(listing, x) < page * BACKFILL_PAGE_SIZE
  {
    var items, i := PageOf(listing, page), IndexOf(listing, x);
    var from := Min((page - 1) * BACKFILL_PAGE_SIZE, |listing|);
    if (page - 1) * BACKFILL_PAGE_SIZE <= i < page * BACKFILL_PAGE_SIZE {
      assert items[i - from] == x;
    }
    if x in items {
      var k :| 0 <= k < |items| && items[k] == x;
      assert listing[from + k] == x;
    }
  }

  /** What lies beyond the page read is on neither that page nor any later one of the next reading iff it slid over the border. */
  lemma SlidesOff(a: seq<nat>, b: seq<nat>, page: int, x: nat)
    requires page >= 1 && Distinct(a) && Distinct(b) && x in a && x in b
    requires IndexOf(a, x) >= page * BACKFILL_PAGE_SIZE
    ensures (x !in PageOf(a, page) && forall q :: q > page ==> x !in PageOf(b, q)) <==> IndexOf(b, x) < page * BACKFILL_PAGE_SIZE
  {
    OnPageIff(a, page, x);
    forall q | q > page
      ensures x in PageOf(b, q) <==> (q - 1) * BACKFILL_PAGE_SIZE <= IndexOf(b, x) < q * BACKFILL_PAGE_SIZE
    {
      OnPageIff(b, q, x);
    }
    if IndexOf(b, x) >= page * BACKFILL_PAGE_SIZE {
      var q := IndexOf(b, x) / BACKFILL_PAGE_SIZE + 1;
      assert q > page && x in PageOf(b, q);
    }
  }

  /** One page, processed, and the listing it was read from. */
  datatype Reading = Reading(listing: seq<nat>, page: int)

  predicate HasAll(listing: seq<nat>, origin: seq<nat>) {
    Distinct(listing) && forall x :: x in origin ==> x in listing
  }

  /** The pages after the last one read start here. */
  function NextPage(log: seq<Reading>): int {
    if log == [] then 1 else log[|log| - 1].page + 1
  }

  /** Nothing first found leaves the listing, and no page is read before the one in front of it. */
  ghost predicate LogOk(log: seq<Reading>, origin: seq<nat>) {
    && (forall k :: 0 <= k < |log| ==> log[k].page >= 1 && HasAll(log[k].listing, origin))
    && (forall k :: 0 <= k < |log| ==> log[k].page <= NextPage(log[..k]))
  }

  ghost predicate Shown(log: seq<Reading>, x: nat) {
    exists k :: 0 <= k < |log| && log[k].page >= 1 && x in PageOf(log[k].listing, log[k].page)
  }

  ghost predicate AllShown(log: seq<Reading>, origin: seq<nat>) {
    forall x :: x in origin ==> Shown(log, x)
  }

  /** The last page read was a short one. */
  predicate Ends(log: seq<Reading>) {
    log != [] && var last := log[|log| - 1]; last.page >= 1 && |PageOf(last.listing, last.page)| < BACKFILL_PAGE_SIZE
  }

  /** When the last page was read, this one was still to be shown and lay before that page. */
  ghost predicate SlidAway(log: seq<Reading>, x: nat)
    requires log != [] && x in log[|log| - 1].listing
  {
    !Shown(log[..|log| - 1], x) && IndexOf(log[|log| - 1].listing, x) < (log[|log| - 1].page - 1) * BACKFILL_PAGE_SIZE
  }

  lemma ShownSnoc(log: seq<Reading>, last: Reading, x: nat)
    requires last.page >= 1
    ensures Shown(log + [last], x) <==> Shown(log, x) || x in PageOf(last.listing, last.page)
  {
    var all := log + [last];
    if Shown(log, x) {
      var k :| 0 <= k < |log| && log[k].page >= 1 && x in PageOf(log[k].listing, log[k].page);
      assert all[k] == log[k];
    }
    if x in PageOf(last.listing, last.page) { assert all[|log|] == last; }
  }

  /** A finished listing, however it was rearranged between pages, was shown completely iff nothing had slid away. */
  lemma CoversIff(log: seq<Reading>, origin: seq<nat>)
    requires LogOk(log, origin) && Ends(log)
    ensures AllShown(log, origin) <==> forall x :: x in origin ==> !SlidAway(log, x)
  {
    var before, last := log[..|log| - 1], log[|log| - 1];
    assert log == before + [last];
    forall x | x in origin
      ensures Shown(log, x) <==> !SlidAway(log, x)
    {
      ShownSnoc(before, last, x);
      OnPageIff(last.listing, last.page, x);
    }
  }

  lemma NotOnPage(log: seq<Reading>, origin: seq<nat>, x: nat, k: nat)
    requires LogOk(log, origin) && x in origin && !Shown(log, x) && k < |log|
    ensures log[k].page >= 1 && x in log[k].listing && log[k].page <= if k == 0 then 1 else log[k - 1].page + 1
    ensures IndexOf(log[k].listing, x) < (log[k].page - 1) * BACKFILL_PAGE_SIZE || log[k].page * BACKFILL_PAGE_SIZE <= IndexOf(log[k].listing, x)
  {
    hide IndexOf, PageOf;
    assert log[k].page <= NextPage(log[..k]);
    OnPageIff(log[k].listing, log[k].page, x);
  }

  lemma EndsBehind(log: seq<Reading>)
    requires Ends(log)
    ensures log != [] && |log[|log| - 1].listing| < log[|log| - 1].page * BACKFILL_PAGE_SIZE
  {}

  /** Whoever is never shown slid, between two readings, over the border of the page just read. */
  lemma SkippedSlid(log: seq<Reading>, origin: seq<nat>, x: nat) returns (k: nat)
    requires LogOk(log, origin) && Ends(log) && x in origin && !Shown(log, x)
    ensures k + 1 < |log| && log[k].page >= 1 && x in log[k].listing && x in log[k + 1].listing
    ensures IndexOf(log[k + 1].listing, x) < log[k].page * BACKFILL_PAGE_SIZE <= IndexOf(log[k].listing, x)
  {
    hide LogOk, Shown, Ends;
    k := 0;
    EndsBehind(log);
    NotOnPage(log, origin, x, 0);
    NotOnPage(log, origin, x, |log| - 1);
    while true
      invariant k < |log| && x in log[k].listing && log[k].page >= 1
      invariant log[k].page * BACKFILL_PAGE_SIZE <= IndexOf(log[k].listing, x)
      decreases |log| - k
    {
      NotOnPage(log, origin, x, k + 1);
      if IndexOf(log[k + 1].listing, x) < log[k].page * BACKFILL_PAGE_SIZE { return; }
      k := k + 1;
    }
  }

  /** Each reading extends the one before, as in the order of creation. */
  ghost predicate Growing(log: seq<Reading>, listing: seq<nat>) {
    && (forall k :: 0 <= k < |log| ==> log[k].listing <= listing)
    && (forall j, k :: 0 <= j < k < |log| ==> log[j].listing <= log[k].listing)
  }

  lemma IndexKept(a: seq<nat>, b: seq<nat>, x: nat)
    requires a <= b && Distinct(b) && x in a
    ensures IndexOf(b, x) == IndexOf(a, x)
  {
    assert b[IndexOf(a, x)] == x;
  }

  /** In the order of creation nothing slides, so a finished listing was shown completely. */
  lemma GrowingCovers(log: seq<Reading>, origin: seq<nat>, listing: seq<nat>)
    requires LogOk(log, origin) && Ends(log) && Growing(log, listing)
    ensures AllShown(log, origin)
  {
    forall x | x in origin
      ensures Shown(log, x)
    {
      if !Shown(log, x) {
        var k := SkippedSlid(log, origin, x);
        IndexKept(log[k].listing, log[k + 1].listing, x);
      }
    }
  }

  lemma LastOf(log: seq<Reading>, origin: seq<nat>, listing: seq<nat>)
    requires log != [] && LogOk(log, origin) && Growing(log, listing)
    ensures log[|log| - 1].page >= 1 && HasAll(log[|log| - 1].listing, origin) && log[|log| - 1].listing <= listing
  {}

  lemma LogInit(log: seq<Reading>, origin: seq<nat>, listing: seq<nat>)
    requires log != [] && LogOk(log, origin) && Growing(log, listing)
    ensures LogOk(log[..|log| - 1], origin) && Growing(log[..|log| - 1], listing)
    ensures log[|log| - 1].page <= NextPage(log[..|log| - 1])
  {
    var before := log[..|log| - 1];
    assert forall k :: 0 <= k < |before| ==> before[..k] == log[..k];
  }

  lemma LogSnoc(log: seq<Reading>, origin: seq<nat>, reading: Reading)
    requires LogOk(log, origin) && HasAll(reading.listing, origin) && 1 <= reading.page <= NextPage(log)
    ensures LogOk(log + [reading], origin) && NextPage(log + [reading]) == reading.page + 1
  {
    var all := log + [reading];
    assert forall k :: 0 <= k < |log| ==> all[..k] == log[..k];
    assert all[..|log|] == log;
  }

  lemma GrowingSnoc(log: seq<Reading>, seen: seq<nat>, listing: seq<nat>, page: int)
    requires Growing(log, seen) && seen <= listing
    ensures Growing(log + [Reading(seen, page)], listing)
  {}

  /** And what was first found on the pages before the next one has been shown. */
  lemma {:induction false} GrowingBehind(log: seq<Reading>, origin: seq<nat>, listing: seq<nat>, x: nat)
    requires LogOk(log, origin) && Growing(log, listing) && Distinct(listing)
    requires x in origin && x in listing && IndexOf(listing, x) < (NextPage(log) - 1) * BACKFILL_PAGE_SIZE
    ensures Shown(log, x)
    decreases |log|
  {
    hide LogOk, Growing, Shown, PageOf, IndexOf;
    var before, last := log[..|log| - 1], log[|log| - 1];
    assert log == before + [last];
    assert last.page >= 1 && HasAll(last.listing, origin) && last.listing <= listing by { LastOf(log, origin, listing); }
    LogInit(log, origin, listing);
    ShownSnoc(before, last, x);
    IndexKept(last.listing, listing, x);
    OnPageIff(last.listing, last.page, x);
    if IndexOf(listing, x) < (last.page - 1) * BACKFILL_PAGE_SIZE {
      GrowingBehind(before, origin, listing, x);
    }
  }

  datatype JobState = Queued | Running | Paused | Completed | Failed | Cancelled

  datatype Action = Pause | Resume | Cancel

  datatype Outcome = Died | Stopped | Finished | Errored

  predicate MayAct(state: JobState, action: Action) {
    match action
    case Pause => state.Queued? || state.Running?
    case Resume => state.Paused?
    case Cancel => state.Queued? || state.Running? || state.Paused?
  }

  function AfterAction(action: Action): JobState {
    match action
    case Pause => Paused
    case Resume => Queued
    case Cancel => Cancelled
  }

  class BackfillJob {
    /** Whether the listing is ordered by creation; the client's own default is by update. */
    const byCreation: bool
    /** The remote listing of pull-request numbers. */
    var listing: seq<nat>
    var state: JobState
    var raw: RawCursor
    /** The listing when the job was made. */
    ghost const origin: seq<nat>
    /** The pages processed by all runs of the job. */
    ghost var log: seq<Reading>
    ghost var cancelled: bool

    /** The stored cursor is never ahead of the processed pages, and a cancelled job stays cancelled. */
    ghost predicate Valid()
      reads this
    {
      && HasAll(listing, origin)
      && LogOk(log, origin) && (byCreation ==> Growing(log, listing))
      && ReadCursor(raw).page <= NextPage(log)
      && (state.Completed? ==> Ends(log))
      && (cancelled ==> state.Cancelled?)
    }

    /** What the job first found on the pages before this one has been projected. */
    ghost predicate Covers(page: int)
      requires HasAll(listing, origin)
      reads this
    {
      forall x :: x in origin && IndexOf(listing, x) < (page - 1) * BACKFILL_PAGE_SIZE ==> Shown(log, x)
    }

    lemma CursorIsBehind()
      requires Valid() && byCreation
      ensures Covers(ReadCursor(raw).page)
    {
      forall x | x in origin && IndexOf(listing, x) < (ReadCursor(raw).page - 1) * BACKFILL_PAGE_SIZE
        ensures Shown(log, x)
      {
        GrowingBehind(log, origin, listing, x);
      }
    }

    constructor (listing: seq<nat>, byCreation: bool)
      requires Distinct(listing)
      ensures Valid() && origin == listing && this.byCreation == byCreation && state == Queued && raw == NoCursor && log == []
    {
      this.listing, this.byCreation, state, raw, origin, log, cancelled := listing, byCreation, Queued, NoCursor, listing, [], false;
    }

    lemma Moved(next: seq<nat>)
      requires HasAll(listing, origin) && HasAll(next, listing)
      ensures HasAll(next, origin) && (listing <= next && Growing(log, listing) ==> Growing(log, next))
    {}

    /** Pull requests are created, and in the other order moved about; an operator may act on the job. */
    method Elsewhere()
      requires Valid()
      modifies this`listing, this`state, this`cancelled
      ensures Valid() && (byCreation ==> old(listing) <= listing)
      ensures state == old(state) || state.Paused? || state.Queued? || state.Cancelled?
      ensures old(cancelled) ==> cancelled
    {
      hide LogOk, Growing, HasAll;
      var next: seq<nat> := *;
      if HasAll(next, listing) && (byCreation ==> listing <= next) { Moved(next); }
      if HasAll(next, listing) && (byCreation ==> listing <= next) { listing := next; }
      var action: Action := *;
      var acts: bool := *;
      if acts { var done := Operate(action); }
    }

    method Operate(action: Action) returns (done: bool)
      requires Valid()
      modifies this`state, this`cancelled
      ensures Valid() && done == MayAct(old(state), action) && cancelled == (old(cancelled) || (done && action.Cancel?))
      ensures state == if done then AfterAction(action) else old(state)
    {
      done := MayAct(state, action);
      if done {
        state := AfterAction(action);
        cancelled := cancelled || action.Cancel?;
      }
    }

    /** Only a queued job is claimed. */
    method Claim() returns (claimed: bool)
      requires Valid()
      modifies this`state
      ensures Valid() && claimed == old(state).Queued? && state == if claimed then Running else old(state)
    {
      claimed := state.Queued?;
      if claimed { state := Running; }
    }

    method UpdateProgress(cursor: Cursor)
      requires Valid() && 1 <= cursor.page <= NextPage(log) && cursor.done >= 0
      modifies this`raw
      ensures Valid() && ReadCursor(raw) == cursor
    {
      raw := Stored(cursor);
    }

    method FinishIfRunning(next: JobState) returns (moved: bool)
      requires Valid() && (next.Failed? || (next.Completed? && Ends(log)))
      modifies this`state
      ensures Valid() && moved == old(state).Running? && state == if old(state).Running? then next else old(state)
    {
      moved := state.Running?;
      if moved { state := next; }
    }

    /** Reads one page and projects every item of it, while other things happen. */
    method ProcessPage(cursor: Cursor) returns (next: Cursor, hasMore: bool)
      requires Valid() && !state.Completed? && ReadCursor(raw).page <= cursor.page <= NextPage(log) && cursor.done >= 0
      modifies this`listing, this`state, this`cancelled, this`log
      ensures Valid() && !state.Completed? && (byCreation ==> old(listing) <= listing)
      ensures log == old(log) + [Reading(old(listing), cursor.page)]
      ensures next == Cursor(NextPage(log), cursor.done + |PageOf(old(listing), cursor.page)|)
      ensures !hasMore <==> Ends(log)
    {
      hide LogOk, Growing, HasAll, PageOf;
      var items := PageOf(listing, cursor.page);
      ghost var seen := listing;
      hasMore := |items| >= BACKFILL_PAGE_SIZE;
      LogSnoc(log, origin, Reading(seen, cursor.page));
      Elsewhere();
      if byCreation { GrowingSnoc(log, seen, listing, cursor.page); }
      log := log + [Reading(seen, cursor.page)];
      next := AdvanceCursor(cursor, |items|);
    }

    /**
     One run of a claimed job, dying at the latest after `lifetime` steps. However it ends, the stored cursor is
     behind what was processed; if it reaches the last page, everything the job first found has been projected
     exactly if nothing had slid away, and in the order of creation always.
     */
    method Run(lifetime: nat) returns (outcome: Outcome)
      requires Valid() && !state.Completed?
      modifies this
      ensures Valid() && old(log) <= log
      ensures byCreation ==> Covers(ReadCursor(raw).page)
      ensures outcome.Finished? ==> Ends(log) && (AllShown(log, origin) <==> forall x :: x in origin ==> !SlidAway(log, x))
      ensures outcome.Finished? && byCreation ==> AllShown(log, origin)
      ensures state.Completed? ==> outcome.Finished?
    {
      hide LogOk, Growing, HasAll, Ends, Shown, SlidAway, NextPage, Covers, AllShown;
      var cursor := ReadCursor(raw);
      var steps := lifetime;
      outcome := Died;
      while steps > 0
        invariant Valid() && !state.Completed? && old(log) <= log && outcome == Died
        invariant ReadCursor(raw).page <= cursor.page <= NextPage(log) && cursor.done >= 0
      {
        steps := steps - 1;
        Elsewhere();
        if !state.Running? { outcome := Stopped; break; }
        var limited: bool := *;
        var broken: bool := *;
        if broken {
          var moved := FinishIfRunning(Failed);
          outcome := Errored;
          break;
        }
        if limited {
          UpdateProgress(cursor);
        } else {
          var hasMore;
          cursor, hasMore := ProcessPage(cursor);
          var due: bool := *;
          if !hasMore || due { UpdateProgress(cursor); }
          if !hasMore {
            Elsewhere();
            var moved := FinishIfRunning(Completed);
            outcome := Finished;
            CoversIff(log, origin);
            break;
          }
        }
      }
      if byCreation {
        CursorIsBehind();
        if outcome.Finished? { GrowingCovers(log, origin, listing); }
      }
    }

    /**
     Any number of runs, with operators pausing, resuming and cancelling in between and processes dying: a job
     that ends completed has projected everything it first found exactly if nothing had slid away.
     */
    method Work(runs: nat)
      requires Valid()
      modifies this
      ensures Valid() && old(log) <= log
      ensures state.Completed? ==> (AllShown(log, origin) <==> forall x :: x in origin ==> !SlidAway(log, x))
      ensures state.Completed? && byCreation ==> AllShown(log, origin)
      ensures old(cancelled) ==> state.Cancelled? && log == old(log)
    {
      hide LogOk, Growing, HasAll, Ends, Shown, SlidAway, NextPage, Covers, AllShown;
      var left := runs;
      while left > 0
        invariant Valid() && old(log) <= log
        invariant old(cancelled) ==> cancelled && log == old(log)
      {
        left := left - 1;
        Elsewhere();
        var claimed := Claim();
        if claimed {
          var lifetime: nat := *;
          var outcome := Run(lifetime);
        }
      }
      if state.Completed? {
        CoversIff(log, origin);
        if byCreation { GrowingCovers(log, origin, listing); }
      }
    }
  }

  // ----- Why the order of creation is needed -----

  function Numbers(from: nat, n: nat): (s: seq<nat>)
    ensures Distinct(s)
  {
    seq(n, i => from + i)
  }

  /** Ordered by last update, a listing of 101; then pull request 0 is edited and goes to the end. */
  const BEFORE_EDIT := Numbers(0, 101)
  const AFTER_EDIT := Numbers(1, 100) + [0]
  const EDITED_BETWEEN := [Reading(BEFORE_EDIT, 1), Reading(AFTER_EDIT, 2)]

  lemma EditedListings()
    ensures HasAll(BEFORE_EDIT, BEFORE_EDIT) && HasAll(AFTER_EDIT, BEFORE_EDIT) && 100 in BEFORE_EDIT
    ensures IndexOf(BEFORE_EDIT, 100) == 100 && IndexOf(AFTER_EDIT, 100) == 99
    ensures |PageOf(AFTER_EDIT, 2)| == 1
  {
    assert BEFORE_EDIT == [0] + Numbers(1, 100);
    assert BEFORE_EDIT[100] == 100 && AFTER_EDIT[99] == 100;
  }

  /** A pull request nobody touched slides onto the page already read, and the job ends without having shown it. */
  lemma UpdatedOrderSkips()
    ensures LogOk(EDITED_BETWEEN, BEFORE_EDIT) && Ends(EDITED_BETWEEN)
    ensures 100 in BEFORE_EDIT && SlidAway(EDITED_BETWEEN, 100) && !AllShown(EDITED_BETWEEN, BEFORE_EDIT)
  {
    hide PageOf, IndexOf;
    EditedListings();
    assert EDITED_BETWEEN[..1] == [Reading(BEFORE_EDIT, 1)];
    SlidesOff(BEFORE_EDIT, AFTER_EDIT, 1, 100);
    CoversIff(EDITED_BETWEEN, BEFORE_EDIT);
  }
}
