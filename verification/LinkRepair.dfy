/**
 Repairing the pull requests of commits in the index: the plan that only compares, and the run that queues.

 Both page first through the indexed commits and then through the canonical ones, and judge a commit by set
 differences; they are written twice in the source, and this module writes them twice. Commits are numbers in
 the order of their hashes. Lookups that fail, samples and roles are left out.

 Assumed: nothing changes between the two; pages are keyset pages over a stable order.
 Main results: `PlanLinkRepair`, `ApplyLinkRepair`, `VisitsEachOnce`, `PlanAndApplyAgree`, `RepairReachesCanonical`.
 */
module LinkRepair {
  import opened Wrappers

  const SCAN_PAGE := 500

  datatype Hit = Hit(sha: nat, numbers: set<nat>)

  /** The canonical relation: effective numbers of a commit, and those the chain rule takes out. */
  datatype Canon = Canon(effective: map<nat, set<nat>>, chainExcluded: map<nat, set<nat>>, verified: set<nat>)

  function At(sets: map<nat, set<nat>>, sha: nat): set<nat> {
    if sha in sets then sets[sha] else {}
  }

  predicate Passes(filter: Option<set<nat>>, n: nat) {
    filter.None? || n in filter.value
  }

  // ----- What the judgement of one commit means -----

  function Added(canon: Canon, filter: Option<set<nat>>, sha: nat, indexed: set<nat>): set<nat> {
    set n | n in At(canon.effective, sha) && n !in indexed && Passes(filter, n)
  }

  function Removed(canon: Canon, filter: Option<set<nat>>, sha: nat, indexed: set<nat>): set<nat> {
    set n | n in indexed && n !in At(canon.effective, sha) && Passes(filter, n) && (n in At(canon.chainExcluded, sha) || n in canon.verified)
  }

  function Withheld(canon: Canon, filter: Option<set<nat>>, sha: nat, indexed: set<nat>): set<nat> {
    set n | n in indexed && n !in At(canon.effective, sha) && Passes(filter, n) && n !in At(canon.chainExcluded, sha) && n !in canon.verified
  }

  predicate Changes(canon: Canon, filter: Option<set<nat>>, hit: Hit) {
    Added(canon, filter, hit.sha, hit.numbers) != {} || Removed(canon, filter, hit.sha, hit.numbers) != {}
  }

  predicate Blocks(canon: Canon, filter: Option<set<nat>>, hit: Hit) {
    Withheld(canon, filter, hit.sha, hit.numbers) != {}
  }

  /** Applying the differences leaves the canonical set and what may not be removed yet. */
  lemma RepairReachesCanonical(canon: Canon, sha: nat, indexed: set<nat>)
    ensures
      (indexed + Added(canon, None, sha, indexed)) - Removed(canon, None, sha, indexed)
      == At(canon.effective, sha) + Withheld(canon, None, sha, indexed)
  {
    var left := (indexed + Added(canon, None, sha, indexed)) - Removed(canon, None, sha, indexed);
    var right := At(canon.effective, sha) + Withheld(canon, None, sha, indexed);
    forall n
      ensures n in left <==> n in right
    {}
  }

  // ----- What both scans visit -----

  ghost predicate Sorted(hits: seq<Hit>) {
    forall i, j :: 0 <= i < j < |hits| ==> hits[i].sha < hits[j].sha
  }

  function Shas(hits: seq<Hit>): set<nat> {
    set h | h in hits :: h.sha
  }

  /** The canonical commits the first scan did not meet, with nothing indexed. */
  function Rest(rows: seq<nat>, seen: set<nat>): seq<Hit> {
    if rows == [] then []
    else
      var last := rows[|rows| - 1];
      Rest(rows[..|rows| - 1], seen) + if last in seen then [] else [Hit(last, {})]
  }

  function Visits(index: seq<Hit>, rows: seq<nat>): seq<Hit> {
    index + Rest(rows, Shas(index))
  }

  ghost predicate Ascending(rows: seq<nat>) {
    forall i, j :: 0 <= i < j < |rows| ==> rows[i] < rows[j]
  }

  function SetOf(rows: seq<nat>): set<nat> {
    set r | r in rows
  }

  lemma SetSnoc(rows: seq<nat>, r: nat)
    ensures SetOf(rows + [r]) == SetOf(rows) + {r}
  {
    assert forall x :: x in rows + [r] <==> x in rows || x == r;
  }

  lemma {:induction false} RestIs(rows: seq<nat>, seen: set<nat>)
    ensures Shas(Rest(rows, seen)) == SetOf(rows) - seen
  {
    if rows == [] {
      assert Shas([]) == {};
    } else {
      var front, last := rows[..|rows| - 1], rows[|rows| - 1];
      RestIs(front, seen);
      assert rows == front + [last];
      SetSnoc(front, last);
      ShasSnoc(Rest(front, seen), Hit(last, {}));
      assert Rest(front, seen) + [] == Rest(front, seen);
    }
  }

  lemma {:induction false} RestSorted(rows: seq<nat>, seen: set<nat>)
    requires Ascending(rows)
    ensures Sorted(Rest(rows, seen))
  {
    if rows != [] {
      var front, last := rows[..|rows| - 1], rows[|rows| - 1];
      RestSorted(front, seen);
      RestIs(front, seen);
      var before := Rest(front, seen);
      forall i | 0 <= i < |before|
        ensures before[i].sha < last
      {
        ShaIn(before, i);
        assert before[i].sha in SetOf(front);
      }
    }
  }

  lemma ShaIn(hits: seq<Hit>, i: nat)
    requires i < |hits|
    ensures hits[i].sha in Shas(hits)
  {
    assert hits[i] in hits;
  }

  lemma ShasSnoc(hits: seq<Hit>, hit: Hit)
    ensures Shas(hits + [hit]) == Shas(hits) + {hit.sha}
  {
    assert forall h :: h in hits + [hit] <==> h in hits || h == hit;
  }

  /** Every commit of the index or of the relation is visited, and none twice. */
  lemma VisitsEachOnce(index: seq<Hit>, rows: seq<nat>)
    requires Sorted(index) && Ascending(rows)
    ensures Shas(Visits(index, rows)) == Shas(index) + SetOf(rows)
    ensures forall i, j :: 0 <= i < j < |Visits(index, rows)| ==> Visits(index, rows)[i].sha != Visits(index, rows)[j].sha
  {
    var rest := Rest(rows, Shas(index));
    RestIs(rows, Shas(index));
    RestSorted(rows, Shas(index));
    ShasJoin(index, rest);
    forall i, j | 0 <= i < j < |index + rest|
      ensures (index + rest)[i].sha != (index + rest)[j].sha
    {
      if i < |index| <= j {
        ShaIn(index, i);
        ShaIn(rest, j - |index|);
      }
    }
  }

  lemma ShasJoin(a: seq<Hit>, b: seq<Hit>)
    ensures Shas(a + b) == Shas(a) + Shas(b)
  {
    assert forall h :: h in a + b <==> h in a || h in b;
  }

  function CountIf(visits: seq<Hit>, canon: Canon, filter: Option<set<nat>>, blocked: bool): nat {
    if visits == [] then 0
    else
      var last := visits[|visits| - 1];
      CountIf(visits[..|visits| - 1], canon, filter, blocked) +
      if (if blocked then Blocks(canon, filter, last) else Changes(canon, filter, last)) then 1 else 0
  }

  function NeedsWork(visits: seq<Hit>, canon: Canon, filter: Option<set<nat>>): seq<nat> {
    if visits == [] then []
    else
      var last := visits[|visits| - 1];
      NeedsWork(visits[..|visits| - 1], canon, filter) + if Changes(canon, filter, last) then [last.sha] else []
  }

  lemma {:induction false} ChangesCounted(visits: seq<Hit>, canon: Canon, filter: Option<set<nat>>)
    ensures |NeedsWork(visits, canon, filter)| == CountIf(visits, canon, filter, false)
  {
    if visits != [] { ChangesCounted(visits[..|visits| - 1], canon, filter); }
  }

  // ----- Judging one commit, in the plan -----

  datatype Verdict = Verdict(added: set<nat>, removed: set<nat>, withheld: set<nat>)

  /** Remembers which pull requests were found verified. */
  method Consider(canon: Canon, filter: Option<set<nat>>, hit: Hit, cache: map<nat, bool>)
    returns (verdict: Verdict, cached: map<nat, bool>)
    requires forall n :: n in cache ==> cache[n] == (n in canon.verified)
    ensures forall n :: n in cached ==> cached[n] == (n in canon.verified)
    ensures verdict == Verdict(Added(canon, filter, hit.sha, hit.numbers), Removed(canon, filter, hit.sha, hit.numbers),
                               Withheld(canon, filter, hit.sha, hit.numbers))
  {
    cached := cache;
    var effective, chainExcluded := At(canon.effective, hit.sha), At(canon.chainExcluded, hit.sha);
    var added := set n | n in effective && n !in hit.numbers && Passes(filter, n);
    var candidates := set n | n in hit.numbers && n !in effective && Passes(filter, n);
    var removed, withheld: set<nat> := {}, {};
    var rest := candidates;
    while rest != {}
      invariant rest <= candidates
      invariant removed == set n | n in candidates && n !in rest && (n in chainExcluded || n in canon.verified)
      invariant withheld == set n | n in candidates && n !in rest && n !in chainExcluded && n !in canon.verified
      invariant forall n :: n in cached ==> cached[n] == (n in canon.verified)
    {
      var n :| n in rest;
      if n in chainExcluded {
        removed := removed + {n};
      } else {
        if n !in cached { cached := cached[n := n in canon.verified]; }
        if cached[n] { removed := removed + {n}; } else { withheld := withheld + {n}; }
      }
      rest := rest - {n};
    }
    verdict := Verdict(added, removed, withheld);
  }

  // ----- Judging one commit, in the run -----

  /** Counts instead of collecting, and asks for every pull request anew. */
  method CheckCommit(canon: Canon, filter: Option<set<nat>>, hit: Hit) returns (work: bool, blocked: bool)
    ensures work == Changes(canon, filter, hit) && blocked == Blocks(canon, filter, hit)
  {
    var effective, chainExcluded := At(canon.effective, hit.sha), At(canon.chainExcluded, hit.sha);
    var added := set n | n in effective && n !in hit.numbers && Passes(filter, n);
    var candidates := set n | n in hit.numbers && n !in effective && Passes(filter, n);
    var removable, withheld := 0, 0;
    ghost var removed: set<nat> := {};
    ghost var kept: set<nat> := {};
    var rest := candidates;
    while rest != {}
      invariant rest <= candidates
      invariant removed == set n | n in candidates && n !in rest && (n in chainExcluded || n in canon.verified)
      invariant kept == set n | n in candidates && n !in rest && n !in chainExcluded && n !in canon.verified
      invariant (removable == 0 <==> removed == {}) && (withheld == 0 <==> kept == {})
    {
      var n :| n in rest;
      if n in chainExcluded || n in canon.verified {
        removable := removable + 1;
        removed := removed + {n};
      } else {
        withheld := withheld + 1;
        kept := kept + {n};
      }
      rest := rest - {n};
    }
    assert removed == Removed(canon, filter, hit.sha, hit.numbers) && kept == Withheld(canon, filter, hit.sha, hit.numbers);
    work := !(added == {} && removable == 0);
    blocked := withheld > 0;
  }

  // ----- Keyset pages -----

  /** How many rows lie at or before the cursor. */
  function UpTo(hits: seq<Hit>, after: int): (n: nat)
    ensures n <= |hits|
  {
    if hits == [] then 0 else UpTo(hits[..|hits| - 1], after) + if hits[|hits| - 1].sha <= after then 1 else 0
  }

  lemma {:induction false} UpToIs(hits: seq<Hit>, n: nat, after: int)
    requires Sorted(hits) && n <= |hits|
    requires if n == 0 then after < 0 else after == hits[n - 1].sha
    ensures UpTo(hits, after) == n
    decreases |hits|
  {
    if n < |hits| {
      UpToIs(hits[..|hits| - 1], n, after);
    } else if n > 0 {
      UpToAll(hits[..|hits| - 1], after);
    }
  }

  lemma {:induction false} UpToAll(hits: seq<Hit>, after: int)
    requires forall i :: 0 <= i < |hits| ==> hits[i].sha <= after
    ensures UpTo(hits, after) == |hits|
  {
    if hits != [] { UpToAll(hits[..|hits| - 1], after); }
  }

  /** The rows after the cursor, at most a page of them. */
  function Page(hits: seq<Hit>, after: int): seq<Hit> {
    var from := UpTo(hits, after);
    hits[from..if from + SCAN_PAGE < |hits| then from + SCAN_PAGE else |hits|]
  }

  lemma PageIs(hits: seq<Hit>, n: nat, after: int)
    requires Sorted(hits) && n <= |hits| && (if n == 0 then after == -1 else after == hits[n - 1].sha)
    ensures Page(hits, after) == hits[n..if n + SCAN_PAGE < |hits| then n + SCAN_PAGE else |hits|]
  {
    UpToIs(hits, n, after);
  }

  /** Page after page by the last hash seen, until a page is short: every row once, in order. */
  method ScanPages(stored: seq<Hit>) returns (hits: seq<Hit>)
    requires Sorted(stored)
    ensures hits == stored
  {
    hide Sorted, Page;
    hits := [];
    var after: int := -1;
    var more := true;
    while more
      invariant |hits| <= |stored| && hits == stored[..|hits|] && (more || hits == stored)
      invariant after == if hits == [] then -1 else hits[|hits| - 1].sha
      decreases |stored| - |hits|, more
    {
      var page := Page(stored, after);
      PageIs(stored, |hits|, after);
      assert stored[..|hits|] + page == stored[..|hits| + |page|];
      hits := hits + page;
      if page != [] { after := page[|page| - 1].sha; }
      more := |page| == SCAN_PAGE;
    }
  }

  // ----- The plan -----

  datatype Plan = Plan(scanned: nat, commitsChanged: nat, blocked: nat)

  ghost predicate Counted(plan: Plan, canon: Canon, filter: Option<set<nat>>, visits: seq<Hit>) {
    plan == Plan(|visits|, CountIf(visits, canon, filter, false), CountIf(visits, canon, filter, true))
  }

  method ConsiderOne(canon: Canon, filter: Option<set<nat>>, hit: Hit, plan: Plan, cache: map<nat, bool>, ghost visits: seq<Hit>)
    returns (next: Plan, cached: map<nat, bool>)
    requires forall n :: n in cache ==> cache[n] == (n in canon.verified)
    requires Counted(plan, canon, filter, visits)
    ensures forall n :: n in cached ==> cached[n] == (n in canon.verified)
    ensures Counted(next, canon, filter, visits + [hit])
  {
    var verdict;
    verdict, cached := Consider(canon, filter, hit, cache);
    assert (visits + [hit])[..|visits|] == visits;
    next := plan.(scanned := plan.scanned + 1);
    if verdict.added == {} && verdict.removed == {} {
      if verdict.withheld != {} { next := next.(blocked := plan.blocked + 1); }
      return;
    }
    next := next.(commitsChanged := plan.commitsChanged + 1);
    if verdict.withheld != {} { next := next.(blocked := plan.blocked + 1); }
  }

  function Bare(rows: seq<nat>): (hits: seq<Hit>)
    ensures |hits| == |rows| && forall i :: 0 <= i < |rows| ==> hits[i] == Hit(rows[i], {})
  {
    seq(|rows|, i requires 0 <= i < |rows| => Hit(rows[i], {}))
  }

  lemma RestSnoc(rows: seq<nat>, i: nat, seen: set<nat>)
    requires i < |rows|
    ensures Rest(rows[..i + 1], seen) == Rest(rows[..i], seen) + if rows[i] in seen then [] else [Hit(rows[i], {})]
  {
    assert rows[..i + 1][..i] == rows[..i];
  }

  /** The index first, then the canonical commits it did not meet. */
  method PlanLinkRepair(index: seq<Hit>, rows: seq<nat>, canon: Canon, filter: Option<set<nat>>) returns (plan: Plan)
    requires Sorted(index) && Ascending(rows)
    ensures Counted(plan, canon, filter, Visits(index, rows))
  {
    hide Counted, Sorted, Ascending;
    plan := Plan(0, 0, 0);
    NothingCounted(canon, filter);
    var cache: map<nat, bool> := map[];
    var seen: set<nat> := {};
    var hits := ScanPages(index);
    assert Shas([]) == {};
    for i := 0 to |hits|
      invariant seen == Shas(hits[..i]) && Counted(plan, canon, filter, hits[..i])
      invariant forall n :: n in cache ==> cache[n] == (n in canon.verified)
    {
      assert hits[..i + 1] == hits[..i] + [hits[i]];
      ShasSnoc(hits[..i], hits[i]);
      plan, cache := ConsiderOne(canon, filter, hits[i], plan, cache, hits[..i]);
      seen := seen + {hits[i].sha};
    }
    assert hits[..|hits|] == index;
    BareSorted(rows);
    var links := ScanPages(Bare(rows));
    assert index + [] == index;
    for i := 0 to |links|
      invariant seen == Shas(index) && Counted(plan, canon, filter, index + Rest(rows[..i], seen))
      invariant forall n :: n in cache ==> cache[n] == (n in canon.verified)
    {
      RestSnoc(rows, i, seen);
      if links[i].sha in seen {
        assert Rest(rows[..i], seen) + [] == Rest(rows[..i], seen);
      } else {
        assert (index + Rest(rows[..i], seen)) + [links[i]] == index + Rest(rows[..i + 1], seen);
        plan, cache := ConsiderOne(canon, filter, links[i], plan, cache, index + Rest(rows[..i], seen));
      }
    }
    assert rows[..|rows|] == rows;
  }

  lemma BareSorted(rows: seq<nat>)
    requires Ascending(rows)
    ensures Sorted(Bare(rows))
  {}

  lemma NothingCounted(canon: Canon, filter: Option<set<nat>>)
    ensures Counted(Plan(0, 0, 0), canon, filter, [])
  {}

  // ----- The run -----

  ghost predicate Queued(needsWork: seq<nat>, blocked: nat, canon: Canon, filter: Option<set<nat>>, visits: seq<Hit>) {
    needsWork == NeedsWork(visits, canon, filter) && blocked == CountIf(visits, canon, filter, true)
  }

  method CheckOne(canon: Canon, filter: Option<set<nat>>, hit: Hit, needsWork: seq<nat>, blocked: nat, ghost visits: seq<Hit>)
    returns (more: seq<nat>, count: nat)
    requires Queued(needsWork, blocked, canon, filter, visits)
    ensures Queued(more, count, canon, filter, visits + [hit])
  {
    var work, withheld := CheckCommit(canon, filter, hit);
    assert (visits + [hit])[..|visits|] == visits;
    count := if withheld then blocked + 1 else blocked;
    more := if work then needsWork + [hit.sha] else needsWork;
  }

  method ApplyLinkRepair(index: seq<Hit>, rows: seq<nat>, canon: Canon, filter: Option<set<nat>>)
    returns (needsWork: seq<nat>, blocked: nat)
    requires Sorted(index) && Ascending(rows)
    ensures Queued(needsWork, blocked, canon, filter, Visits(index, rows))
  {
    hide Queued, Sorted, Ascending;
    needsWork, blocked := [], 0;
    NothingQueued(canon, filter);
    var seen: set<nat> := {};
    var hits := ScanPages(index);
    assert Shas([]) == {};
    for i := 0 to |hits|
      invariant seen == Shas(hits[..i]) && Queued(needsWork, blocked, canon, filter, hits[..i])
    {
      assert hits[..i + 1] == hits[..i] + [hits[i]];
      ShasSnoc(hits[..i], hits[i]);
      seen := seen + {hits[i].sha};
      needsWork, blocked := CheckOne(canon, filter, hits[i], needsWork, blocked, hits[..i]);
    }
    assert hits[..|hits|] == index;
    BareSorted(rows);
    var links := ScanPages(Bare(rows));
    assert index + [] == index;
    for i := 0 to |links|
      invariant seen == Shas(index) && Queued(needsWork, blocked, canon, filter, index + Rest(rows[..i], seen))
    {
      RestSnoc(rows, i, seen);
      if links[i].sha in seen {
        assert Rest(rows[..i], seen) + [] == Rest(rows[..i], seen);
      } else {
        assert (index + Rest(rows[..i], seen)) + [links[i]] == index + Rest(rows[..i + 1], seen);
        needsWork, blocked := CheckOne(canon, filter, links[i], needsWork, blocked, index + Rest(rows[..i], seen));
      }
    }
    assert rows[..|rows|] == rows;
  }

  lemma NothingQueued(canon: Canon, filter: Option<set<nat>>)
    ensures Queued([], 0, canon, filter, [])
  {}

  lemma {:induction false} NeedsWorkFrom(visits: seq<Hit>, canon: Canon, filter: Option<set<nat>>)
    ensures forall sha :: sha in NeedsWork(visits, canon, filter) <==> exists h :: h in visits && h.sha == sha && Changes(canon, filter, h)
  {
    if visits != [] {
      var front, last := visits[..|visits| - 1], visits[|visits| - 1];
      NeedsWorkFrom(front, canon, filter);
      assert forall h :: h in visits <==> h in front || h == last;
    }
  }

  /**
   On one unchanged state the two agree: as many commits change in the plan as are queued by the run, as many
   are blocked, and a commit is queued exactly if a difference may be applied to it.
   */
  lemma PlanAndApplyAgree(plan: Plan, needsWork: seq<nat>, blocked: nat, index: seq<Hit>, rows: seq<nat>, canon: Canon, filter: Option<set<nat>>)
    requires Sorted(index) && Ascending(rows)
    requires Counted(plan, canon, filter, Visits(index, rows)) && Queued(needsWork, blocked, canon, filter, Visits(index, rows))
    ensures plan.commitsChanged == |needsWork| && plan.blocked == blocked
    ensures forall sha :: sha in needsWork <==> exists h :: h in Visits(index, rows) && h.sha == sha && Changes(canon, filter, h)
  {
    ChangesCounted(Visits(index, rows), canon, filter);
    NeedsWorkFrom(Visits(index, rows), canon, filter);
  }
}
