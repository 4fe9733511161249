/**
 Verification of the links of an index under construction, by comparing and counting.

 For every page of sources of every repository the planned links are compared with those read from the target;
 then the links of the repository, and all links, are counted. A stored document lives at an id and a routing;
 its repository and its source are fields of its own. The count of links without a stack row and the number of
 pending rows are left to their own checks.

 Assumed: the target does not change meanwhile; a plan gives each link its own id, its repository and source.
 Main result: `VerifyLinkEdges`.
 */
module LinkVerify {
  import opened Wrappers

  datatype Doc = Doc(id: nat, routing: nat, repo: nat, from: nat, fields: nat)
  type Target = set<Doc>

  datatype PlanResult = Absent | Unplannable | Edges(docs: seq<Doc>)
  /** What the planner says about one source of one repository. */
  type Plans = map<(nat, nat), PlanResult>

  ghost predicate UniqueIds(target: Target) {
    forall a, b :: a in target && b in target && a.id == b.id && a.routing == b.routing ==> a == b
  }

  function PlanOf(plans: Plans, repo: nat, source: nat): PlanResult {
    if (repo, source) in plans then plans[(repo, source)] else Absent
  }

  function EdgesOf(plan: PlanResult): seq<Doc> {
    if plan.Edges? then plan.docs else []
  }

  /** Every link of a plan is the source's own, and no id appears twice in a repository. */
  ghost predicate PlansFit(plans: Plans) {
    && (forall repo, source, d :: d in EdgesOf(PlanOf(plans, repo, source)) ==> d.routing == repo && d.repo == repo && d.from == source)
    && (forall repo, s, t, d, e ::
          d in EdgesOf(PlanOf(plans, repo, s)) && e in EdgesOf(PlanOf(plans, repo, t)) && d.id == e.id ==> d == e)
  }

  function Members<T>(s: seq<T>): set<T> {
    set x | x in s
  }

  /** All planned links of some sources. */
  function Planned(plans: Plans, repo: nat, sources: seq<nat>): set<Doc> {
    set s, d | s in sources && d in EdgesOf(PlanOf(plans, repo, s)) :: d
  }

  /** The sources a plan exists for: neither absent from the snapshots nor unplannable. */
  function Readable(plans: Plans, repo: nat, sources: seq<nat>): set<nat> {
    set s | s in sources && PlanOf(plans, repo, s).Edges?
  }

  /** What a routed, filtered read of the target returns. */
  function LinksFrom(target: Target, repo: nat, from: set<nat>): set<Doc> {
    set d | d in target && d.routing == repo && d.repo == repo && d.from in from
  }

  function OfRepo(target: Target, repo: nat): set<Doc> {
    set d | d in target && d.repo == repo
  }

  predicate SomeUnplannable(plans: Plans, repo: nat, sources: seq<nat>) {
    exists s :: s in sources && PlanOf(plans, repo, s).Unplannable?
  }

  datatype Counts = Counts(missing: nat, extra: nat, mismatched: nat, orphans: nat, unplannable: nat)

  predicate Clean(c: Counts) {
    c == Counts(0, 0, 0, 0, 0)
  }

  /** Some stored link with this id, if any. */
  function At(docs: set<Doc>, id: nat): set<Doc> {
    set d | d in docs && d.id == id
  }

  lemma PlannedSnoc(plans: Plans, repo: nat, sources: seq<nat>, s: nat)
    ensures Planned(plans, repo, sources + [s]) == Planned(plans, repo, sources) + Members(EdgesOf(PlanOf(plans, repo, s)))
    ensures Readable(plans, repo, sources + [s]) ==
            Readable(plans, repo, sources) + if PlanOf(plans, repo, s).Edges? then {s} else {}
    ensures SomeUnplannable(plans, repo, sources + [s]) <==> SomeUnplannable(plans, repo, sources) || PlanOf(plans, repo, s).Unplannable?
  {
    assert forall x :: x in sources + [s] <==> x in sources || x == s;
  }

  ghost predicate IdsDiffer(docs: set<Doc>) {
    forall a, b :: a in docs && b in docs && a.id == b.id ==> a == b
  }

  method PlanPage(plans: Plans, repo: nat, page: seq<nat>) returns (planned: set<Doc>, from: set<nat>, unplannable: nat)
    ensures planned == Planned(plans, repo, page) && from == Readable(plans, repo, page)
    ensures unplannable > 0 <==> SomeUnplannable(plans, repo, page)
  {
    hide Planned, Readable, SomeUnplannable;
    unplannable, planned, from := 0, {}, {};
    NothingPlanned(plans, repo);
    for i := 0 to |page|
      invariant planned == Planned(plans, repo, page[..i]) && from == Readable(plans, repo, page[..i])
      invariant unplannable > 0 <==> SomeUnplannable(plans, repo, page[..i])
    {
      assert page[..i + 1] == page[..i] + [page[i]];
      PlannedSnoc(plans, repo, page[..i], page[i]);
      match PlanOf(plans, repo, page[i]) {
        case Absent =>
        case Unplannable => unplannable := unplannable + 1;
        case Edges(docs) =>
          from := from + {page[i]};
          planned := planned + Members(docs);
      }
    }
    assert page[..|page|] == page;
  }

  lemma NothingPlanned(plans: Plans, repo: nat)
    ensures Planned(plans, repo, []) == {} && Readable(plans, repo, []) == {} && !SomeUnplannable(plans, repo, [])
  {}

  /** Wanted links that are not there, there but different, and links nobody wants. */
  method Compare(planned: set<Doc>, actual: set<Doc>) returns (missing: nat, mismatched: nat, extra: nat)
    requires IdsDiffer(planned) && IdsDiffer(actual)
    ensures missing == 0 && mismatched == 0 && extra == 0 <==> actual == planned
  {
    missing, mismatched, extra := 0, 0, 0;
    var rest := planned;
    while rest != {}
      invariant rest <= planned
      invariant missing == 0 && mismatched == 0 <==> planned - rest <= actual
    {
      var want :| want in rest;
      var got := At(actual, want.id);
      assert want in actual <==> want in got;
      if got == {} {
        missing := missing + 1;
      } else if want !in got {
        mismatched := mismatched + 1;
      }
      assert planned - (rest - {want}) == (planned - rest) + {want};
      rest := rest - {want};
    }
    assert planned - {} == planned;
    rest := actual;
    while rest != {}
      invariant rest <= actual
      invariant missing == 0 && mismatched == 0 <==> planned <= actual
      invariant extra == 0 <==> forall d :: d in actual - rest ==> At(planned, d.id) != {}
    {
      var got :| got in rest;
      if At(planned, got.id) == {} { extra := extra + 1; }
      assert actual - (rest - {got}) == (actual - rest) + {got};
      rest := rest - {got};
    }
    ComparedEqual(planned, actual);
    assert actual - rest == actual;
  }

  lemma ComparedEqual(planned: set<Doc>, actual: set<Doc>)
    requires IdsDiffer(actual)
    ensures planned <= actual && (forall d :: d in actual ==> At(planned, d.id) != {}) <==> actual == planned
  {
    if planned <= actual && forall d :: d in actual ==> At(planned, d.id) != {} {
      forall d | d in actual
        ensures d in planned
      {
        var e :| e in At(planned, d.id);
      }
    }
    forall d | d in planned
      ensures d in At(planned, d.id)
    {}
  }

  /** Compares one page: no count is raised exactly if all sources have a plan and the links read are the planned ones. */
  method Check(plans: Plans, target: Target, repo: nat, page: seq<nat>) returns (counts: Counts, accounted: nat)
    requires PlansFit(plans) && UniqueIds(target)
    ensures accounted == |LinksFrom(target, repo, Readable(plans, repo, page))|
    ensures Clean(counts) <==> PageRight(plans, target, repo, page)
    ensures counts.orphans == 0
  {
    var planned, from, unplannable := PlanPage(plans, repo, page);
    var actual := LinksFrom(target, repo, from);
    PagesDiffer(plans, target, repo, page);
    hide Planned, Readable, SomeUnplannable, LinksFrom;
    var missing, mismatched, extra := Compare(planned, actual);
    accounted := |actual|;
    counts := Counts(missing, extra, mismatched, 0, unplannable);
  }

  lemma PagesDiffer(plans: Plans, target: Target, repo: nat, page: seq<nat>)
    requires PlansFit(plans) && UniqueIds(target)
    ensures IdsDiffer(Planned(plans, repo, page)) && IdsDiffer(LinksFrom(target, repo, Readable(plans, repo, page)))
  {}

  ghost predicate PageRight(plans: Plans, target: Target, repo: nat, page: seq<nat>) {
    !SomeUnplannable(plans, repo, page) && LinksFrom(target, repo, Readable(plans, repo, page)) == Planned(plans, repo, page)
  }

  // ----- One repository, page by page -----

  function Flat(pages: seq<seq<nat>>): seq<nat> {
    if pages == [] then [] else Flat(pages[..|pages| - 1]) + pages[|pages| - 1]
  }

  ghost predicate Distinct(s: seq<nat>) {
    forall i, j :: 0 <= i < j < |s| ==> s[i] != s[j]
  }

  function Sum(a: Counts, b: Counts): Counts {
    Counts(a.missing + b.missing, a.extra + b.extra, a.mismatched + b.mismatched, a.orphans + b.orphans, a.unplannable + b.unplannable)
  }

  lemma PagesJoin(plans: Plans, target: Target, repo: nat, done: seq<nat>, page: seq<nat>)
    requires PlansFit(plans) && Distinct(done + page)
    ensures |LinksFrom(target, repo, Readable(plans, repo, done + page))| ==
            |LinksFrom(target, repo, Readable(plans, repo, done))| + |LinksFrom(target, repo, Readable(plans, repo, page))|
    ensures PageRight(plans, target, repo, done + page) <==>
            PageRight(plans, target, repo, done) && PageRight(plans, target, repo, page)
  {
    ReadableJoin(plans, repo, done, page);
    LinksJoin(target, repo, Readable(plans, repo, done), Readable(plans, repo, page));
    JoinRight(plans, target, repo, done, page);
  }

  lemma LinksJoin(target: Target, repo: nat, s: set<nat>, t: set<nat>)
    requires s * t == {}
    ensures |LinksFrom(target, repo, s + t)| == |LinksFrom(target, repo, s)| + |LinksFrom(target, repo, t)|
  {
    var a, b := LinksFrom(target, repo, s), LinksFrom(target, repo, t);
    assert LinksFrom(target, repo, s + t) == a + b;
    forall d | d in a
      ensures d !in b
    {
      assert d.from !in s * t;
    }
    assert a * b == {};
  }

  lemma ReadableJoin(plans: Plans, repo: nat, done: seq<nat>, page: seq<nat>)
    requires Distinct(done + page)
    ensures Readable(plans, repo, done + page) == Readable(plans, repo, done) + Readable(plans, repo, page)
    ensures Readable(plans, repo, done) * Readable(plans, repo, page) == {}
  {
    forall s | s in done
      ensures s !in page
    {
      NotTwice(done, page, s);
    }
  }

  lemma NotTwice(done: seq<nat>, page: seq<nat>, s: nat)
    requires Distinct(done + page) && s in done
    ensures s !in page
  {
    var i :| 0 <= i < |done| && done[i] == s;
    assert (done + page)[i] == s;
    assert forall j :: 0 <= j < |page| ==> (done + page)[|done| + j] == page[j];
  }

  lemma PlannedJoin(plans: Plans, repo: nat, done: seq<nat>, page: seq<nat>)
    ensures Planned(plans, repo, done + page) == Planned(plans, repo, done) + Planned(plans, repo, page)
    ensures SomeUnplannable(plans, repo, done + page) <==> SomeUnplannable(plans, repo, done) || SomeUnplannable(plans, repo, page)
  {
    assert forall s :: s in done + page <==> s in done || s in page;
  }

  /** A planned link carries its source, so the parts of the union can be told apart again. */
  lemma JoinRight(plans: Plans, target: Target, repo: nat, done: seq<nat>, page: seq<nat>)
    requires PlansFit(plans) && Distinct(done + page)
    ensures PageRight(plans, target, repo, done + page) <==>
            PageRight(plans, target, repo, done) && PageRight(plans, target, repo, page)
  {
    PlannedJoin(plans, repo, done, page);
    ReadableJoin(plans, repo, done, page);
    FromOwn(plans, repo, done);
    FromOwn(plans, repo, page);
    var all := LinksFrom(target, repo, Readable(plans, repo, done + page));
    var a, b := LinksFrom(target, repo, Readable(plans, repo, done)), LinksFrom(target, repo, Readable(plans, repo, page));
    assert all == a + b;
    if all == Planned(plans, repo, done + page) {
      assert a == Planned(plans, repo, done);
      assert b == Planned(plans, repo, page);
    }
  }

  lemma FromOwn(plans: Plans, repo: nat, sources: seq<nat>)
    requires PlansFit(plans)
    ensures forall d :: d in Planned(plans, repo, sources) ==> d.from in Readable(plans, repo, sources) && d.repo == repo && d.routing == repo
  {}

  // ----- All repositories -----

  /** The sources of each repository, in the pages they are listed in. */
  type Listing = seq<(nat, seq<seq<nat>>)>

  ghost predicate ListingFits(listing: Listing) {
    && (forall i :: 0 <= i < |listing| ==> Distinct(Flat(listing[i].1)))
    && (forall i, j :: 0 <= i < j < |listing| ==> listing[i].0 != listing[j].0)
  }

  lemma {:induction false} DistinctFront(pages: seq<seq<nat>>, n: nat)
    requires n <= |pages| && Distinct(Flat(pages))
    ensures Distinct(Flat(pages[..n]))
    decreases |pages|
  {
    if n == |pages| {
      assert pages[..n] == pages;
    } else {
      var front := pages[..|pages| - 1];
      assert forall i :: 0 <= i < |Flat(front)| ==> Flat(pages)[i] == Flat(front)[i];
      DistinctFront(front, n);
      assert front[..n] == pages[..n];
    }
  }

  ghost predicate RepoRight(plans: Plans, target: Target, repo: nat, sources: seq<nat>) {
    PageRight(plans, target, repo, sources) && OfRepo(target, repo) == Planned(plans, repo, sources)
  }

  /** One repository: pages compared, then the links it owns counted against those accounted for. */
  method CheckRepository(plans: Plans, target: Target, repo: nat, pages: seq<seq<nat>>) returns (counts: Counts, total: nat)
    requires PlansFit(plans) && UniqueIds(target) && Distinct(Flat(pages))
    ensures total == |OfRepo(target, repo)|
    ensures Clean(counts) <==> RepoRight(plans, target, repo, Flat(pages))
  {
    hide PlansFit, UniqueIds, PageRight, Distinct, LinksFrom, Readable;
    counts := Counts(0, 0, 0, 0, 0);
    var accounted := 0;
    NothingListed(plans, target, repo);
    for i := 0 to |pages|
      invariant counts.orphans == 0
      invariant accounted == |LinksFrom(target, repo, Readable(plans, repo, Flat(pages[..i])))|
      invariant Clean(counts) <==> PageRight(plans, target, repo, Flat(pages[..i]))
    {
      var more, read := Check(plans, target, repo, pages[i]);
      assert pages[..i + 1][..i] == pages[..i] && Flat(pages[..i + 1]) == Flat(pages[..i]) + pages[i];
      DistinctFront(pages, i + 1);
      PagesJoin(plans, target, repo, Flat(pages[..i]), pages[i]);
      counts := Sum(counts, more);
      accounted := accounted + read;
    }
    assert pages[..|pages|] == pages;
    total := |OfRepo(target, repo)|;
    OrphansCounted(plans, target, repo, Flat(pages));
    if total > accounted {
      counts := counts.(orphans := total - accounted);
    }
  }

  lemma NothingListed(plans: Plans, target: Target, repo: nat)
    ensures LinksFrom(target, repo, Readable(plans, repo, Flat([]))) == {} && PageRight(plans, target, repo, Flat([]))
  {
    NothingPlanned(plans, repo);
    assert Flat([]) == [];
  }

  /** With every page right, the counts agree exactly if the repository owns nothing but planned links. */
  lemma OrphansCounted(plans: Plans, target: Target, repo: nat, sources: seq<nat>)
    requires PlansFit(plans)
    ensures
      var read := LinksFrom(target, repo, Readable(plans, repo, sources));
      && |read| <= |OfRepo(target, repo)|
      && (PageRight(plans, target, repo, sources) ==>
            (|OfRepo(target, repo)| <= |read| <==> OfRepo(target, repo) == Planned(plans, repo, sources)))
  {
    SubsetSize(LinksFrom(target, repo, Readable(plans, repo, sources)), OfRepo(target, repo));
  }

  /** The target holds exactly the planned links of the listed repositories, and every source has a plan or is gone. */
  ghost predicate Exact(plans: Plans, target: Target, listing: Listing) {
    && (forall i :: 0 <= i < |listing| ==> RepoRight(plans, target, listing[i].0, Flat(listing[i].1)))
    && (forall d :: d in target ==> exists i :: 0 <= i < |listing| && listing[i].0 == d.repo)
  }

  function OfRepos(target: Target, listing: Listing): Target {
    set i, d | 0 <= i < |listing| && d in target && d.repo == listing[i].0 :: d
  }

  lemma OfReposSnoc(target: Target, listing: Listing, next: (nat, seq<seq<nat>>))
    requires forall i :: 0 <= i < |listing| ==> listing[i].0 != next.0
    ensures |OfRepos(target, listing + [next])| == |OfRepos(target, listing)| + |OfRepo(target, next.0)|
  {
    var a, b, all := OfRepos(target, listing), OfRepo(target, next.0), listing + [next];
    forall d | d in target
      ensures d in OfRepos(target, all) <==> d in a + b
    {
      if d in b { assert all[|listing|].0 == d.repo; }
      if i :| 0 <= i < |listing| && listing[i].0 == d.repo { assert all[i].0 == d.repo; }
    }
    assert OfRepos(target, all) == a + b;
    assert a * b == {};
  }

  lemma AllOwned(target: Target, listing: Listing)
    ensures |target| <= |OfRepos(target, listing)| <==>
            forall d :: d in target ==> exists i :: 0 <= i < |listing| && listing[i].0 == d.repo
  {
    SubsetSize(OfRepos(target, listing), target);
    if forall d :: d in target ==> exists i :: 0 <= i < |listing| && listing[i].0 == d.repo {
      assert OfRepos(target, listing) == target;
    }
  }

  /**
   The whole verification: without a reason against it exactly if the target is, link for link and field for
   field, the union of the planned links over all repositories and sources, with nothing from anywhere else.
   */
  method VerifyLinkEdges(plans: Plans, target: Target, listing: Listing) returns (ok: bool)
    requires PlansFit(plans) && UniqueIds(target) && ListingFits(listing)
    ensures ok <==> Exact(plans, target, listing)
  {
    hide PlansFit, UniqueIds, RepoRight, Distinct, Flat;
    var counts := Counts(0, 0, 0, 0, 0);
    var accountedAll := 0;
    assert OfRepos(target, []) == {};
    for i := 0 to |listing|
      invariant accountedAll == |OfRepos(target, listing[..i])|
      invariant Clean(counts) <==> forall k :: 0 <= k < i ==> RepoRight(plans, target, listing[k].0, Flat(listing[k].1))
    {
      var more, total := CheckRepository(plans, target, listing[i].0, listing[i].1);
      assert listing[..i + 1] == listing[..i] + [listing[i]];
      OfReposSnoc(target, listing[..i], listing[i]);
      counts := Sum(counts, more);
      accountedAll := accountedAll + total;
    }
    assert listing[..|listing|] == listing;
    var grand := |target|;
    AllOwned(target, listing);
    if grand > accountedAll {
      counts := counts.(orphans := counts.orphans + (grand - accountedAll));
    }
    ok := Clean(counts);
  }
}
