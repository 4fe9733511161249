/**
 Cherry-pick links: planned per commit from the snapshot rows, kept up to date event by event.

 A commit hash is a number in the order of the hexadecimal text. A link is identified by its two ends, so the
 index is kept as one map from target to link for each source commit. `mentions` are the hashes a message
 contains anywhere; `trailers` those of its cherry-pick trailers, in order of appearance.

 Assumed: a patch id, once known, stays; the snapshot rows of one repository; one event at a time.
 Main results: `QuietIndexIsRebuild`, `DerivedLinksAcyclic`, `RowsAreRanked`, `ListedUnlessCut`, `MissedMattersIff`,
 `SilentlyCut`.
 */
module CherryPicks {
  import opened Wrappers

  const CHERRY_CANDIDATE_LIMIT := 5
  const AFFECTED_LIMIT := 200

  datatype Commit = Commit(sha: nat, committedAt: int, patch: Option<nat>, trailers: seq<nat>, mentions: set<nat>)
  type Snapshots = map<nat, Commit>

  /** Time first, then hash, so that every pair of commits has one direction. */
  predicate IsLater(a: Commit, b: Commit) {
    if a.committedAt != b.committedAt then a.committedAt > b.committedAt else a.sha > b.sha
  }

  // ----- The candidate query -----

  /** ORDER BY committed_at DESC, commit_sha ASC. */
  predicate Precedes(a: Commit, b: Commit) {
    a.committedAt > b.committedAt || (a.committedAt == b.committedAt && a.sha < b.sha)
  }

  ghost predicate BySha(pool: set<Commit>) {
    forall a, b :: a in pool && b in pool && a.sha == b.sha ==> a == b
  }

  /** What a query with this order and limit may return. */
  ghost predicate IsRows(rows: seq<Commit>, pool: set<Commit>, limit: nat) {
    && |rows| <= limit
    && (forall i :: 0 <= i < |rows| ==> rows[i] in pool)
    && (forall i, j :: 0 <= i < j < |rows| ==> Precedes(rows[i], rows[j]))
    && (forall c :: c in pool && c !in rows ==> |rows| == limit && forall i :: 0 <= i < |rows| ==> Precedes(rows[i], c))
  }

  function Ahead(pool: set<Commit>, c: Commit): set<Commit> {
    set d | d in pool && Precedes(d, c)
  }

  /** The limit said without an order of rows: fewer than `limit` candidates come before. */
  function Ranked(pool: set<Commit>, limit: nat): set<Commit> {
    set c | c in pool && |Ahead(pool, c)| < limit
  }

  lemma {:induction false} PrefixSize(rows: seq<Commit>, n: nat)
    requires n <= |rows| && forall i, j :: 0 <= i < j < |rows| ==> Precedes(rows[i], rows[j])
    ensures |Members(rows[..n])| == n
  {
    if n > 0 {
      PrefixSize(rows, n - 1);
      assert rows[..n] == rows[..n - 1] + [rows[n - 1]];
      assert Members(rows[..n]) == Members(rows[..n - 1]) + {rows[n - 1]};
    }
  }

  function Members(rows: seq<Commit>): set<Commit> {
    set i | 0 <= i < |rows| :: rows[i]
  }

  lemma AheadOfRow(rows: seq<Commit>, pool: set<Commit>, limit: nat, i: nat)
    requires BySha(pool) && IsRows(rows, pool, limit) && i < |rows|
    ensures Ahead(pool, rows[i]) <= Members(rows[..i])
  {
    forall d | d in Ahead(pool, rows[i])
      ensures d in Members(rows[..i])
    {
      if d in rows {
        var j :| 0 <= j < |rows| && rows[j] == d;
        assert j < i;
        assert rows[..i][j] == d;
      }
    }
  }

  /** The rows of a limited query are exactly the candidates with fewer than `limit` others before them. */
  lemma RowsAreRanked(rows: seq<Commit>, pool: set<Commit>, limit: nat)
    requires BySha(pool) && IsRows(rows, pool, limit)
    ensures Members(rows) == Ranked(pool, limit)
  {
    forall c | c in pool
      ensures c in Members(rows) <==> |Ahead(pool, c)| < limit
    {
      if c in rows {
        var i :| 0 <= i < |rows| && rows[i] == c;
        PrefixSize(rows, i);
        AheadOfRow(rows, pool, limit, i);
        SubsetSize(Ahead(pool, c), Members(rows[..i]));
      } else {
        PrefixSize(rows, |rows|);
        assert rows[..|rows|] == rows;
        SubsetSize(Members(rows), Ahead(pool, c));
      }
    }
  }

  // ----- Planning one commit -----

  function Candidates(db: Snapshots, self: Commit): set<Commit> {
    set s | s in db && self.patch.Some? && db[s].patch == self.patch && db[s].sha != self.sha && IsLater(self, db[s]) :: db[s]
  }

  datatype Link = Exact(resolved: bool) | Derived

  /** The links of one commit: its trailers if it has any, else the newest earlier commits with its patch. */
  function Plan(db: Snapshots, self: Commit): map<nat, Link> {
    if self.trailers != [] then ExactLinks(db, self, self.trailers)
    else DerivedLinks(Shas(Ranked(Candidates(db, self), CHERRY_CANDIDATE_LIMIT)))
  }

  function ExactLinks(db: Snapshots, self: Commit, trailers: seq<nat>): map<nat, Link> {
    map t | t in trailers && t != self.sha :: Exact(t in db)
  }

  function DerivedLinks(shas: set<nat>): map<nat, Link> {
    map s | s in shas :: Derived
  }

  function Shas(commits: set<Commit>): set<nat> {
    set c | c in commits :: c.sha
  }

  ghost predicate Keyed(db: Snapshots) {
    forall s :: s in db ==> db[s].sha == s
  }

  datatype Doc = Doc(to: nat, link: Link)

  function AsMap(docs: seq<Doc>): map<nat, Link> {
    if docs == [] then map[] else AsMap(docs[..|docs| - 1])[docs[|docs| - 1].to := docs[|docs| - 1].link]
  }

  lemma AsMapSnoc(docs: seq<Doc>, doc: Doc)
    ensures AsMap(docs + [doc]) == AsMap(docs)[doc.to := doc.link]
  {
    assert (docs + [doc])[..|docs|] == docs;
  }

  lemma ExactSnoc(db: Snapshots, self: Commit, trailers: seq<nat>, t: nat)
    ensures ExactLinks(db, self, trailers + [t]) ==
            if t != self.sha then ExactLinks(db, self, trailers)[t := Exact(t in db)] else ExactLinks(db, self, trailers)
    ensures t != self.sha ==> (t in ExactLinks(db, self, trailers) ==>
            ExactLinks(db, self, trailers)[t := Exact(t in db)] == ExactLinks(db, self, trailers))
  {
    assert forall x :: x in trailers + [t] <==> x in trailers || x == t;
  }

  lemma DerivedSnoc(rows: seq<Commit>, row: Commit)
    ensures DerivedLinks(Shas(Members(rows + [row]))) == DerivedLinks(Shas(Members(rows)))[row.sha := Derived]
    ensures row.sha in DerivedLinks(Shas(Members(rows))) ==>
            DerivedLinks(Shas(Members(rows)))[row.sha := Derived] == DerivedLinks(Shas(Members(rows)))
  {
    assert Members(rows + [row]) == Members(rows) + {row} by {
      assert forall k :: 0 <= k < |rows| ==> (rows + [row])[k] == rows[k];
      assert (rows + [row])[|rows|] == row;
    }
    assert Shas(Members(rows) + {row}) == Shas(Members(rows)) + {row.sha};
  }

  lemma NoLinks(db: Snapshots, self: Commit)
    ensures ExactLinks(db, self, []) == map[] && DerivedLinks(Shas(Members([]))) == map[]
  {
    assert Members([]) == {};
    assert Shas({}) == {};
  }

  lemma PlanIs(db: Snapshots, self: Commit, earlier: seq<Commit>)
    requires Keyed(db) && IsRows(earlier, Candidates(db, self), CHERRY_CANDIDATE_LIMIT)
    ensures self.trailers == [] ==> Plan(db, self) == DerivedLinks(Shas(Members(earlier)))
    ensures self.trailers == [] && self.patch.None? ==> Plan(db, self) == map[]
  {
    RowsAreRanked(earlier, Candidates(db, self), CHERRY_CANDIDATE_LIMIT);
    if self.patch.None? {
      assert Candidates(db, self) == {};
      assert Shas(Ranked({}, CHERRY_CANDIDATE_LIMIT)) == {};
    }
  }

  /** One document for each link. */
  ghost predicate Describes(docs: seq<Doc>, links: map<nat, Link>) {
    AsMap(docs) == links && |docs| == |links.Keys|
  }

  method TrailerDocs(db: Snapshots, self: Commit) returns (docs: seq<Doc>)
    ensures Describes(docs, ExactLinks(db, self, self.trailers))
  {
    hide AsMap, ExactLinks;
    docs := [];
    var seen: set<nat> := {};
    NoLinks(db, self);
    NoDocs();
    for i := 0 to |self.trailers|
      invariant seen == AsMap(docs).Keys && |docs| == |seen|
      invariant AsMap(docs) == ExactLinks(db, self, self.trailers[..i])
    {
      var t := self.trailers[i];
      assert self.trailers[..i + 1] == self.trailers[..i] + [t];
      ExactSnoc(db, self, self.trailers[..i], t);
      if t != self.sha && t !in seen {
        seen := seen + {t};
        AsMapSnoc(docs, Doc(t, Exact(t in db)));
        docs := docs + [Doc(t, Exact(t in db))];
      }
    }
    assert self.trailers[..|self.trailers|] == self.trailers;
  }

  method CandidateDocs(self: Commit, earlier: seq<Commit>) returns (docs: seq<Doc>)
    requires forall i :: 0 <= i < |earlier| ==> earlier[i].sha != self.sha
    ensures Describes(docs, DerivedLinks(Shas(Members(earlier))))
  {
    hide AsMap, DerivedLinks, Shas, Members;
    docs := [];
    var seen: set<nat> := {};
    NoLinks(map[], self);
    NoDocs();
    for i := 0 to |earlier|
      invariant seen == AsMap(docs).Keys && |docs| == |seen|
      invariant AsMap(docs) == DerivedLinks(Shas(Members(earlier[..i])))
    {
      var sha := earlier[i].sha;
      assert earlier[..i + 1] == earlier[..i] + [earlier[i]];
      DerivedSnoc(earlier[..i], earlier[i]);
      if sha != self.sha && sha !in seen {
        seen := seen + {sha};
        AsMapSnoc(docs, Doc(sha, Derived));
        docs := docs + [Doc(sha, Derived)];
      }
    }
    assert earlier[..|earlier|] == earlier;
  }

  /** Plans one commit; `earlier` is what the candidate query returned. */
  method PlanCherryPicks(db: Snapshots, self: Commit, earlier: seq<Commit>) returns (docs: seq<Doc>)
    requires Keyed(db)
    requires IsRows(earlier, Candidates(db, self), CHERRY_CANDIDATE_LIMIT)
    ensures Describes(docs, Plan(db, self))
  {
    hide AsMap, Shas, Members, Describes, ExactLinks, DerivedLinks;
    docs := TrailerDocs(db, self);
    PlanIs(db, self, earlier);
    if |self.trailers| == 0 {
      NoLinks(db, self);
      docs := [];
      assert Describes([], map[]) by { NoneDescribed(); }
      if self.patch.Some? {
        docs := CandidateDocs(self, earlier);
      }
    }
  }

  lemma NoneDescribed()
    ensures Describes([], map[])
  {}

  lemma NoDocs()
    ensures AsMap([]) == map[]
  {}

  // ----- Writing the links of one source -----

  type Links = map<nat, map<nat, Link>>

  function LinksOf(links: Links, source: nat): map<nat, Link> {
    if source in links then links[source] else map[]
  }

  lemma Overlaid(before: map<nat, Link>, plan: map<nat, Link>, doc: Doc)
    ensures before + plan[doc.to := doc.link] == (before + plan)[doc.to := doc.link]
    ensures plan[doc.to := doc.link].Keys == plan.Keys + {doc.to}
  {}

  function Only(stored: map<nat, Link>, keep: set<nat>): map<nat, Link> {
    map t | t in stored && t in keep :: stored[t]
  }

  lemma OnlyPlanned(before: map<nat, Link>, plan: map<nat, Link>)
    ensures Only(before + plan, plan.Keys) == plan
  {}

  class LinkIndex {
    var links: Links

    /** Upserts every planned link, then deletes what this derivation did not make. */
    method Write(source: nat, docs: seq<Doc>)
      modifies this
      ensures links == old(links)[source := AsMap(docs)]
    {
      hide AsMap, Only;
      NoDocs();
      var stored := LinksOf(links, source);
      ghost var before := stored;
      assert before + map[] == before && docs[..0] == [];
      var keep: set<nat> := {};
      for i := 0 to |docs|
        invariant keep == AsMap(docs[..i]).Keys
        invariant stored == before + AsMap(docs[..i]) && links == old(links)
      {
        assert docs[..i + 1] == docs[..i] + [docs[i]];
        AsMapSnoc(docs[..i], docs[i]);
        Overlaid(before, AsMap(docs[..i]), docs[i]);
        stored := stored[docs[i].to := docs[i].link];
        keep := keep + {docs[i].to};
      }
      assert docs[..|docs|] == docs;
      OnlyPlanned(before, AsMap(docs));
      stored := Only(stored, keep);
      links := links[source := stored];
    }
  }

  // ----- Who else is affected by a commit -----

  /** A stored commit changes what another commit plans: its hash is mentioned there, or it is an earlier copy. */
  predicate Affects(db: Snapshots, n: nat, c: nat) {
    n in db && c in db && c != n &&
    (n in db[c].mentions || (db[n].patch.Some? && db[c].patch == db[n].patch && IsLater(db[c], db[n])))
  }

  function Affected(db: Snapshots, n: nat): set<nat> {
    set c | c in db && Affects(db, n, c)
  }

  /** The other commits with the patch of this one, on either side of it. */
  function SamePatch(db: Snapshots, n: nat): set<Commit>
    requires n in db
  {
    set s | s in db && s != n && db[n].patch.Some? && db[s].patch == db[n].patch :: db[s]
  }

  /** The copies are queried in both directions, newest first and up to the limit; this one comes after that many others. */
  predicate CutOff(db: Snapshots, n: nat, c: nat)
    requires n in db && c in db
  {
    n !in db[c].mentions && |Ahead(SamePatch(db, n), db[c])| >= AFFECTED_LIMIT
  }

  /** What the query for messages with this hash may return. */
  ghost predicate IsReverting(rows: seq<Commit>, db: Snapshots, n: nat) {
    && |rows| <= AFFECTED_LIMIT
    && (forall i :: 0 <= i < |rows| ==> rows[i].sha != n && rows[i].sha in db && db[rows[i].sha] == rows[i])
    && (forall i, j :: 0 <= i < j < |rows| ==> rows[i].sha != rows[j].sha)
    && (|rows| < AFFECTED_LIMIT ==> forall c :: c in db && c != n && n in db[c].mentions ==> db[c] in rows)
  }

  lemma ListedUnlessCut(db: Snapshots, n: nat, rows: seq<Commit>, c: nat)
    requires Keyed(db) && n in db && IsRows(rows, SamePatch(db, n), AFFECTED_LIMIT)
    requires Affects(db, n, c) && n !in db[c].mentions
    ensures db[c] in rows <==> !CutOff(db, n, c)
  {
    RowsAreRanked(rows, SamePatch(db, n), AFFECTED_LIMIT);
    assert db[c] in SamePatch(db, n);
    if db[c] in rows {
      var i :| 0 <= i < |rows| && rows[i] == db[c];
      assert db[c] in Members(rows);
    }
  }

  /**
   The sources to derive again, up to a limit: from the messages with this hash, the commits with this patch, and
   those found by title. Below the limit only a copy that its own query cut off is missing.
   */
  method AffectedTargets(db: Snapshots, n: nat, reverting: seq<Commit>, samePatch: seq<Commit>, byTitle: seq<nat>)
    returns (targets: seq<nat>)
    requires Keyed(db) && n in db
    requires IsReverting(reverting, db, n) && IsRows(samePatch, SamePatch(db, n), AFFECTED_LIMIT)
    ensures |targets| <= AFFECTED_LIMIT && n !in targets
    ensures forall i, j :: 0 <= i < j < |targets| ==> targets[i] != targets[j]
    ensures |targets| < AFFECTED_LIMIT ==> forall c :: Affects(db, n, c) ==> c in targets || CutOff(db, n, c)
  {
    hide CutOff;
    targets := [];
    for i := 0 to |reverting|
      invariant |targets| == i && n !in targets
      invariant forall k :: 0 <= k < i ==> targets[k] == reverting[k].sha
    {
      targets := Add(n, targets, reverting[i].sha);
    }
    if db[n].patch.Some? {
      ghost var first := targets;
      for i := 0 to |samePatch|
        invariant |targets| <= AFFECTED_LIMIT && n !in targets && first <= targets
        invariant forall i, j :: 0 <= i < j < |targets| ==> targets[i] != targets[j]
        invariant |targets| < AFFECTED_LIMIT ==>
                    forall c :: c in samePatch[..i] && c.sha != n && IsLater(c, db[n]) ==> c.sha in targets
      {
        if IsLater(samePatch[i], db[n]) {
          targets := Add(n, targets, samePatch[i].sha);
        }
      }
      assert samePatch[..|samePatch|] == samePatch;
    }
    ghost var found := targets;
    for i := 0 to |byTitle|
      invariant |targets| <= AFFECTED_LIMIT && n !in targets && found <= targets
      invariant forall i, j :: 0 <= i < j < |targets| ==> targets[i] != targets[j]
    {
      targets := Add(n, targets, byTitle[i]);
    }
    if |targets| < AFFECTED_LIMIT {
      forall c | Affects(db, n, c)
        ensures c in targets || CutOff(db, n, c)
      {
        if n in db[c].mentions {
          assert db[c] in reverting;
        } else {
          ListedUnlessCut(db, n, samePatch, c);
        }
      }
    }
  }

  method Add(self: nat, targets: seq<nat>, candidate: nat) returns (more: seq<nat>)
    requires |targets| <= AFFECTED_LIMIT && self !in targets
    requires forall i, j :: 0 <= i < j < |targets| ==> targets[i] != targets[j]
    ensures |more| <= AFFECTED_LIMIT && self !in more && targets <= more
    ensures forall i, j :: 0 <= i < j < |more| ==> more[i] != more[j]
    ensures |more| < AFFECTED_LIMIT && candidate != self ==> candidate in more
    ensures candidate != self && candidate !in targets && |targets| < AFFECTED_LIMIT ==> more == targets + [candidate]
  {
    if candidate == self || candidate in targets || |targets| >= AFFECTED_LIMIT { return targets; }
    more := targets + [candidate];
  }

  /** With fewer than the limit of later copies listed, only a copy of the very same time is cut off, by others of that time. */
  lemma CutOffTies(db: Snapshots, n: nat, rows: seq<Commit>, c: nat) returns (i: nat)
    requires Keyed(db) && n in db && IsRows(rows, SamePatch(db, n), AFFECTED_LIMIT)
    requires Affects(db, n, c) && CutOff(db, n, c)
    requires exists k :: 0 <= k < |rows| && !IsLater(rows[k], db[n])
    ensures i < |rows| && rows[i].sha < n && rows[i].committedAt == db[n].committedAt == db[c].committedAt
  {
    ListedUnlessCut(db, n, rows, c);
    assert db[c] in SamePatch(db, n);
    i :| 0 <= i < |rows| && !IsLater(rows[i], db[n]);
    assert Precedes(rows[i], db[c]);
    assert rows[i] in SamePatch(db, n);
  }

  lemma WithoutOne(db: Snapshots, n: nat, c: nat)
    requires Keyed(db) && n in db && c in db
    ensures Candidates(db - {n}, db[c]) == Candidates(db, db[c]) - {db[n]}
  {
    forall s | s in db && s != n
      ensures db[s] in Candidates(db, db[c]) ==> db[s] in Candidates(db - {n}, db[c])
    {
      assert s in db - {n} && (db - {n})[s] == db[s];
    }
  }

  /** A copy that was not derived again shows the wrong links exactly if the new one is among its own newest five. */
  lemma MissedMattersIff(db: Snapshots, n: nat, c: nat)
    requires Keyed(db) && Affects(db, n, c) && n !in db[c].mentions && db[c].trailers == []
    ensures Plan(db, db[c]) != Plan(db - {n}, db[c]) <==> |Ahead(Candidates(db, db[c]), db[n])| < CHERRY_CANDIDATE_LIMIT
  {
    var pool, before := Candidates(db, db[c]), Candidates(db - {n}, db[c]);
    assert db[n] in pool;
    WithoutOne(db, n, c);
    if |Ahead(pool, db[n])| < CHERRY_CANDIDATE_LIMIT {
      assert db[n] in Ranked(pool, CHERRY_CANDIDATE_LIMIT);
      assert n in Shas(Ranked(pool, CHERRY_CANDIDATE_LIMIT)) && n in Plan(db, db[c]);
      assert n !in Shas(Ranked(before, CHERRY_CANDIDATE_LIMIT));
      assert n !in Plan(db - {n}, db[c]);
    } else {
      RankedWithout(pool, db[n], CHERRY_CANDIDATE_LIMIT);
    }
  }

  /** Whoever is past the limit can go without changing who is within it. */
  lemma RankedWithout(pool: set<Commit>, d: Commit, limit: nat)
    requires d in pool && |Ahead(pool, d)| >= limit
    ensures Ranked(pool - {d}, limit) == Ranked(pool, limit)
  {
    forall s | s in pool && s != d
      ensures s in Ranked(pool - {d}, limit) <==> s in Ranked(pool, limit)
    {
      if Precedes(d, s) {
        SubsetSize(Ahead(pool, d), Ahead(pool - {d}, s));
        SubsetSize(Ahead(pool - {d}, s), Ahead(pool, s));
      } else {
        assert Ahead(pool - {d}, s) == Ahead(pool, s);
      }
    }
  }

  /** Two hundred and two copies of one time. */
  const TIED: Snapshots := map s: nat | s <= 201 :: Commit(s, 0, Some(0), [], {})

  /** What the query for the copies of the second one returns. */
  const TIED_ROWS := seq(AFFECTED_LIMIT, i requires 0 <= i < AFFECTED_LIMIT => if i == 0 then TIED[0] else TIED[i + 1])

  lemma TiedRows()
    ensures Keyed(TIED) && IsRows(TIED_ROWS, SamePatch(TIED, 1), AFFECTED_LIMIT) && TIED[201] !in TIED_ROWS
  {
    forall s | s in TIED && s != 1 && s != 201
      ensures TIED[s] in TIED_ROWS
    {
      assert TIED_ROWS[if s == 0 then 0 else s - 1] == TIED[s];
    }
    assert forall c :: c in SamePatch(TIED, 1) && c !in TIED_ROWS ==> c == TIED[201];
  }

  /**
   The second one arrives last: one row of its query is an earlier copy, so 199 sources are derived again, below
   the limit of which a warning would tell. The last copy is not among them, and its links change.
   */
  lemma SilentlyCut()
    ensures IsRows(TIED_ROWS, SamePatch(TIED, 1), AFFECTED_LIMIT)
    ensures !IsLater(TIED_ROWS[0], TIED[1]) && forall i :: 0 < i < AFFECTED_LIMIT ==> IsLater(TIED_ROWS[i], TIED[1])
    ensures Affects(TIED, 1, 201) && CutOff(TIED, 1, 201) && Plan(TIED, TIED[201]) != Plan(TIED - {1}, TIED[201])
  {
    hide IsRows, SamePatch, CutOff, Plan;
    TiedRows();
    ListedUnlessCut(TIED, 1, TIED_ROWS, 201);
    assert Ahead(Candidates(TIED, TIED[201]), TIED[1]) <= {TIED[0]};
    SubsetSize(Ahead(Candidates(TIED, TIED[201]), TIED[1]), {TIED[0]});
    MissedMattersIff(TIED, 1, 201);
  }

  // ----- Arrivals, and one link consumer -----

  /** `todo` are the sources still to derive; `plan` has been read for one of them and not yet written. */
  datatype Consumer =
    | Idle
    | Working(n: nat, todo: set<nat>, listed: bool, plan: Option<(nat, map<nat, Link>)>)

  datatype World = World(db: Snapshots, links: Links, pending: set<nat>, consumer: Consumer)

  datatype Event =
    | Store(row: Commit)        // a snapshot arrives, or gains its patch id; its event is queued
    | Begin(n: nat)             // the consumer takes an event
    | PlanOne(c: nat)
    | WriteOne
    | List(targets: set<nat>)   // the affected sources are read
    | Finish
    | Redeliver                 // the consumer fails and the event comes back

  predicate MayReplace(old_: Commit, new_: Commit) {
    new_.sha == old_.sha && new_.committedAt == old_.committedAt && new_.trailers == old_.trailers && new_.mentions == old_.mentions &&
    (old_.patch.Some? && new_.patch.Some? ==> new_.patch == old_.patch)
  }

  /** A known patch id is never lost. */
  function Kept(db: Snapshots, row: Commit): Commit {
    if row.sha in db && row.patch.None? then row.(patch := db[row.sha].patch) else row
  }

  predicate Enabled(w: World, e: Event) {
    match e
    case Store(row) => (row.sha in w.db ==> MayReplace(w.db[row.sha], row)) && forall t :: t in row.trailers ==> t in row.mentions
    case Begin(n) => w.consumer.Idle? && n in w.pending
    case PlanOne(c) => w.consumer.Working? && c in w.consumer.todo && w.consumer.plan.None?
    case WriteOne => w.consumer.Working? && w.consumer.plan.Some?
    case List(targets) =>
      && w.consumer.Working? && !w.consumer.listed && w.consumer.todo == {} && w.consumer.n in w.db
      && (|targets| < AFFECTED_LIMIT ==> forall c :: c in Affected(w.db, w.consumer.n) ==> c in targets || CutOff(w.db, w.consumer.n, c))
    case Finish => w.consumer.Working? && w.consumer.listed && w.consumer.todo == {}
    case Redeliver => w.consumer.Working?
  }

  function Apply(w: World, e: Event): World
    requires Enabled(w, e)
  {
    match e
    case Store(row) => w.(db := w.db[row.sha := Kept(w.db, row)], pending := w.pending + {row.sha})
    case Begin(n) => w.(pending := w.pending - {n}, consumer := Working(n, {n}, false, None))
    case PlanOne(c) =>
      w.(consumer := if c in w.db then w.consumer.(plan := Some((c, Plan(w.db, w.db[c])))) else w.consumer.(todo := w.consumer.todo - {c}))
    case WriteOne =>
      var (c, plan) := w.consumer.plan.value;
      w.(links := w.links[c := plan], consumer := w.consumer.(todo := w.consumer.todo - {c}, plan := None))
    case List(targets) => w.(consumer := w.consumer.(todo := targets, listed := true))
    case Finish => w.(consumer := Idle)
    case Redeliver => w.(pending := w.pending + {w.consumer.n}, consumer := Idle)
  }

  // ----- The index follows the snapshots -----

  ghost predicate DbInv(db: Snapshots) {
    Keyed(db) && forall c :: c in db ==> forall t :: t in db[c].trailers ==> t in db[c].mentions
  }

  predicate Touches(db: Snapshots, n: nat, c: nat) {
    n == c || Affects(db, n, c)
  }

  predicate Agrees(w: World, c: nat) {
    c in w.db && LinksOf(w.links, c) == Plan(w.db, w.db[c])
  }

  ghost predicate Pending(w: World, c: nat) {
    exists n :: n in w.pending && Touches(w.db, n, c)
  }

  /** The consumer will still derive this source for the event it holds. */
  predicate InHand(w: World, c: nat) {
    w.consumer.Working? && Touches(w.db, w.consumer.n, c) && (c in w.consumer.todo || (!w.consumer.listed && c != w.consumer.n))
  }

  ghost predicate Inv(w: World) {
    && DbInv(w.db)
    && w.links.Keys <= w.db.Keys
    && (forall c :: c in w.db ==> Agrees(w, c) || Pending(w, c) || InHand(w, c))
    && (w.consumer.Working? && w.consumer.plan.Some? ==>
          var (c, plan) := w.consumer.plan.value;
          c in w.db && c in w.consumer.todo && (plan == Plan(w.db, w.db[c]) || Pending(w, c)))
  }

  /** A new or completed snapshot changes only the plans it touches. */
  lemma StorePlans(db: Snapshots, row: Commit, c: nat)
    requires DbInv(db) && c in db && c != row.sha
    requires row.sha in db ==> MayReplace(db[row.sha], row)
    ensures
      var db' := db[row.sha := Kept(db, row)];
      Affects(db', row.sha, c) || Plan(db', db'[c]) == Plan(db, db[c])
  {
    var db' := db[row.sha := Kept(db, row)];
    if !Affects(db', row.sha, c) {
      if db[c].trailers != [] {
        assert ExactLinks(db', db[c], db[c].trailers) == ExactLinks(db, db[c], db[c].trailers);
      } else {
        forall s | s in db'
          ensures db'[s] in Candidates(db', db[c]) ==> s in db && db[s] == db'[s] && db[s] in Candidates(db, db[c])
          ensures s in db && db[s] in Candidates(db, db[c]) ==> db[s] == db'[s] && db'[s] in Candidates(db', db[c])
        {}
        assert Candidates(db', db[c]) == Candidates(db, db[c]);
      }
    }
  }

  lemma StoreTouches(db: Snapshots, row: Commit, n: nat, c: nat)
    requires Touches(db, n, c) && DbInv(db)
    requires row.sha in db ==> MayReplace(db[row.sha], row)
    ensures c == row.sha || Touches(db[row.sha := Kept(db, row)], n, c)
  {}

  lemma StorePending(w: World, row: Commit, c: nat)
    requires DbInv(w.db) && Enabled(w, Store(row)) && (Pending(w, c) || c == row.sha || Affects(Apply(w, Store(row)).db, row.sha, c))
    ensures Pending(Apply(w, Store(row)), c)
  {
    hide Affects, Kept, MayReplace;
    var w' := Apply(w, Store(row));
    assert row.sha in w'.pending;
    if c != row.sha && !Affects(w'.db, row.sha, c) {
      var n :| n in w.pending && Touches(w.db, n, c);
      StoreTouches(w.db, row, n, c);
      assert n in w'.pending && Touches(w'.db, n, c);
    } else {
      assert Touches(w'.db, row.sha, c);
    }
  }

  lemma StoreStep(w: World, row: Commit)
    requires Inv(w) && Enabled(w, Store(row))
    ensures Inv(Apply(w, Store(row)))
  {
    hide Affects, Plan, Pending, Kept, MayReplace;
    var w' := Apply(w, Store(row));
    StoreDb(w.db, row);
    forall c | c in w'.db
      ensures Agrees(w', c) || Pending(w', c) || InHand(w', c)
    {
      if c == row.sha || Pending(w, c) || Affects(w'.db, row.sha, c) {
        StorePending(w, row, c);
      } else {
        StorePlans(w.db, row, c);
        if InHand(w, c) { StoreTouches(w.db, row, w.consumer.n, c); }
      }
    }
    if w.consumer.Working? && w.consumer.plan.Some? {
      var c := w.consumer.plan.value.0;
      if c == row.sha || Pending(w, c) || Affects(w'.db, row.sha, c) {
        StorePending(w, row, c);
      } else {
        StorePlans(w.db, row, c);
      }
    }
  }

  lemma StoreDb(db: Snapshots, row: Commit)
    requires DbInv(db) && forall t :: t in row.trailers ==> t in row.mentions
    ensures DbInv(db[row.sha := Kept(db, row)])
  {}

  lemma PendingKept(w: World, w': World, c: nat)
    requires w'.db == w.db && Pending(w, c) && w.pending <= w'.pending
    ensures Pending(w', c)
  {
    hide Touches;
    var n :| n in w.pending && Touches(w.db, n, c);
    assert n in w'.pending && Touches(w'.db, n, c);
  }

  lemma PendingTaken(w: World, n: nat, c: nat)
    requires Enabled(w, Begin(n)) && Pending(w, c)
    ensures Pending(Apply(w, Begin(n)), c) || InHand(Apply(w, Begin(n)), c)
  {
    hide Affects;
    var m :| m in w.pending && Touches(w.db, m, c);
    if m != n {
      assert m in Apply(w, Begin(n)).pending && Touches(w.db, m, c);
    }
  }

  /** The affected sources are below the limit, and no copy among them is cut off by its query. */
  predicate WithinLimit(w: World, e: Event) {
    e.List? && w.consumer.Working? && w.consumer.n in w.db ==>
      |e.targets| < AFFECTED_LIMIT && forall c :: c in Affected(w.db, w.consumer.n) ==> !CutOff(w.db, w.consumer.n, c)
  }

  lemma ConsumerStep(w: World, e: Event)
    requires Inv(w) && Enabled(w, e) && !e.Store? && WithinLimit(w, e)
    ensures Inv(Apply(w, e))
  {
    hide Affects, Plan, DbInv;
    var w' := Apply(w, e);
    forall c | c in w'.db
      ensures Agrees(w', c) || Pending(w', c) || InHand(w', c)
    {
      if Pending(w, c) {
        if e.Begin? { PendingTaken(w, e.n, c); } else { PendingKept(w, w', c); }
      } else if e.Redeliver? && InHand(w, c) {
        assert w.consumer.n in w'.pending && Touches(w'.db, w.consumer.n, c);
      } else if e.List? && InHand(w, c) {
        assert c in Affected(w.db, w.consumer.n);
      }
    }
  }

  ghost predicate RunOk(w: World, events: seq<Event>)
    decreases |events|
  {
    events != [] ==> Enabled(w, events[0]) && WithinLimit(w, events[0]) && RunOk(Apply(w, events[0]), events[1..])
  }

  function After(w: World, events: seq<Event>): World
    requires RunOk(w, events)
    decreases |events|
  {
    if events == [] then w else After(Apply(w, events[0]), events[1..])
  }

  lemma {:induction false} RunKeepsInv(w: World, events: seq<Event>)
    requires Inv(w) && RunOk(w, events)
    ensures Inv(After(w, events))
    decreases |events|
  {
    hide Inv, Enabled, Apply;
    if events != [] {
      if events[0].Store? { StoreStep(w, events[0].row); } else { ConsumerStep(w, events[0]); }
      RunKeepsInv(Apply(w, events[0]), events[1..]);
    }
  }

  /** The links a rebuild would make from nothing. */
  function Rebuilt(db: Snapshots): Links {
    map c | c in db :: Plan(db, db[c])
  }

  /**
   In whatever order commits arrive and their events are taken, with snapshots arriving in the middle of a
   derivation and consumers failing: once no event waits, the index is what a rebuild would make.
   */
  lemma QuietIndexIsRebuild(events: seq<Event>)
    requires RunOk(World(map[], map[], {}, Idle), events)
    ensures
      var w := After(World(map[], map[], {}, Idle), events);
      w.pending == {} && w.consumer.Idle? ==>
        w.links.Keys <= w.db.Keys && forall c :: c in w.db ==> LinksOf(w.links, c) == Rebuilt(w.db)[c]
  {
    hide Plan;
    RunKeepsInv(World(map[], map[], {}, Idle), events);
  }

  // ----- Direction -----

  lemma LaterIsOrder(a: Commit, b: Commit, c: Commit)
    ensures !IsLater(a, a)
    ensures IsLater(a, b) && IsLater(b, c) ==> IsLater(a, c)
    ensures a.sha != b.sha ==> (IsLater(a, b) <==> !IsLater(b, a))
  {}

  ghost predicate DerivedStep(db: Snapshots, from: nat, to: nat) {
    from in db && to in Plan(db, db[from]) && Plan(db, db[from])[to] == Derived
  }

  lemma DerivedDescends(db: Snapshots, from: nat, to: nat)
    requires Keyed(db) && DerivedStep(db, from, to)
    ensures from in db && to in db && IsLater(db[from], db[to])
  {}

  ghost predicate DerivedPath(db: Snapshots, path: seq<nat>) {
    forall i :: 0 <= i < |path| - 1 ==> DerivedStep(db, path[i], path[i + 1])
  }

  /** Following derived links never comes back: in particular no two commits point at each other. */
  lemma {:induction false} DerivedLinksAcyclic(db: Snapshots, path: seq<nat>)
    requires Keyed(db) && |path| >= 2 && DerivedPath(db, path)
    ensures path[0] in db && path[|path| - 1] in db && IsLater(db[path[0]], db[path[|path| - 1]])
    ensures path[0] != path[|path| - 1]
    decreases |path|
  {
    hide DerivedStep, IsLater;
    assert DerivedStep(db, path[0], path[1]);
    DerivedDescends(db, path[0], path[1]);
    if |path| > 2 {
      assert DerivedPath(db, path[1..]) by {
        forall i | 0 <= i < |path[1..]| - 1
          ensures DerivedStep(db, path[1..][i], path[1..][i + 1])
        {
          assert DerivedStep(db, path[i + 1], path[i + 2]);
        }
      }
      DerivedLinksAcyclic(db, path[1..]);
    }
    var last := db[path[|path| - 1]];
    LaterIsOrder(db[path[0]], db[path[1]], last);
  }
}
