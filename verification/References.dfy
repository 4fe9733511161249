/**
 Reference links: what a text mentions, resolved against the documents indexed so far.

 A reference names a pull request, a full commit hash or an abbreviated one, in the source's own repository or
 in another by its slug; a link is identified by its source and that name, never by its target. Documents are
 only ever added, one link consumer takes one event at a time, and writes succeed.

 Main results: `QuietLinksAreReplanned`, `PrefixResolvesIffUnique`, `SecondMatchUnresolves`.
 */
module References {
  import opened Wrappers

  const ABBREV_SHA_MIN := 7
  const ABBREV_SHA_MAX := 12
  const FULL_SHA_LENGTH := 40

  type Sha = s: string | |s| == FULL_SHA_LENGTH witness "0000000000000000000000000000000000000000"
  type Prefix = p: string | 7 <= |p| <= 12 witness "0000000"

  datatype Entity = Pull(repo: nat, number: nat) | Commit(repo: nat, sha: Sha)

  /** The part of a name that says what is meant, without the repository. */
  datatype Locator = PullNumber(number: nat) | FullSha(sha: Sha) | ShaPrefix(prefix: Prefix)
  datatype Key = Key(slug: Option<nat>, locator: Locator)

  /** Registered repositories by slug. */
  type Slugs = map<nat, nat>

  predicate IsPrefix(p: string, s: string) {
    |p| <= |s| && s[..|p|] == p
  }

  function TargetRepo(slugs: Slugs, source: Entity, key: Key): Option<nat> {
    match key.slug
    case None => Some(source.repo)
    case Some(slug) => if slug in slugs then Some(slugs[slug]) else None
  }

  /** The indexed commits of a repository that an abbreviated hash may mean. */
  function PrefixHits(indexed: set<Entity>, repo: nat, prefix: Prefix): set<Entity> {
    set e | e in indexed && e.Commit? && e.repo == repo && IsPrefix(prefix, e.sha)
  }

  ghost function TheOne(hits: set<Entity>): Option<Entity> {
    if |hits| == 1 then var e :| e in hits; Some(e) else None
  }

  ghost function Resolve(slugs: Slugs, indexed: set<Entity>, source: Entity, key: Key): Option<Entity> {
    match TargetRepo(slugs, source, key)
    case None => None
    case Some(repo) =>
      match key.locator
      case PullNumber(n) => if Pull(repo, n) in indexed then Some(Pull(repo, n)) else None
      case FullSha(sha) => if Commit(repo, sha) in indexed then Some(Commit(repo, sha)) else None
      case ShaPrefix(prefix) => TheOne(PrefixHits(indexed, repo, prefix))
  }

  /** The names under which a target may have been mentioned. */
  function NamesOf(target: Entity): set<Locator> {
    match target
    case Pull(_, n) => {PullNumber(n)}
    case Commit(_, sha) => {FullSha(sha)} + set length | ABBREV_SHA_MIN <= length <= ABBREV_SHA_MAX :: ShaPrefix(sha[..length])
  }

  /** Found by the reverse lookup: the own-repository form from the same repository, the slug form from anywhere. */
  predicate Names(slugs: Slugs, target: Entity, source: Entity, key: Key) {
    key.locator in NamesOf(target) && TargetRepo(slugs, source, key) == Some(target.repo)
  }

  lemma NamesPrefix(target: Entity, prefix: Prefix)
    ensures ShaPrefix(prefix) in NamesOf(target) <==> target.Commit? && IsPrefix(prefix, target.sha)
  {
    if target.Commit? && IsPrefix(prefix, target.sha) {
      assert target.sha[..|prefix|] == prefix;
    }
  }

  lemma OneHit(hits: set<Entity>, e: Entity)
    ensures TheOne(hits) == Some(e) <==> hits == {e}
  {
    if |hits| == 1 {
      var x :| x in hits;
      SingletonIs(hits, x);
    }
  }

  lemma SingletonIs<T>(s: set<T>, x: T)
    requires |s| == 1 && x in s
    ensures s == {x}
  {
    assert |s - {x}| == 0;
  }

  /** A new document changes only the resolution of names for it. */
  lemma NewTargetResolves(slugs: Slugs, indexed: set<Entity>, target: Entity, source: Entity, key: Key)
    requires !Names(slugs, target, source, key)
    ensures Resolve(slugs, indexed + {target}, source, key) == Resolve(slugs, indexed, source, key)
  {
    var repo := TargetRepo(slugs, source, key);
    if repo.Some? && key.locator.ShaPrefix? {
      NamesPrefix(target, key.locator.prefix);
      assert PrefixHits(indexed + {target}, repo.value, key.locator.prefix) == PrefixHits(indexed, repo.value, key.locator.prefix);
    }
  }

  lemma PrefixResolvesIffUnique(slugs: Slugs, indexed: set<Entity>, source: Entity, key: Key, e: Entity)
    requires key.locator.ShaPrefix? && TargetRepo(slugs, source, key).Some?
    ensures Resolve(slugs, indexed, source, key) == Some(e) <==>
            PrefixHits(indexed, TargetRepo(slugs, source, key).value, key.locator.prefix) == {e}
  {
    OneHit(PrefixHits(indexed, TargetRepo(slugs, source, key).value, key.locator.prefix), e);
  }

  lemma SecondMatchUnresolves(slugs: Slugs, indexed: set<Entity>, source: Entity, key: Key, first: Entity, second: Entity)
    requires key.locator.ShaPrefix? && Resolve(slugs, indexed, source, key) == Some(first)
    requires second != first && Names(slugs, second, source, key)
    ensures Resolve(slugs, indexed + {second}, source, key) == None
  {
    var repo, prefix := TargetRepo(slugs, source, key).value, key.locator.prefix;
    OneHit(PrefixHits(indexed, repo, prefix), first);
    NamesPrefix(second, prefix);
    var hits := PrefixHits(indexed + {second}, repo, prefix);
    assert first in hits && second in hits;
    if |hits| == 1 { SingletonIs(hits, first); }
  }

  // ----- One reverse lookup -----

  type Planned = map<Key, Option<Entity>>
  type Links = map<Entity, Planned>

  ghost function PlanLinks(slugs: Slugs, indexed: set<Entity>, source: Entity, keys: set<Key>): Planned {
    map k | k in keys :: Resolve(slugs, indexed, source, k)
  }

  datatype Candidate = Candidate(source: Entity, key: Key, resolved: bool)
  datatype Update = Update(source: Entity, key: Key, resolution: Option<Entity>)

  /** What becomes of one link that names the target; `unique` is the answer of the prefix lookup. */
  function NextFor(target: Entity, targetIndexed: bool, unique: map<Prefix, Entity>, link: Candidate): Option<Update> {
    match link.key.locator
    case ShaPrefix(p) =>
      var next := if p in unique then Some(unique[p]) else None;
      if next.None? && !link.resolved then None else Some(Update(link.source, link.key, next))
    case _ =>
      if link.resolved || !targetIndexed then None else Some(Update(link.source, link.key, Some(target)))
  }

  function Updates(target: Entity, targetIndexed: bool, unique: map<Prefix, Entity>, links: seq<Candidate>): seq<Update> {
    if links == [] then []
    else
      var last := NextFor(target, targetIndexed, unique, links[|links| - 1]);
      Updates(target, targetIndexed, unique, links[..|links| - 1]) + if last.Some? then [last.value] else []
  }

  /** The document is asked for once, and only if some exact name still waits for it. */
  method PlanUpdates(target: Entity, indexed: set<Entity>, unique: map<Prefix, Entity>, links: seq<Candidate>)
    returns (updates: seq<Update>)
    ensures updates == Updates(target, target in indexed, unique, links)
  {
    var needsDirect := false;
    for i := 0 to |links|
      invariant needsDirect <==> exists j :: 0 <= j < i && !links[j].key.locator.ShaPrefix? && !links[j].resolved
    {
      if !links[i].key.locator.ShaPrefix? && !links[i].resolved { needsDirect := true; }
    }
    var targetIndexed := if needsDirect then target in indexed else false;
    updates := [];
    for i := 0 to |links|
      invariant updates == Updates(target, target in indexed, unique, links[..i])
    {
      var link := links[i];
      assert links[..i + 1][..i] == links[..i] && links[..i + 1][i] == link;
      if link.key.locator.ShaPrefix? {
        var next := if link.key.locator.prefix in unique then Some(unique[link.key.locator.prefix]) else None;
        if !(next.None? && !link.resolved) {
          updates := updates + [Update(link.source, link.key, next)];
        }
      } else if !link.resolved && targetIndexed {
        updates := updates + [Update(link.source, link.key, Some(target))];
      }
    }
    assert links[..|links|] == links;
  }

  // ----- Arrivals, and one link consumer -----

  /** Deriving the own links, or updating the links that name the entity. */
  datatype Stage = Own(plan: Option<Planned>) | Reverse(updates: Option<seq<Update>>)
  datatype Consumer = Idle | Working(target: Entity, stage: Stage)

  datatype World = World(
    slugs: Slugs, texts: map<Entity, set<Key>>, indexed: set<Entity>, links: Links, pending: set<Entity>, consumer: Consumer)

  datatype Event =
    | Register(slug: nat, repo: nat)
    | Store(e: Entity, keys: set<Key>, hasDocument: bool)   // a text arrives or changes; its event is queued
    | Begin(e: Entity)
    | PlanOwn
    | WriteOwn
    | Lookup(found: seq<Candidate>, unique: map<Prefix, Entity>)
    | WriteUpdate
    | Finish
    | Redeliver

  predicate Stored(w: World, s: Entity, k: Key) {
    s in w.links && k in w.links[s]
  }

  ghost predicate IsLookup(w: World, target: Entity, found: seq<Candidate>, unique: map<Prefix, Entity>) {
    && (forall c :: c in found ==> Stored(w, c.source, c.key) && Names(w.slugs, target, c.source, c.key) &&
                                   c.resolved == w.links[c.source][c.key].Some?)
    && (forall s, k :: Stored(w, s, k) && Names(w.slugs, target, s, k) && (target.Commit? || w.links[s][k].None?) ==>
                       Candidate(s, k, w.links[s][k].Some?) in found)
    && (forall c :: c in found && c.key.locator.ShaPrefix? ==>
                    TheOne(PrefixHits(w.indexed, target.repo, c.key.locator.prefix)) ==
                    if c.key.locator.prefix in unique then Some(unique[c.key.locator.prefix]) else None)
  }

  ghost predicate Enabled(w: World, e: Event) {
    match e
    case Register(slug, repo) => slug !in w.slugs && forall d :: d in w.indexed ==> d.repo != repo
    case Store(_, _, _) => true
    case Begin(d) => w.consumer.Idle? && d in w.pending
    case PlanOwn => w.consumer.Working? && w.consumer.stage == Own(None)
    case WriteOwn => w.consumer.Working? && w.consumer.stage.Own? && w.consumer.stage.plan.Some?
    case Lookup(found, unique) => w.consumer.Working? && w.consumer.stage == Reverse(None) && IsLookup(w, w.consumer.target, found, unique)
    case WriteUpdate => w.consumer.Working? && w.consumer.stage.Reverse? && w.consumer.stage.updates.Some? && w.consumer.stage.updates.value != []
    case Finish => w.consumer.Working? && w.consumer.stage == Reverse(Some([]))
    case Redeliver => w.consumer.Working?
  }

  function SetLink(links: Links, u: Update): Links {
    if u.source in links then links[u.source := links[u.source][u.key := u.resolution]] else links
  }

  ghost function Apply(w: World, e: Event): World
    requires Enabled(w, e)
  {
    match e
    case Register(slug, repo) => w.(slugs := w.slugs[slug := repo])
    case Store(d, keys, hasDocument) =>
      w.(texts := w.texts[d := keys], indexed := if hasDocument then w.indexed + {d} else w.indexed, pending := w.pending + {d})
    case Begin(d) => w.(pending := w.pending - {d}, consumer := Working(d, Own(None)))
    case PlanOwn =>
      var target := w.consumer.target;
      if target !in w.texts then w.(consumer := Working(target, Reverse(None)))
      else w.(consumer := Working(target, Own(Some(PlanLinks(w.slugs, w.indexed, target, w.texts[target])))))
    case WriteOwn =>
      w.(links := w.links[w.consumer.target := w.consumer.stage.plan.value], consumer := Working(w.consumer.target, Reverse(None)))
    case Lookup(found, unique) =>
      var target := w.consumer.target;
      w.(consumer := Working(target, Reverse(Some(Updates(target, target in w.indexed, unique, found)))))
    case WriteUpdate =>
      var updates := w.consumer.stage.updates.value;
      w.(links := SetLink(w.links, updates[0]), consumer := Working(w.consumer.target, Reverse(Some(updates[1..]))))
    case Finish => w.(consumer := Idle)
    case Redeliver => w.(pending := w.pending + {w.consumer.target}, consumer := Idle)
  }

  // ----- Invariant -----

  /** Right for now, or a waiting target will bring it right. */
  ghost predicate Sound(w: World, s: Entity, k: Key, value: Option<Entity>) {
    || value == Resolve(w.slugs, w.indexed, s, k)
    || exists d :: d in w.pending && Names(w.slugs, d, s, k)
  }

  /** An exact name can only ever be resolved to what it says. */
  ghost predicate ExactRight(w: World, s: Entity, k: Key, value: Option<Entity>) {
    !k.locator.ShaPrefix? && value.Some? ==> value == Resolve(w.slugs, w.indexed, s, k)
  }

  /** The consumer has yet to look this link up, or to write its new value. */
  ghost predicate InHand(w: World, s: Entity, k: Key) {
    && w.consumer.Working?
    && (|| (w.consumer.stage.Own? && s == w.consumer.target)
        || (Names(w.slugs, w.consumer.target, s, k) &&
            (w.consumer.stage.Own? || w.consumer.stage.updates.None? ||
             exists u :: u in w.consumer.stage.updates.value && u.source == s && u.key == k)))
  }

  ghost predicate LinkInv(w: World, s: Entity, k: Key, value: Option<Entity>) {
    ExactRight(w, s, k, value) && (Sound(w, s, k, value) || s in w.pending || InHand(w, s, k))
  }

  ghost predicate LinksInv(w: World) {
    forall s, k :: Stored(w, s, k) ==> LinkInv(w, s, k, w.links[s][k])
  }

  ghost predicate TextsInv(w: World) {
    && w.links.Keys <= w.texts.Keys
    && (forall s :: s in w.texts ==>
          || (s in w.links && w.links[s].Keys == w.texts[s])
          || s in w.pending
          || (w.consumer.Working? && w.consumer.stage.Own? && w.consumer.target == s))
  }

  ghost predicate WorkInv(w: World) {
    w.consumer.Working? ==>
      match w.consumer.stage
      case Own(Some(plan)) =>
        && w.consumer.target in w.texts
        && (plan.Keys == w.texts[w.consumer.target] || w.consumer.target in w.pending)
        && forall k :: k in plan ==>
             ExactRight(w, w.consumer.target, k, plan[k]) && Sound(w, w.consumer.target, k, plan[k])
      case Reverse(Some(updates)) =>
        forall u :: u in updates ==>
          Stored(w, u.source, u.key) && ExactRight(w, u.source, u.key, u.resolution) && Sound(w, u.source, u.key, u.resolution)
      case _ => true
  }

  ghost predicate Inv(w: World) {
    LinksInv(w) && TextsInv(w) && WorkInv(w)
  }

  // ----- Steps -----

  lemma ResolveKnown(slugs: Slugs, indexed: set<Entity>, e: Entity, s: Entity, k: Key)
    requires !k.locator.ShaPrefix? && Resolve(slugs, indexed, s, k).Some?
    ensures Resolve(slugs, indexed + {e}, s, k) == Resolve(slugs, indexed, s, k)
  {}

  lemma SoundStore(w: World, e: Event, s: Entity, k: Key, value: Option<Entity>)
    requires e.Store?
    ensures ExactRight(w, s, k, value) ==> ExactRight(Apply(w, e), s, k, value)
    ensures Sound(w, s, k, value) ==> Sound(Apply(w, e), s, k, value)
  {
    var w' := Apply(w, e);
    if e.hasDocument {
      if !k.locator.ShaPrefix? && value.Some? && ExactRight(w, s, k, value) {
        ResolveKnown(w.slugs, w.indexed, e.e, s, k);
      }
      if Names(w.slugs, e.e, s, k) {
        assert e.e in w'.pending;
      } else {
        NewTargetResolves(w.slugs, w.indexed, e.e, s, k);
      }
    }
    if d :| d in w.pending && Names(w.slugs, d, s, k) {
      assert d in w'.pending;
    }
  }

  lemma StoreStep(w: World, e: Event)
    requires Inv(w) && e.Store?
    ensures Inv(Apply(w, e))
  {
    hide Sound, ExactRight, Names;
    var w' := Apply(w, e);
    forall s, k, value
      ensures ExactRight(w, s, k, value) ==> ExactRight(w', s, k, value)
      ensures Sound(w, s, k, value) ==> Sound(w', s, k, value)
    {
      SoundStore(w, e, s, k, value);
    }
  }

  lemma RegisterResolves(w: World, slug: nat, repo: nat, s: Entity, k: Key)
    requires Enabled(w, Register(slug, repo))
    ensures Resolve(w.slugs[slug := repo], w.indexed, s, k) == Resolve(w.slugs, w.indexed, s, k)
    ensures forall d :: Names(w.slugs, d, s, k) ==> Names(w.slugs[slug := repo], d, s, k)
  {
    if k.slug == Some(slug) && k.locator.ShaPrefix? {
      assert PrefixHits(w.indexed, repo, k.locator.prefix) == {};
    }
  }

  lemma RegisterJudges(w: World, slug: nat, repo: nat, s: Entity, k: Key, value: Option<Entity>)
    requires Enabled(w, Register(slug, repo))
    ensures
      var w' := w.(slugs := w.slugs[slug := repo]);
      && (Sound(w, s, k, value) ==> Sound(w', s, k, value))
      && (ExactRight(w, s, k, value) ==> ExactRight(w', s, k, value))
      && (InHand(w, s, k) ==> InHand(w', s, k))
  {
    hide Resolve, Names;
    RegisterResolves(w, slug, repo, s, k);
  }

  lemma RegisterStep(w: World, slug: nat, repo: nat)
    requires Inv(w) && Enabled(w, Register(slug, repo))
    ensures Inv(Apply(w, Register(slug, repo)))
  {
    hide Sound, ExactRight, InHand;
    var w' := Apply(w, Register(slug, repo));
    forall s, k, value
      ensures Sound(w, s, k, value) ==> Sound(w', s, k, value)
      ensures ExactRight(w, s, k, value) ==> ExactRight(w', s, k, value)
      ensures InHand(w, s, k) ==> InHand(w', s, k)
    {
      RegisterJudges(w, slug, repo, s, k, value);
    }
  }

  lemma BeginStep(w: World, d: Entity)
    requires Inv(w) && Enabled(w, Begin(d))
    ensures Inv(Apply(w, Begin(d)))
  {
    hide Resolve, Names;
    var w' := Apply(w, Begin(d));
    forall s, k | Stored(w', s, k)
      ensures LinkInv(w', s, k, w'.links[s][k])
    {
      assert LinkInv(w, s, k, w.links[s][k]);
      if x :| x in w.pending && Names(w.slugs, x, s, k) {
        assert x == d || x in w'.pending;
      }
    }
  }

  lemma RedeliverStep(w: World)
    requires Inv(w) && Enabled(w, Redeliver)
    ensures Inv(Apply(w, Redeliver))
  {
    hide Resolve, Names;
    var w' := Apply(w, Redeliver);
    forall s, k | Stored(w', s, k)
      ensures LinkInv(w', s, k, w'.links[s][k])
    {
      assert LinkInv(w, s, k, w.links[s][k]);
      assert w.consumer.target in w'.pending;
      if x :| x in w.pending && Names(w.slugs, x, s, k) {
        assert x in w'.pending;
      }
    }
  }

  lemma OwnStep(w: World, e: Event)
    requires Inv(w) && Enabled(w, e) && (e.PlanOwn? || e.WriteOwn? || e.Finish?)
    ensures Inv(Apply(w, e))
  {
    hide Resolve, Names;
    var w' := Apply(w, e);
    forall s, k | Stored(w', s, k)
      ensures LinkInv(w', s, k, w'.links[s][k])
    {
      if Stored(w, s, k) { assert LinkInv(w, s, k, w.links[s][k]); }
    }
  }

  lemma {:induction false} UpdatesAre(target: Entity, targetIndexed: bool, unique: map<Prefix, Entity>, found: seq<Candidate>)
    ensures forall u :: u in Updates(target, targetIndexed, unique, found) <==>
                        exists c :: c in found && NextFor(target, targetIndexed, unique, c) == Some(u)
  {
    if found != [] {
      var front, c := found[..|found| - 1], found[|found| - 1];
      UpdatesAre(target, targetIndexed, unique, front);
      assert found == front + [c];
      forall u
        ensures u in Updates(target, targetIndexed, unique, found) <==>
                exists c :: c in found && NextFor(target, targetIndexed, unique, c) == Some(u)
      {
        if x :| x in found && NextFor(target, targetIndexed, unique, x) == Some(u) {
          assert x in front || x == c;
        }
      }
    }
  }

  /** Whatever the lookup leaves alone is right already, and whatever it changes becomes right. */
  lemma LookupDecides(w: World, target: Entity, found: seq<Candidate>, unique: map<Prefix, Entity>, c: Candidate)
    requires IsLookup(w, target, found, unique) && c in found
    requires ExactRight(w, c.source, c.key, w.links[c.source][c.key])
    ensures
      match NextFor(target, target in w.indexed, unique, c)
      case None => w.links[c.source][c.key] == Resolve(w.slugs, w.indexed, c.source, c.key)
      case Some(u) => u.source == c.source && u.key == c.key && u.resolution == Resolve(w.slugs, w.indexed, c.source, c.key)
  {
    hide PrefixHits;
  }

  lemma LookupStep(w: World, found: seq<Candidate>, unique: map<Prefix, Entity>)
    requires Inv(w) && Enabled(w, Lookup(found, unique))
    ensures Inv(Apply(w, Lookup(found, unique)))
  {
    hide Resolve, Names, NextFor, Updates, PrefixHits, TheOne;
    var w', target := Apply(w, Lookup(found, unique)), w.consumer.target;
    var updates := Updates(target, target in w.indexed, unique, found);
    UpdatesAre(target, target in w.indexed, unique, found);
    forall s, k | Stored(w', s, k)
      ensures LinkInv(w', s, k, w'.links[s][k])
    {
      assert LinkInv(w, s, k, w.links[s][k]);
      if Names(w.slugs, target, s, k) {
        LookedUp(w, target, found, unique, s, k);
      }
    }
    forall u | u in updates
      ensures Stored(w', u.source, u.key) && ExactRight(w', u.source, u.key, u.resolution) && Sound(w', u.source, u.key, u.resolution)
    {
      var c :| c in found && NextFor(target, target in w.indexed, unique, c) == Some(u);
      assert Stored(w, c.source, c.key) && LinkInv(w, c.source, c.key, w.links[c.source][c.key]);
      LookupDecides(w, target, found, unique, c);
    }
  }

  lemma LookedUp(w: World, target: Entity, found: seq<Candidate>, unique: map<Prefix, Entity>, s: Entity, k: Key)
    requires IsLookup(w, target, found, unique) && Stored(w, s, k) && Names(w.slugs, target, s, k)
    requires ExactRight(w, s, k, w.links[s][k])
    ensures
      || w.links[s][k] == Resolve(w.slugs, w.indexed, s, k)
      || exists u :: u in Updates(target, target in w.indexed, unique, found) && u.source == s && u.key == k
  {
    hide Resolve, NextFor, Updates, PrefixHits, TheOne;
    UpdatesAre(target, target in w.indexed, unique, found);
    if target.Pull? && w.links[s][k].Some? {
      assert !k.locator.ShaPrefix?;
    } else {
      var c := Candidate(s, k, w.links[s][k].Some?);
      assert c in found;
      LookupDecides(w, target, found, unique, c);
      var next := NextFor(target, target in w.indexed, unique, c);
      if next.Some? {
        assert next.value in Updates(target, target in w.indexed, unique, found);
      }
    }
  }

  lemma UpdateStep(w: World)
    requires Inv(w) && Enabled(w, WriteUpdate)
    ensures Inv(Apply(w, WriteUpdate))
  {
    hide Resolve, Names, Sound, ExactRight;
    var w', updates := Apply(w, WriteUpdate), w.consumer.stage.updates.value;
    var u := updates[0];
    assert Stored(w, u.source, u.key);
    forall s, k, value
      ensures Sound(w', s, k, value) == Sound(w, s, k, value) && ExactRight(w', s, k, value) == ExactRight(w, s, k, value)
    {
      SameJudgement(w, w', s, k, value);
    }
    forall s, k | Stored(w', s, k)
      ensures LinkInv(w', s, k, w'.links[s][k])
    {
      if s == u.source && k == u.key {
      } else {
        assert Stored(w, s, k) && LinkInv(w, s, k, w.links[s][k]) && w'.links[s][k] == w.links[s][k];
        if x :| x in updates && x.source == s && x.key == k {
          assert x in updates[1..];
        }
      }
    }
    assert w'.links[u.source].Keys == w.links[u.source].Keys;
  }

  lemma SameJudgement(w: World, w': World, s: Entity, k: Key, value: Option<Entity>)
    requires w'.slugs == w.slugs && w'.indexed == w.indexed && w'.pending == w.pending
    ensures Sound(w', s, k, value) == Sound(w, s, k, value) && ExactRight(w', s, k, value) == ExactRight(w, s, k, value)
  {}

  lemma StepKeepsInv(w: World, e: Event)
    requires Inv(w) && Enabled(w, e)
    ensures Inv(Apply(w, e))
  {
    hide Inv, Enabled, Apply;
    match e {
      case Register(slug, repo) => RegisterStep(w, slug, repo);
      case Store(_, _, _) => StoreStep(w, e);
      case Begin(d) => BeginStep(w, d);
      case PlanOwn => OwnStep(w, e);
      case WriteOwn => OwnStep(w, e);
      case Lookup(found, unique) => LookupStep(w, found, unique);
      case WriteUpdate => UpdateStep(w);
      case Finish => OwnStep(w, e);
      case Redeliver => RedeliverStep(w);
    }
  }

  ghost predicate RunOk(w: World, events: seq<Event>)
    decreases |events|
  {
    events != [] ==> Enabled(w, events[0]) && RunOk(Apply(w, events[0]), events[1..])
  }

  ghost function After(w: World, events: seq<Event>): World
    requires RunOk(w, events)
    decreases |events|
  {
    if events == [] then w else After(Apply(w, events[0]), events[1..])
  }

  lemma {:induction false} RunKeepsInv(w: World, events: seq<Event>)
    requires Inv(w) && RunOk(w, events)
    ensures Inv(After(w, events))
    decreases |events|
  {
    hide Inv, Enabled, Apply;
    if events != [] {
      StepKeepsInv(w, events[0]);
      RunKeepsInv(Apply(w, events[0]), events[1..]);
    }
  }

  /**
   However texts, documents, events and failures interleave: once no event waits, every source holds exactly
   the links, resolved exactly as planning it from its text would make them now.
   */
  lemma QuietLinksAreReplanned(events: seq<Event>)
    requires RunOk(World(map[], map[], {}, map[], {}, Idle), events)
    ensures
      var w := After(World(map[], map[], {}, map[], {}, Idle), events);
      w.pending == {} && w.consumer.Idle? ==>
        w.links.Keys == w.texts.Keys &&
        forall s :: s in w.texts ==> w.links[s] == PlanLinks(w.slugs, w.indexed, s, w.texts[s])
  {
    hide Resolve, Names;
    RunKeepsInv(World(map[], map[], {}, map[], {}, Idle), events);
    var w := After(World(map[], map[], {}, map[], {}, Idle), events);
    if w.pending == {} && w.consumer.Idle? {
      forall s | s in w.texts
        ensures s in w.links && w.links[s] == PlanLinks(w.slugs, w.indexed, s, w.texts[s])
      {
        forall k | k in w.links[s]
          ensures w.links[s][k] == Resolve(w.slugs, w.indexed, s, k)
        {
          assert Stored(w, s, k) && LinkInv(w, s, k, w.links[s][k]);
        }
      }
    }
  }
}
