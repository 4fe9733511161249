/**
 Any number of recoveries on one queue of missed links, as when a paused job is claimed a second time while its
 first runner is still at work.

 A hand is one row some recovery has read and not yet dealt with; reading a page takes several at once. Beside
 the queue the model keeps when each row came into being, when a source last missed, and when the newest of its
 finished derivations began.

 Main results: `DeleteKeepsIff`, `AccountedIff`, `SecondRecoveryForgets`, `DistinctRowsAccounted`.
 */
module LinkRecoveryRaces {
  import opened LinkRecovery

  datatype Progress = Listed | Deriving(began: nat) | Derived(began: nat)

  /** The row as it was read: its generation, when that row was born, and when it was read. */
  datatype Hand = Hand(source: nat, generation: nat, born: nat, readAt: nat, progress: Progress)

  datatype World = World(
    clock: nat, pending: Pending, births: map<nat, nat>, missedAt: map<nat, nat>, derivedAt: map<nat, nat>, hands: map<nat, Hand>)

  datatype Event =
    | Miss(source: nat)
    | Read(h: nat, source: nat)
    | Begin(h: nat)
    | End(h: nat, outcome: Derivation)
    | Delete(h: nat)
    | Drop(h: nat)                     // its recovery throws or dies

  predicate Enabled(w: World, e: Event) {
    match e
    case Miss(_) => true
    case Read(h, source) => h !in w.hands && source in w.pending && source in w.births
    case Begin(h) => h in w.hands && w.hands[h].progress.Listed?
    case End(h, _) => h in w.hands && w.hands[h].progress.Deriving?
    case Delete(h) => h in w.hands && w.hands[h].progress.Derived?
    case Drop(h) => h in w.hands
  }

  function Later(times: map<nat, nat>, source: nat, time: nat): map<nat, nat> {
    if source in times && times[source] >= time then times else times[source := time]
  }

  function Apply(w: World, e: Event): World
    requires Enabled(w, e)
  {
    match e
    case Miss(source) =>
      w.(clock := w.clock + 1, pending := Recorded(w.pending, source), missedAt := w.missedAt[source := w.clock + 1],
         births := if source in w.pending then w.births else w.births[source := w.clock + 1])
    case Read(h, source) => w.(hands := w.hands[h := Hand(source, w.pending[source], w.births[source], w.clock, Listed)])
    case Begin(h) => w.(clock := w.clock + 1, hands := w.hands[h := w.hands[h].(progress := Deriving(w.clock + 1))])
    case End(h, outcome) =>
      var hand := w.hands[h];
      if outcome.Incomplete? then w.(hands := w.hands - {h})
      else
        w.(hands := w.hands[h := hand.(progress := Derived(hand.progress.began))],
           derivedAt := Later(w.derivedAt, hand.source, hand.progress.began))
    case Delete(h) => w.(pending := Deleted(w.pending, w.hands[h].source, w.hands[h].generation), hands := w.hands - {h})
    case Drop(h) => w.(hands := w.hands - {h})
  }

  // ----- What recovery is for -----

  predicate DerivedSince(w: World, source: nat) {
    source in w.missedAt && source in w.derivedAt && w.missedAt[source] < w.derivedAt[source]
  }

  /** Every source that ever missed has its row, or was derived after its last miss. */
  ghost predicate Accounted(w: World) {
    forall s :: s in w.missedAt && s !in w.pending ==> DerivedSince(w, s)
  }

  // ----- Invariant -----

  ghost predicate QueueInv(w: World) {
    && (forall s :: s in w.pending ==> s in w.births && s in w.missedAt)
    && (forall s :: s in w.births ==> w.births[s] <= w.clock)
    && (forall s :: s in w.missedAt ==> w.missedAt[s] <= w.clock)
  }

  /** The very row this hand has read. */
  predicate SameRow(w: World, hand: Hand) {
    hand.source in w.pending && hand.source in w.births && w.births[hand.source] == hand.born
  }

  /** A row that is still the one read and was not raised was not missed since. */
  predicate HandInv(w: World, hand: Hand) {
    && hand.born <= w.clock && hand.readAt <= w.clock
    && (hand.progress.Deriving? || hand.progress.Derived? ==> hand.readAt < hand.progress.began <= w.clock)
    && (hand.progress.Derived? ==> hand.source in w.derivedAt && hand.progress.began <= w.derivedAt[hand.source])
    && (SameRow(w, hand) ==>
          && hand.generation <= w.pending[hand.source]
          && (hand.generation == w.pending[hand.source] ==> hand.source in w.missedAt && w.missedAt[hand.source] <= hand.readAt))
  }

  ghost predicate Inv(w: World) {
    QueueInv(w) && forall h :: h in w.hands ==> HandInv(w, w.hands[h])
  }

  lemma QueueStep(w: World, e: Event)
    requires QueueInv(w) && Enabled(w, e)
    ensures QueueInv(Apply(w, e))
  {}

  /** Time passes, rows are raised, and other hands finish derivations or delete. */
  lemma HandKept(w: World, e: Event, h: nat)
    requires QueueInv(w) && Enabled(w, e) && h in w.hands && HandInv(w, w.hands[h])
    ensures HandInv(Apply(w, e), w.hands[h])
  {}

  lemma HandMoved(w: World, e: Event, h: nat)
    requires QueueInv(w) && Enabled(w, e) && !e.Miss? && e.h == h && h in Apply(w, e).hands
    requires h in w.hands ==> HandInv(w, w.hands[h])
    ensures HandInv(Apply(w, e), Apply(w, e).hands[h])
  {
    hide Recorded, Deleted;
    assert e.Read? || e.Begin? || e.End?;
    assert Apply(w, e).pending == w.pending && Apply(w, e).births == w.births && Apply(w, e).missedAt == w.missedAt;
  }

  lemma StepKeepsInv(w: World, e: Event)
    requires Inv(w) && Enabled(w, e)
    ensures Inv(Apply(w, e))
  {
    hide QueueInv, HandInv, Later, Recorded, Deleted;
    QueueStep(w, e);
    forall h | h in Apply(w, e).hands
      ensures HandInv(Apply(w, e), Apply(w, e).hands[h])
    {
      if !e.Miss? && e.h == h { HandMoved(w, e, h); } else { HandKept(w, e, h); }
    }
  }

  // ----- One deletion -----

  /** Nothing is deleted, or the row that was read, or a row whose source some recovery derived after its last miss. */
  predicate Harmless(w: World, hand: Hand) {
    || hand.source !in w.pending || w.pending[hand.source] != hand.generation
    || SameRow(w, hand)
    || DerivedSince(w, hand.source)
  }

  /** The generation alone does not protect a row that was deleted and written again. */
  lemma DeleteKeepsIff(w: World, h: nat)
    requires Inv(w) && Accounted(w) && Enabled(w, Delete(h))
    ensures Accounted(Apply(w, Delete(h))) <==> Harmless(w, w.hands[h])
  {
    var w', hand := Apply(w, Delete(h)), w.hands[h];
    assert HandInv(w, hand);
    assert forall s :: DerivedSince(w', s) == DerivedSince(w, s);
    assert hand.source in w.pending ==> hand.source in w.missedAt;
  }

  lemma OtherStepsKeepAccounted(w: World, e: Event)
    requires Inv(w) && Accounted(w) && Enabled(w, e) && !e.Delete?
    ensures Accounted(Apply(w, e))
  {
    forall s | s in Apply(w, e).missedAt && s !in Apply(w, e).pending
      ensures DerivedSince(Apply(w, e), s)
    {
      assert DerivedSince(w, s);
    }
  }

  // ----- Whole runs -----

  ghost predicate RunOk(w: World, events: seq<Event>)
    decreases |events|
  {
    events != [] ==> Enabled(w, events[0]) && RunOk(Apply(w, events[0]), events[1..])
  }

  function After(w: World, events: seq<Event>): World
    requires RunOk(w, events)
    decreases |events|
  {
    if events == [] then w else After(Apply(w, events[0]), events[1..])
  }

  const EMPTY := World(0, map[], map[], map[], map[], map[])

  ghost predicate AlwaysAccounted(w: World, events: seq<Event>)
    requires RunOk(w, events)
    decreases |events|
  {
    Accounted(w) && (events != [] ==> AlwaysAccounted(Apply(w, events[0]), events[1..]))
  }

  ghost predicate AlwaysHarmless(w: World, events: seq<Event>)
    requires RunOk(w, events)
    decreases |events|
  {
    events != [] ==>
      (events[0].Delete? ==> Harmless(w, w.hands[events[0].h])) && AlwaysHarmless(Apply(w, events[0]), events[1..])
  }

  lemma {:induction false} HarmlessIff(w: World, events: seq<Event>)
    requires Inv(w) && Accounted(w) && RunOk(w, events)
    ensures AlwaysAccounted(w, events) <==> AlwaysHarmless(w, events)
    decreases |events|
  {
    hide Apply, Inv, Accounted, Harmless;
    if events != [] {
      var e := events[0];
      StepKeepsInv(w, e);
      if e.Delete? { DeleteKeepsIff(w, e.h); } else { OtherStepsKeepAccounted(w, e); }
      if Accounted(Apply(w, e)) {
        HarmlessIff(Apply(w, e), events[1..]);
      } else {
        NotAccountedNow(Apply(w, e), events[1..]);
      }
    }
  }

  lemma NotAccountedNow(w: World, events: seq<Event>)
    requires RunOk(w, events) && !Accounted(w)
    ensures !AlwaysAccounted(w, events)
  {}

  /** Over every run of any number of recoveries: no miss is ever forgotten exactly if every deletion is harmless. */
  lemma AccountedIff(events: seq<Event>)
    requires RunOk(EMPTY, events)
    ensures AlwaysAccounted(EMPTY, events) <==> AlwaysHarmless(EMPTY, events)
  {
    HarmlessIff(EMPTY, events);
  }

  // ----- One recovery at a time on each row -----

  /** A recovery only reads rows no other one holds; the code has nothing that ensures it. */
  predicate Apart(w: World, e: Event) {
    e.Read? ==> forall h :: h in w.hands ==> w.hands[h].source != e.source
  }

  ghost predicate ApartInv(w: World) {
    && (forall h, k :: h in w.hands && k in w.hands && w.hands[h].source == w.hands[k].source ==> h == k)
    && (forall h :: h in w.hands ==> SameRow(w, w.hands[h]))
  }

  ghost predicate AlwaysApart(w: World, events: seq<Event>)
    requires RunOk(w, events)
    decreases |events|
  {
    events != [] ==> Apart(w, events[0]) && AlwaysApart(Apply(w, events[0]), events[1..])
  }

  lemma StepKeepsApart(w: World, e: Event)
    requires QueueInv(w) && ApartInv(w) && Enabled(w, e) && Apart(w, e)
    ensures ApartInv(Apply(w, e))
  {
    var w' := Apply(w, e);
    forall h | h in w'.hands
      ensures SameRow(w', w'.hands[h])
    {
      if h in w.hands { assert SameRow(w, w.hands[h]); }
      if e.Delete? { assert h != e.h; }
    }
  }

  lemma {:induction false} ApartIsHarmless(w: World, events: seq<Event>)
    requires Inv(w) && ApartInv(w) && RunOk(w, events) && AlwaysApart(w, events)
    ensures AlwaysHarmless(w, events)
    decreases |events|
  {
    hide Apply, QueueInv, HandInv, Apart, SameRow;
    if events != [] {
      StepKeepsInv(w, events[0]);
      StepKeepsApart(w, events[0]);
      ApartIsHarmless(Apply(w, events[0]), events[1..]);
    }
  }

  /** With each row in the hands of one recovery at a time, nothing is forgotten however misses and recoveries mix. */
  lemma DistinctRowsAccounted(events: seq<Event>)
    requires RunOk(EMPTY, events) && AlwaysApart(EMPTY, events)
    ensures AlwaysAccounted(EMPTY, events)
  {
    ApartIsHarmless(EMPTY, events);
    AccountedIff(events);
  }

  // ----- A run that forgets -----

  /** These are the states the events lead through. */
  ghost predicate Traces(states: seq<World>, events: seq<Event>) {
    && |states| == |events| + 1
    && forall i :: 0 <= i < |events| ==> Enabled(states[i], events[i]) && Apply(states[i], events[i]) == states[i + 1]
  }

  lemma {:induction false} TraceRuns(states: seq<World>, events: seq<Event>)
    requires Traces(states, events)
    ensures RunOk(states[0], events) && After(states[0], events) == states[|events|]
    decreases |events|
  {
    hide Enabled, Apply;
    if events != [] {
      assert Enabled(states[0], events[0]) && Apply(states[0], events[0]) == states[1];
      TraceRuns(states[1..], events[1..]);
    }
  }

  /** Two recoveries read one row; the second deletes what a new miss wrote after the first had deleted it. */
  const RACE := [
    Miss(0), Read(1, 0), Read(2, 0), Begin(1), Begin(2), End(1, Complete), End(2, Complete), Delete(1), Miss(0), Delete(2)]

  /** At its end no row waits, so the alias may move, but the source was last missed after its last derivation began. */
  lemma SecondRecoveryForgets()
    ensures RunOk(EMPTY, RACE)
    ensures
      var w := After(EMPTY, RACE);
      w.pending == map[] && 0 in w.missedAt && !DerivedSince(w, 0) && !Accounted(w)
  {
    hide RunOk, After;
    var hand := Hand(0, 1, 1, 1, Listed);
    var w1 := World(1, map[0 := 1], map[0 := 1], map[0 := 1], map[], map[]);
    var w2 := w1.(hands := map[1 := hand]);
    var w3 := w1.(hands := map[1 := hand, 2 := hand]);
    var w4 := w1.(clock := 2, hands := map[1 := hand.(progress := Deriving(2)), 2 := hand]);
    var w5 := w4.(clock := 3, hands := map[1 := hand.(progress := Deriving(2)), 2 := hand.(progress := Deriving(3))]);
    var w6 := w5.(derivedAt := map[0 := 2], hands := map[1 := hand.(progress := Derived(2)), 2 := hand.(progress := Deriving(3))]);
    var w7 := w6.(derivedAt := map[0 := 3], hands := map[1 := hand.(progress := Derived(2)), 2 := hand.(progress := Derived(3))]);
    var w8 := w7.(pending := map[], hands := map[2 := hand.(progress := Derived(3))]);
    var w9 := World(4, map[0 := 1], map[0 := 4], map[0 := 4], map[0 := 3], w8.hands);
    var w10 := w9.(pending := map[], hands := map[]);
    var states := [EMPTY, w1, w2, w3, w4, w5, w6, w7, w8, w9, w10];
    assert Apply(EMPTY, Miss(0)) == w1 by { assert Recorded(map[], 0) == map[0 := 1]; }
    assert Apply(w1, Read(1, 0)) == w2;
    assert Apply(w2, Read(2, 0)) == w3;
    assert Apply(w3, Begin(1)) == w4;
    assert Apply(w4, Begin(2)) == w5;
    assert Apply(w5, End(1, Complete)) == w6;
    assert Apply(w6, End(2, Complete)) == w7;
    assert Apply(w7, Delete(1)) == w8;
    assert Apply(w8, Miss(0)) == w9;
    assert Apply(w9, Delete(2)) == w10;
    TraceRuns(states, RACE);
  }
}
