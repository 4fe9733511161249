/**
 The slot that lets one annotation pass run at a time inside a process: a chain of promises.

 Each arriving pass registers behind the chain at once; its own promise resolves when it gives the slot back or
 gives up waiting. The chain behind pass k resolves only after the chain before it and the pass's own promise
 have, and promise reactions run some time after what they react to. Any interleaving is allowed.

 Main results: `OneHolder`, `GrantsInOrder`, `NobodyWaitsForNothing`, `EverybodyLeaves`.
 */
module PassSlot {
  /** `mine` is the pass's own promise, `chain` the promise its successor waits for. */
  datatype Pass = Pass(stage: Stage, mine: bool, chain: bool)

  /** `Aborted` has been told to stop, `Granted` has its turn; both still have to look at the time and act. */
  datatype Stage = Waiting | Granted | Aborted | Holding | Gone

  /** `grants` records the passes that got the slot, in order. */
  datatype World = World(passes: seq<Pass>, grants: seq<nat>)

  datatype Event =
    | Arrive(expired: bool)
    | Signal(k: nat)                 // the budget ends, or the process is told to stop
    | Turn(k: nat)                   // the chain before the pass has resolved
    | Proceed(k: nat, expired: bool) // with its turn: takes the slot, unless its time is up
    | GiveUp(k: nat)
    | Release(k: nat)
    | Resolve(k: nat)                // the chain behind the pass resolves

  predicate ChainBefore(w: World, k: nat)
    requires k < |w.passes|
  {
    k == 0 || w.passes[k - 1].chain
  }

  predicate At(w: World, k: nat, stage: Stage) {
    k < |w.passes| && w.passes[k].stage == stage
  }

  predicate Enabled(w: World, e: Event) {
    match e
    case Arrive(_) => true
    case Signal(k) => At(w, k, Waiting)
    case Turn(k) => At(w, k, Waiting) && ChainBefore(w, k)
    case Proceed(k, _) => At(w, k, Granted)
    case GiveUp(k) => At(w, k, Aborted)
    case Release(k) => At(w, k, Holding)
    case Resolve(k) => k < |w.passes| && ChainBefore(w, k) && w.passes[k].mine && !w.passes[k].chain
  }

  function Set(w: World, k: nat, pass: Pass): World
    requires k < |w.passes|
  {
    w.(passes := w.passes[k := pass])
  }

  function Left(pass: Pass): Pass {
    pass.(stage := Gone, mine := true)
  }

  function Apply(w: World, e: Event): World
    requires Enabled(w, e)
  {
    match e
    case Arrive(expired) => w.(passes := w.passes + [if expired then Pass(Gone, true, false) else Pass(Waiting, false, false)])
    case Signal(k) => Set(w, k, w.passes[k].(stage := Aborted))
    case Turn(k) => Set(w, k, w.passes[k].(stage := Granted))
    case Proceed(k, expired) =>
      if expired then Set(w, k, Left(w.passes[k]))
      else Set(w, k, w.passes[k].(stage := Holding)).(grants := w.grants + [k])
    case GiveUp(k) => Set(w, k, Left(w.passes[k]))
    case Release(k) => Set(w, k, Left(w.passes[k]))
    case Resolve(k) => Set(w, k, w.passes[k].(chain := true))
  }

  predicate Served(stage: Stage) {
    stage.Granted? || stage.Holding?
  }

  ghost predicate PromisesInv(w: World) {
    forall k :: 0 <= k < |w.passes| ==> PassOk(w, k)
  }

  predicate PassOk(w: World, k: nat)
    requires k < |w.passes|
  {
    && (w.passes[k].mine <==> w.passes[k].stage.Gone?)
    && (w.passes[k].chain ==> w.passes[k].mine)
    && (w.passes[k].chain || Served(w.passes[k].stage) ==> ChainBefore(w, k))
  }

  ghost predicate GrantsInv(w: World) {
    && (forall i :: 0 <= i < |w.grants| ==>
          w.grants[i] < |w.passes| && (w.passes[w.grants[i]].stage.Holding? || w.passes[w.grants[i]].stage.Gone?))
    && (forall i :: 0 <= i < |w.grants| ==> ChainBefore(w, w.grants[i]))
    && (forall i, j :: 0 <= i < j < |w.grants| ==> w.grants[i] < w.grants[j])
  }

  ghost predicate Inv(w: World) {
    PromisesInv(w) && GrantsInv(w)
  }

  /** A resolved chain means that everybody up to there is gone. */
  lemma {:induction false} ChainDown(w: World, j: nat, k: nat)
    requires PromisesInv(w) && j <= k < |w.passes| && w.passes[k].chain
    ensures w.passes[j].chain && w.passes[j].stage.Gone?
    decreases k
  {
    assert PassOk(w, k);
    if j < k { ChainDown(w, j, k - 1); }
  }

  lemma PromisesStep(w: World, e: Event)
    requires PromisesInv(w) && Enabled(w, e)
    ensures PromisesInv(Apply(w, e))
  {
    var w' := Apply(w, e);
    forall k | 0 <= k < |w'.passes|
      ensures PassOk(w', k)
    {
      if k < |w.passes| { assert PassOk(w, k); }
      if 0 < k { assert PassOk(w, k - 1); }
    }
  }

  /** A pass getting its turn comes after everybody who ever had the slot. */
  lemma LaterThanGrants(w: World, k: nat)
    requires Inv(w) && At(w, k, Granted)
    ensures forall i :: 0 <= i < |w.grants| ==> w.grants[i] < k
  {
    forall i | 0 <= i < |w.grants|
      ensures w.grants[i] < k
    {
      var g := w.grants[i];
      if g > k {
        ChainDown(w, k, g - 1);
      }
    }
  }

  lemma GrantsStep(w: World, e: Event)
    requires Inv(w) && Enabled(w, e)
    ensures GrantsInv(Apply(w, e))
  {
    hide PromisesInv;
    if e.Proceed? && !e.expired {
      assert ChainBefore(w, e.k) by { TurnMeansChain(w, e.k); }
      LaterThanGrants(w, e.k);
    }
  }

  lemma TurnMeansChain(w: World, k: nat)
    requires PromisesInv(w) && k < |w.passes| && Served(w.passes[k].stage)
    ensures ChainBefore(w, k)
  {
    assert PassOk(w, k);
  }

  lemma StepKeepsInv(w: World, e: Event)
    requires Inv(w) && Enabled(w, e)
    ensures Inv(Apply(w, e))
  {
    PromisesStep(w, e);
    GrantsStep(w, e);
  }

  ghost predicate RunOk(w: World, events: seq<Event>)
    decreases |events|
  {
    events != [] ==> Enabled(w, events[0]) && RunOk(Apply(w, events[0]), events[1..])
  }

  function After(w: World, events: seq<Event>): World
    requires RunOk(w, events)
    decreases |events|
  {
    if events == [] then w else After(Apply(w, events[0]), events[1..])
  }

  const EMPTY := World([], [])

  lemma {:induction false} RunKeepsInv(w: World, events: seq<Event>)
    requires Inv(w) && RunOk(w, events)
    ensures Inv(After(w, events))
    decreases |events|
  {
    hide Enabled, Apply, Inv;
    if events != [] {
      StepKeepsInv(w, events[0]);
      RunKeepsInv(Apply(w, events[0]), events[1..]);
    }
  }

  /** Whatever arrives, expires or is aborted in whatever order: never two passes in the slot. */
  lemma OneHolder(events: seq<Event>, j: nat, k: nat)
    requires RunOk(EMPTY, events)
    requires At(After(EMPTY, events), j, Holding) && At(After(EMPTY, events), k, Holding)
    ensures j == k
  {
    RunKeepsInv(EMPTY, events);
    HoldersMeet(After(EMPTY, events), j, k);
  }

  lemma HoldersMeet(w: World, j: nat, k: nat)
    requires Inv(w) && At(w, j, Holding) && At(w, k, Holding)
    ensures j == k
  {
    if j < k { TurnMeansChain(w, k); ChainDown(w, j, k - 1); }
    if k < j { TurnMeansChain(w, j); ChainDown(w, k, j - 1); }
  }

  /**
   The slot is granted in the order of arrival, each pass at most once, and only when every earlier pass has
   been in it and left, or has given up.
   */
  lemma GrantsInOrder(events: seq<Event>)
    requires RunOk(EMPTY, events)
    ensures
      var w := After(EMPTY, events);
      && (forall i, j :: 0 <= i < j < |w.grants| ==> w.grants[i] < w.grants[j])
      && (forall i, k :: 0 <= i < |w.grants| && 0 <= k < w.grants[i] < |w.passes| ==> w.passes[k].stage.Gone?)
  {
    RunKeepsInv(EMPTY, events);
    hide RunOk, After, PromisesInv, PassOk;
    var w := After(EMPTY, events);
    forall i, k | 0 <= i < |w.grants| && 0 <= k < w.grants[i] < |w.passes|
      ensures w.passes[k].stage.Gone?
    {
      ChainDown(w, k, w.grants[i] - 1);
    }
  }

  /** The next thing that happens by itself, without a holder, a signal or an arrival. */
  function Internal(w: World, k: nat): set<Event> {
    {Turn(k), Proceed(k, false), GiveUp(k), Resolve(k)}
  }

  /** No waiting pass is stuck: as long as nobody holds the slot, something goes on by itself. */
  lemma NobodyWaitsForNothing(w: World, waiting: nat) returns (k: nat, e: Event)
    requires Inv(w) && waiting < |w.passes| && !w.passes[waiting].stage.Gone?
    requires forall j :: 0 <= j < |w.passes| ==> !w.passes[j].stage.Holding?
    ensures k <= waiting && e in Internal(w, k) && Enabled(w, e)
  {
    k := 0;
    while w.passes[k].chain
      invariant k <= waiting && ChainBefore(w, k)
      decreases waiting - k
    {
      ChainDown(w, k, k);
      k := k + 1;
    }
    assert PassOk(w, k);
    e := match w.passes[k].stage
      case Waiting => Turn(k)
      case Granted => Proceed(k, false)
      case Aborted => GiveUp(k)
      case _ => Resolve(k);
  }

  function StepsLeft(pass: Pass): nat {
    (match pass.stage
     case Waiting => 3
     case Granted => 2
     case Aborted => 2
     case Holding => 1
     case Gone => 0) + if pass.chain then 0 else 1
  }

  /** Steps the passes that have arrived can still take. */
  function Remaining(passes: seq<Pass>): nat {
    if passes == [] then 0 else StepsLeft(passes[0]) + Remaining(passes[1..])
  }

  lemma {:induction false} RemainingAt(passes: seq<Pass>, k: nat, pass: Pass)
    requires k < |passes|
    ensures Remaining(passes[k := pass]) == Remaining(passes) - StepsLeft(passes[k]) + StepsLeft(pass)
  {
    if k == 0 {
      assert passes[k := pass][1..] == passes[1..];
    } else {
      assert passes[k := pass][1..] == passes[1..][k - 1 := pass];
      RemainingAt(passes[1..], k - 1, pass);
    }
  }

  /** Without new arrivals every step brings the end nearer. */
  lemma SettlesInBoundedSteps(w: World, e: Event)
    requires Enabled(w, e) && !e.Arrive?
    ensures Remaining(Apply(w, e).passes) < Remaining(w.passes)
  {
    var k := e.k;
    RemainingAt(w.passes, k, Apply(w, e).passes[k]);
    assert Apply(w, e).passes == w.passes[k := Apply(w, e).passes[k]];
  }

  ghost predicate NoArrivals(events: seq<Event>) {
    forall i :: 0 <= i < |events| ==> !events[i].Arrive?
  }

  predicate AllGone(w: World) {
    forall k :: 0 <= k < |w.passes| ==> w.passes[k].stage.Gone?
  }

  lemma {:induction false} RunSettles(w: World, events: seq<Event>)
    requires RunOk(w, events) && NoArrivals(events)
    ensures |events| + Remaining(After(w, events).passes) <= Remaining(w.passes)
    decreases |events|
  {
    hide Enabled, Apply, Remaining;
    if events != [] {
      SettlesInBoundedSteps(w, events[0]);
      RunSettles(Apply(w, events[0]), events[1..]);
    }
  }

  lemma {:induction false} NothingRemains(passes: seq<Pass>, k: nat)
    requires Remaining(passes) == 0 && k < |passes|
    ensures passes[k].stage.Gone?
  {
    if k > 0 { NothingRemains(passes[1..], k - 1); }
  }

  /** As long as somebody is there, something other than an arrival can happen: at least a holder can release. */
  lemma SomethingGoesOn(w: World, k: nat) returns (e: Event)
    requires Inv(w) && k < |w.passes| && !w.passes[k].stage.Gone?
    ensures Enabled(w, e) && !e.Arrive?
  {
    if j :| 0 <= j < |w.passes| && w.passes[j].stage.Holding? {
      e := Release(j);
    } else {
      var q;
      q, e := NobodyWaitsForNothing(w, k);
    }
  }

  /**
   After any history, once nobody arrives any more: every run is at most as long as the steps left, and a run
   that long, or one after which nothing but an arrival can happen, leaves every pass gone.
   */
  lemma EverybodyLeaves(history: seq<Event>, events: seq<Event>)
    requires RunOk(EMPTY, history) && RunOk(After(EMPTY, history), events) && NoArrivals(events)
    ensures
      var w := After(EMPTY, history);
      var end := After(w, events);
      && |events| <= Remaining(w.passes)
      && (|events| == Remaining(w.passes) ==> AllGone(end))
      && ((forall e :: Enabled(end, e) ==> e.Arrive?) ==> AllGone(end))
  {
    var w := After(EMPTY, history);
    var end := After(w, events);
    RunKeepsInv(EMPTY, history);
    RunKeepsInv(w, events);
    RunSettles(w, events);
    hide RunOk, After, Inv, Remaining, Enabled;
    forall k | 0 <= k < |end.passes| && |events| == Remaining(w.passes)
      ensures end.passes[k].stage.Gone?
    {
      NothingRemains(end.passes, k);
    }
    if k :| 0 <= k < |end.passes| && !end.passes[k].stage.Gone? {
      var e := SomethingGoesOn(end, k);
    }
  }
}
