/**
 One merge-number tag: read the remote ref, decide, and create it at most once, however requests end.

 The remote tag of one name is either absent or names something for good: neither this worker nor anybody else
 moves it here. A request whose answer is lost may have had its effect, may have it later, or never. The class
 is the worker with one row, call after call; other workers and people act at the remote between its requests.

 Main results: `TagCall.Materialize`, `TagCall.TwoCalls`, `JudgeKeepsUnknownIff`, `AnyCallAuditsIff`,
 `UnauditedWasUnknown`, `UnknownForgotten`.
 */
module TagRefs {
  import opened Wrappers

  const TAG_MAX_ATTEMPTS := 5

  datatype Target = Target(sha: nat, lightweight: bool)

  datatype Decision = Create | AlreadyDone | Conflict

  function DecideTagAction(expected: nat, found: Option<Target>): Decision {
    match found
    case None => Create
    case Some(t) => if t.lightweight && t.sha == expected then AlreadyDone else Conflict
  }

  datatype Kind = RateLimited | Permission | Auth | Unprocessable | Server | Network | Timeout | Aborted

  predicate LeavesOutcomeUnknown(kind: Kind) {
    kind.Server? || kind.Network? || kind.Timeout? || kind.Aborted?
  }

  // ----- What a series of attempts comes to -----

  /** How one attempt ended; `slept` tells whether the wait before the next one fitted the deadline. */
  datatype Attempt =
    | Done(wrote: bool)
    | Conflicted
    | Superseded
    | Deferred
    | Failure(kind: Kind, unknown: bool, slept: bool)

  datatype Result =
    | Created | AlreadyThere | ObservedAfterUnknown
    | ConflictFound | CanonicalMoved | PutOff | LimitReached | Blocked | Refused | OutcomeUnknown | GaveUp

  datatype Audit = AuditCreated | AuditObserved
  datatype Mark = MarkDone | MarkConflict | MarkFailed | MarkUnknown
  datatype Verdict = Verdict(result: Result, audit: Option<Audit>, mark: Option<Mark>)

  predicate Retries(attempt: Attempt, number: nat) {
    attempt.Failure? && (attempt.kind.Auth? || attempt.kind.Server? || attempt.kind.Network? || attempt.kind.Timeout?)
    && number < TAG_MAX_ATTEMPTS && attempt.slept
  }

  /** The verdict of the attempt the call stops at. */
  function Conclude(attempt: Attempt, sentUnknown: bool): Verdict {
    match attempt
    case Done(true) => Verdict(Created, Some(AuditCreated), Some(MarkDone))
    case Done(false) =>
      if sentUnknown then Verdict(ObservedAfterUnknown, Some(AuditObserved), Some(MarkDone)) else Verdict(AlreadyThere, None, Some(MarkDone))
    case Conflicted => Verdict(ConflictFound, None, Some(MarkConflict))
    case Superseded => Verdict(CanonicalMoved, None, None)
    case Deferred => Verdict(PutOff, None, None)
    case Failure(kind, unknown, _) =>
      if kind.RateLimited? then Verdict(LimitReached, None, None)
      else if kind.Permission? then Verdict(Blocked, None, Some(MarkFailed))
      else if kind.Unprocessable? then Verdict(Refused, None, Some(MarkFailed))
      else if unknown then Verdict(OutcomeUnknown, None, Some(MarkUnknown))
      else if kind.Aborted? then Verdict(PutOff, None, None)
      else Verdict(GaveUp, None, Some(MarkFailed))
  }

  predicate SomeUnknown(attempts: seq<Attempt>) {
    exists i :: 0 <= i < |attempts| && attempts[i].Failure? && attempts[i].unknown
  }

  /** A complete series: every attempt but the last is retried, the last is not. */
  ghost predicate IsSeries(attempts: seq<Attempt>) {
    && 1 <= |attempts| <= TAG_MAX_ATTEMPTS
    && (forall i :: 0 <= i < |attempts| - 1 ==> Retries(attempts[i], i + 1))
    && !Retries(attempts[|attempts| - 1], |attempts|)
  }

  function Judge(attempts: seq<Attempt>, startUnknown: bool): Verdict
    requires attempts != []
  {
    Conclude(attempts[|attempts| - 1], startUnknown || SomeUnknown(attempts[..|attempts| - 1]))
  }

  /** A row in conflict is left to a person. */
  const UNTOUCHED := Verdict(ConflictFound, None, None)

  predicate EndsDone(verdict: Verdict) {
    verdict.result.Created? || verdict.result.AlreadyThere? || verdict.result.ObservedAfterUnknown?
  }

  // ----- What the attempts of a call do at the remote -----

  /** The remote tag; whether a request of the worker created it; whether one with a lost answer may still. */
  datatype Moment = Moment(ref: Option<Target>, landed: bool, underway: bool)

  /** Nothing is moved or removed; something may appear where nothing was, from the worker if it has a request out. */
  predicate Follows(expected: nat, a: Moment, b: Moment) {
    && (a.ref.Some? ==> b.ref == a.ref)
    && (a.landed ==> b.landed)
    && (b.landed ==> b.ref == Some(Target(expected, true)))
  }

  predicate Waited(expected: nat, a: Moment, b: Moment) {
    Follows(expected, a, b) && b.underway == a.underway && (b.landed ==> a.landed || a.underway)
  }

  /** What an attempt that ended like this may have done: only one that saw no tag sends a request. */
  predicate Played(expected: nat, a: Moment, attempt: Attempt, b: Moment) {
    && Follows(expected, a, b)
    && (attempt != Done(true) && (b.landed || b.underway) ==> a.landed || a.underway || (attempt.Failure? && attempt.unknown))
    && match attempt
       case Done(wrote) => b.ref == Some(Target(expected, true)) && (wrote ==> a.ref.None? && b.landed)
       case Conflicted => b.ref.Some? && b.ref != Some(Target(expected, true))
       case Superseded => a.ref.None?
       case Deferred => true
       case Failure(kind, unknown, _) => unknown ==> LeavesOutcomeUnknown(kind) && a.ref.None?
  }

  /** The moments around the attempts of one call. */
  ghost predicate Plays(expected: nat, moments: seq<Moment>, attempts: seq<Attempt>) {
    && |moments| == |attempts| + 1
    && forall i :: 0 <= i < |attempts| ==> Played(expected, moments[i], attempts[i], moments[i + 1])
  }

  lemma {:induction false} RefStays(expected: nat, moments: seq<Moment>, attempts: seq<Attempt>, i: nat)
    requires Plays(expected, moments, attempts) && i <= |attempts| && moments[0].ref.Some?
    ensures moments[i].ref == moments[0].ref
  {
    if i > 0 {
      RefStays(expected, moments, attempts, i - 1);
      assert Played(expected, moments[i - 1], attempts[i - 1], moments[i]);
    }
  }

  /** A call that starts with the tag in place sends nothing. */
  lemma InPlace(expected: nat, moments: seq<Moment>, attempts: seq<Attempt>)
    requires Plays(expected, moments, attempts) && moments[0].ref.Some?
    ensures !SomeUnknown(attempts) && Done(true) !in attempts
  {
    forall i | 0 <= i < |attempts|
      ensures attempts[i] != Done(true) && !(attempts[i].Failure? && attempts[i].unknown)
    {
      RefStays(expected, moments, attempts, i);
      assert Played(expected, moments[i], attempts[i], moments[i + 1]);
    }
  }

  /** Without a request out before the call, what landed was sent by an attempt that says so. */
  lemma {:induction false} LandedIsKnown(expected: nat, moments: seq<Moment>, attempts: seq<Attempt>, i: nat)
    requires Plays(expected, moments, attempts) && i <= |attempts| && !moments[0].landed && !moments[0].underway
    requires moments[i].landed || moments[i].underway
    ensures SomeUnknown(attempts[..i]) || Done(true) in attempts[..i]
  {
    if i > 0 {
      assert Played(expected, moments[i - 1], attempts[i - 1], moments[i]);
      assert attempts[..i] == attempts[..i - 1] + [attempts[i - 1]];
      UnknownSnoc(attempts[..i - 1], attempts[i - 1]);
      if moments[i - 1].landed || moments[i - 1].underway { LandedIsKnown(expected, moments, attempts, i - 1); }
    }
  }

  lemma PlaysSnoc(expected: nat, moments: seq<Moment>, attempts: seq<Attempt>, attempt: Attempt, next: Moment)
    requires Plays(expected, moments, attempts) && Played(expected, moments[|attempts|], attempt, next)
    ensures Plays(expected, moments + [next], attempts + [attempt])
  {}

  // ----- Calls -----

  class TagCall {
    const expected: nat
    /** The remote tag. */
    var ref: Option<Target>
    var state: Option<Mark>
    var audits: seq<Audit>
    /** A request whose answer was lost may still have its effect. */
    var underway: bool
    /** A request of the worker created the tag. */
    var landed: bool
    ghost var posts: nat
    /** The canonical row still said this tag and this commit when last asked. */
    ghost var current: bool

    ghost predicate Valid()
      reads this
    {
      landed ==> ref == Some(Target(expected, true))
    }

    ghost function Now(): Moment
      reads this
    {
      Moment(ref, landed, underway)
    }

    /** Whatever happens at the remote between two of our requests. */
    method Elsewhere()
      requires Valid()
      modifies this`ref, this`landed
      ensures Valid() && Waited(expected, old(Now()), Now())
    {
      if ref.None? {
        var ours: bool := *;
        var theirs: bool := *;
        if underway && ours {
          ref, landed := Some(Target(expected, true)), true;
        } else if theirs {
          var other: Target := *;
          ref := Some(other);
        }
      }
    }

    method ReadTagRef() returns (failed: Option<Kind>, found: Option<Target>)
      requires Valid()
      modifies this`ref, this`landed
      ensures Valid() && Waited(expected, old(Now()), Now())
      ensures failed.None? ==> found == ref
    {
      Elsewhere();
      found := ref;
      failed := *;
    }

    method IsTagTargetCurrent() returns (ok: bool)
      modifies this`current
      ensures ok == current
    {
      ok := *;
      current := ok;
    }

    /** Creates the ref if there is none; a lost answer says nothing. Only sent for a row just found current. */
    method CreateTagRef() returns (failed: Option<Kind>)
      requires Valid() && current
      modifies this`ref, this`landed, this`posts, this`underway
      ensures Valid() && Follows(expected, old(Now()), Now()) && posts == old(posts) + 1
      ensures failed.None? ==> landed && underway == old(underway)
      ensures failed.Some? && !LeavesOutcomeUnknown(failed.value) ==> underway == old(underway) && (landed ==> old(landed) || underway)
    {
      Elsewhere();
      posts := posts + 1;
      var takesEffect: bool := *;
      var kind: Kind := *;
      if ref.None? && takesEffect {
        ref, landed := Some(Target(expected, true)), true;
        failed := if LeavesOutcomeUnknown(kind) then Some(kind) else None;
      } else {
        underway := underway || LeavesOutcomeUnknown(kind);
        failed := Some(kind);
      }
    }

    /** One attempt: at most one changing request, and none without having found the tag absent. */
    method AttemptOnce() returns (outcome: Attempt)
      requires Valid()
      modifies this`ref, this`landed, this`posts, this`underway, this`current
      ensures Valid() && Played(expected, old(Now()), outcome, Now())
      ensures old(posts) <= posts <= old(posts) + 1 && (posts > old(posts) ==> current && old(ref).None?)
    {
      var expired: bool := *;
      if expired { return Deferred; }
      var failed, found := ReadTagRef();
      var slept: bool := *;
      if failed.Some? { return Failure(failed.value, false, slept); }
      match DecideTagAction(expected, found) {
        case AlreadyDone => return Done(false);
        case Conflict => return Conflicted;
        case Create =>
      }
      var turn: bool := *;
      if !turn { return Deferred; }
      var ok := IsTagTargetCurrent();
      if !ok { return Superseded; }
      expired := *;
      if expired { return Deferred; }
      var refused := CreateTagRef();
      if refused.None? { return Done(true); }
      if refused.value.Unprocessable? {
        var failedAgain, again := ReadTagRef();
        if failedAgain.Some? { return Failure(failedAgain.value, false, slept); }
        match DecideTagAction(expected, again) {
          case AlreadyDone => return Done(false);
          case Conflict => return Conflicted;
          case Create => return Failure(Unprocessable, false, slept);
        }
      }
      outcome := Failure(refused.value, LeavesOutcomeUnknown(refused.value), slept);
    }

    /** The audit record and the row's mark that a verdict asks for. */
    method Record(verdict: Verdict)
      modifies this`audits, this`state
      ensures audits == old(audits) + Audited(verdict) && state == StateAfter(old(state), verdict)
    {
      if verdict.audit.Some? { audits := audits + [verdict.audit.value]; }
      if verdict.mark.Some? { state := verdict.mark; }
    }

    /**
     The retry loop. Every retry decides again from what is there. A tag somebody sees is never moved; a request
     is only sent for a row just found current; and a call that ends done after one of its own requests had its
     effect writes exactly one audit record.
     */
    method Materialize() returns (verdict: Verdict, ghost attempts: seq<Attempt>, ghost moments: seq<Moment>)
      requires Valid()
      modifies this
      ensures old(state) == Some(MarkConflict) ==> attempts == [] && verdict == UNTOUCHED && posts == old(posts)
      ensures Valid() && Plays(expected, moments, attempts) && moments[0] == old(Now()) && moments[|attempts|] == Now()
      ensures posts <= old(posts) + TAG_MAX_ATTEMPTS && (old(ref).Some? ==> posts == old(posts))
      ensures old(ref).Some? ==> ref == old(ref)
      ensures old(state) != Some(MarkConflict) ==> IsSeries(attempts) && verdict == Judge(attempts, old(state) == Some(MarkUnknown))
      ensures audits == old(audits) + Audited(verdict)
      ensures state == StateAfter(old(state), verdict)
      ensures EndsDone(verdict) ==> ref == Some(Target(expected, true))
      ensures EndsDone(verdict) && landed && !old(landed) && !old(underway) ==> verdict.audit.Some?
      ensures (landed || underway) && !old(landed) && !old(underway) && !EndsDone(verdict) ==> SomeUnknown(attempts)
      ensures verdict.result.Created? ==> landed
      ensures verdict.mark == Some(MarkConflict) ==> ref.Some? && ref != Some(Target(expected, true))
    {
      hide Plays, Played, SomeUnknown, Waited, Follows, Conclude, Judge, IsSeries, Retries;
      attempts, moments := [], [Now()];
      NothingPlayed(expected, Now());
      if state == Some(MarkConflict) { return UNTOUCHED, [], moments; }
      var sentUnknown := state == Some(MarkUnknown);
      var number := 1;
      while true
        invariant 1 <= number <= TAG_MAX_ATTEMPTS && |attempts| == number - 1
        invariant Valid() && posts <= old(posts) + |attempts| && (old(ref).Some? ==> posts == old(posts))
        invariant Plays(expected, moments, attempts) && |moments| == number && moments[0] == old(Now()) && moments[|attempts|] == Now()
        invariant audits == old(audits) && state == old(state)
        invariant AllRetried(attempts)
        invariant sentUnknown == (old(state) == Some(MarkUnknown) || SomeUnknown(attempts))
        decreases TAG_MAX_ATTEMPTS - number
      {
        ghost var before := attempts;
        if old(ref).Some? { RefStays(expected, moments, attempts, |attempts|); }
        assert old(ref).Some? ==> ref == old(ref);
        label again:
        var outcome := AttemptOnce();
        PlayedEnd(expected, old@again(Now()), outcome, Now());
        PlaysSnoc(expected, moments, attempts, outcome, Now());
        UnknownSnoc(before, outcome);
        attempts, moments := attempts + [outcome], moments + [Now()];
        if Retries(outcome, number) {
          RetriedSnoc(before, outcome);
          sentUnknown := sentUnknown || outcome.unknown;
          number := number + 1;
        } else {
          SeriesEnd(before, outcome, old(state));
          verdict := Conclude(outcome, sentUnknown);
          if old(ref).Some? { RefStays(expected, moments, attempts, |attempts|); }
          if EndsDone(verdict) && landed && !old(landed) && !old(underway) { OwnIsAudited(expected, moments, attempts, old(state)); }
          if (landed || underway) && !old(landed) && !old(underway) && !EndsDone(verdict) {
            LandedUnfinished(expected, moments, attempts, old(state));
          }
          Record(verdict);
          return;
        }
      }
    }

    /**
     Two calls one after the other, anything happening in between. If the second ends done, it writes an audit
     record exactly if it wrote the tag, had an unknown attempt itself, or the first one left the row unknown; with
     the worker's tag in place when it starts, exactly if the first left it so.
     */
    method TwoCalls() returns (first: Verdict, second: Verdict, ghost call: Call, ghost next: Call, ghost present: bool)
      requires Valid() && state != Some(MarkConflict)
      modifies this
      ensures Valid() && Made(expected, call) && first == Judge(call.attempts, old(state) == Some(MarkUnknown))
      ensures !old(landed) && !old(underway) && present ==> EndsDone(first) || SomeUnknown(call.attempts)
      ensures !EndsDone(first) && EndsDone(second) ==>
                && Made(expected, next)
                && (second.audit.Some? <==>
                    LastOf(next) == Done(true) || SomeUnknown(next.attempts) || StillUnknown(LastOf(call), old(state)))
      ensures !EndsDone(first) && present && EndsDone(second) ==> (second.audit.Some? <==> StillUnknown(LastOf(call), old(state)))
      ensures audits == old(audits) + Audited(first) + Audited(second)
    {
      hide Plays, Played, SomeUnknown, Judge, IsSeries, StillUnknown;
      ghost var attempts: seq<Attempt>;
      ghost var moments: seq<Moment>;
      first, attempts, moments := Materialize();
      call := Call(moments, attempts);
      SeriesLength(attempts);
      Elsewhere();
      present := landed;
      second, attempts, moments := Materialize();
      next := Call(moments, attempts);
      if !EndsDone(first) && EndsDone(second) {
        SeriesLength(next.attempts);
        DoneIffLast(call, old(state));
        DoneIffLast(next, StateAfter(old(state), first));
        TwoAuditsIff(expected, call, old(state), next);
        if present { NextCallAuditsIff(expected, call, old(state), next); }
      }
    }
  }

  lemma NothingPlayed(expected: nat, now: Moment)
    ensures Plays(expected, [now], []) && !SomeUnknown([]) && AllRetried([])
  {}

  ghost predicate AllRetried(attempts: seq<Attempt>) {
    forall i :: 0 <= i < |attempts| ==> Retries(attempts[i], i + 1)
  }

  lemma RetriedSnoc(attempts: seq<Attempt>, last: Attempt)
    requires AllRetried(attempts) && Retries(last, |attempts| + 1)
    ensures AllRetried(attempts + [last]) && last.Failure? && |attempts| + 1 < TAG_MAX_ATTEMPTS
  {}

  lemma SeriesEnd(attempts: seq<Attempt>, last: Attempt, before: Option<Mark>)
    requires AllRetried(attempts) && |attempts| < TAG_MAX_ATTEMPTS && !Retries(last, |attempts| + 1)
    ensures
      var startUnknown := before == Some(MarkUnknown);
      var verdict := Conclude(last, startUnknown || SomeUnknown(attempts));
      && IsSeries(attempts + [last]) && Judge(attempts + [last], startUnknown) == verdict
      && (EndsDone(verdict) <==> last.Done?) && (verdict.result.Created? ==> last == Done(true))
      && (verdict.mark == Some(MarkConflict) ==> last.Conflicted?)
  {
    var all := attempts + [last];
    assert all[..|all| - 1] == attempts;
    assert forall i :: 0 <= i < |attempts| ==> all[i] == attempts[i];
  }

  lemma SeriesLength(attempts: seq<Attempt>)
    requires IsSeries(attempts)
    ensures attempts != []
  {}

  lemma PlayedEnd(expected: nat, a: Moment, attempt: Attempt, b: Moment)
    requires Played(expected, a, attempt, b)
    ensures attempt.Done? ==> b.ref == Some(Target(expected, true))
    ensures attempt == Done(true) ==> b.landed
    ensures attempt.Conflicted? ==> b.ref.Some? && b.ref != Some(Target(expected, true))
  {}

  lemma UnknownSnoc(attempts: seq<Attempt>, last: Attempt)
    ensures SomeUnknown(attempts + [last]) <==> SomeUnknown(attempts) || (last.Failure? && last.unknown)
  {
    var all := attempts + [last];
    if SomeUnknown(attempts) {
      var i :| 0 <= i < |attempts| && attempts[i].Failure? && attempts[i].unknown;
      assert all[i] == attempts[i];
    }
    if last.Failure? && last.unknown { assert all[|attempts|] == last; }
  }

  // ----- Across calls -----

  /** What the row says after a call: its mark, or what it said before if the call left none. */
  function StateAfter(before: Option<Mark>, verdict: Verdict): Option<Mark> {
    if verdict.mark.Some? then verdict.mark else before
  }

  function Audited(verdict: Verdict): seq<Audit> {
    if verdict.audit.Some? then [verdict.audit.value] else []
  }

  /** A call that ends done after a request of its own had its effect writes an audit record. */
  lemma OwnIsAudited(expected: nat, moments: seq<Moment>, attempts: seq<Attempt>, before: Option<Mark>)
    requires Plays(expected, moments, attempts) && IsSeries(attempts) && !moments[0].landed && !moments[0].underway
    requires moments[|attempts|].landed && EndsDone(Judge(attempts, before == Some(MarkUnknown)))
    ensures Judge(attempts, before == Some(MarkUnknown)).audit.Some?
  {
    hide Played;
    var init, last := attempts[..|attempts| - 1], attempts[|attempts| - 1];
    LandedIsKnown(expected, moments, attempts, |attempts|);
    assert attempts[..|attempts|] == attempts == init + [last];
    UnknownSnoc(init, last);
    OnlyRetried(attempts);
  }

  /** No attempt before the last one of a series ended the call. */
  lemma OnlyRetried(attempts: seq<Attempt>)
    requires IsSeries(attempts)
    ensures forall i :: 0 <= i < |attempts| - 1 ==> !attempts[i].Done?
  {
    assert forall i :: 0 <= i < |attempts| - 1 ==> Retries(attempts[i], i + 1);
  }

  /** After a call that did not end done, only an unknown request of it can have left or leave a tag. */
  lemma LandedUnfinished(expected: nat, moments: seq<Moment>, attempts: seq<Attempt>, before: Option<Mark>)
    requires Plays(expected, moments, attempts) && IsSeries(attempts) && !moments[0].landed && !moments[0].underway
    requires moments[|attempts|].landed || moments[|attempts|].underway
    requires !EndsDone(Judge(attempts, before == Some(MarkUnknown)))
    ensures SomeUnknown(attempts)
  {
    hide Played;
    LandedIsKnown(expected, moments, attempts, |attempts|);
    assert attempts[..|attempts|] == attempts;
    OnlyRetried(attempts);
  }

  /** The row says unknown after a call with this last attempt that did not end done. */
  predicate StillUnknown(last: Attempt, before: Option<Mark>) {
    EndsUnknown(last) || (before == Some(MarkUnknown) && LeavesNoMark(last))
  }

  predicate EndsUnknown(last: Attempt) {
    last.Failure? && last.unknown
  }

  predicate LeavesNoMark(last: Attempt) {
    last.Superseded? || last.Deferred? || (last.Failure? && (last.kind.RateLimited? || last.kind.Aborted?))
  }

  /**
   A call that did not end done leaves the row saying that the outcome is unknown exactly if its last attempt
   was itself such a failure, or the row said so before and the call left no mark. An unknown request earlier
   in the same call does not count.
   */
  lemma JudgeKeepsUnknownIff(attempts: seq<Attempt>, before: Option<Mark>)
    requires IsSeries(attempts)
    requires forall i :: 0 <= i < |attempts| && attempts[i].Failure? && attempts[i].unknown ==> LeavesOutcomeUnknown(attempts[i].kind)
    ensures
      var verdict := Judge(attempts, before == Some(MarkUnknown));
      !EndsDone(verdict) ==>
        (StateAfter(before, verdict) == Some(MarkUnknown) <==> StillUnknown(attempts[|attempts| - 1], before))
  {}

  lemma DoneIffLast(call: Call, before: Option<Mark>)
    requires call.attempts != []
    ensures EndsDone(Judge(call.attempts, before == Some(MarkUnknown))) <==> LastOf(call).Done?
  {}

  // ----- Any number of calls -----

  datatype Call = Call(moments: seq<Moment>, attempts: seq<Attempt>)

  function LastOf(call: Call): Attempt
    requires call.attempts != []
  {
    call.attempts[|call.attempts| - 1]
  }

  ghost predicate Made(expected: nat, call: Call) {
    Plays(expected, call.moments, call.attempts) && IsSeries(call.attempts)
  }

  lemma MadeLengths(expected: nat, call: Call)
    requires Made(expected, call)
    ensures call.attempts != [] && |call.moments| == |call.attempts| + 1
  {}

  /** What the row says after these calls. */
  function RowAfter(calls: seq<Call>, before: Option<Mark>): Option<Mark>
    requires forall k :: 0 <= k < |calls| ==> calls[k].attempts != []
  {
    if calls == [] then before
    else
      var row := RowAfter(calls[..|calls| - 1], before);
      StateAfter(row, Judge(calls[|calls| - 1].attempts, row == Some(MarkUnknown)))
  }

  ghost predicate NoneDone(calls: seq<Call>) {
    forall k :: 0 <= k < |calls| ==> calls[k].attempts != [] && !LastOf(calls[k]).Done?
  }

  /** A call ended with an unknown attempt, or the row was unknown from the start, and no later call left a mark. */
  ghost predicate UnknownLeft(calls: seq<Call>, before: Option<Mark>)
    requires forall k :: 0 <= k < |calls| ==> calls[k].attempts != []
  {
    || (before == Some(MarkUnknown) && forall j :: 0 <= j < |calls| ==> LeavesNoMark(LastOf(calls[j])))
    || exists i :: 0 <= i < |calls| && EndsUnknown(LastOf(calls[i])) && forall j :: i < j < |calls| ==> LeavesNoMark(LastOf(calls[j]))
  }

  lemma MadeHonest(expected: nat, call: Call)
    requires Made(expected, call)
    ensures forall i :: 0 <= i < |call.attempts| && call.attempts[i].Failure? && call.attempts[i].unknown ==>
              LeavesOutcomeUnknown(call.attempts[i].kind)
  {
    forall i | 0 <= i < |call.attempts| && call.attempts[i].Failure? && call.attempts[i].unknown
      ensures LeavesOutcomeUnknown(call.attempts[i].kind)
    {
      assert Played(expected, call.moments[i], call.attempts[i], call.moments[i + 1]);
    }
  }

  lemma UnknownLeftSnoc(calls: seq<Call>, last: Call, before: Option<Mark>)
    requires forall k :: 0 <= k < |calls| ==> calls[k].attempts != []
    requires last.attempts != []
    ensures UnknownLeft(calls + [last], before) <==> EndsUnknown(LastOf(last)) || (UnknownLeft(calls, before) && LeavesNoMark(LastOf(last)))
  {
    var all := calls + [last];
    assert all[|calls|] == last && forall k :: 0 <= k < |calls| ==> all[k] == calls[k];
    if UnknownLeft(all, before) && !(before == Some(MarkUnknown) && forall j :: 0 <= j < |all| ==> LeavesNoMark(LastOf(all[j]))) {
      var i :| 0 <= i < |all| && EndsUnknown(LastOf(all[i])) && forall j :: i < j < |all| ==> LeavesNoMark(LastOf(all[j]));
      if i < |calls| { assert EndsUnknown(LastOf(calls[i])) && LeavesNoMark(LastOf(all[|calls|])); }
    }
    if UnknownLeft(calls, before) && LeavesNoMark(LastOf(last)) &&
       !(before == Some(MarkUnknown) && forall j :: 0 <= j < |calls| ==> LeavesNoMark(LastOf(calls[j]))) {
      var i :| 0 <= i < |calls| && EndsUnknown(LastOf(calls[i])) && forall j :: i < j < |calls| ==> LeavesNoMark(LastOf(calls[j]));
      assert EndsUnknown(LastOf(all[i]));
    }
    if EndsUnknown(LastOf(last)) { assert EndsUnknown(LastOf(all[|calls|])); }
  }

  /** After any number of calls that did not end done the row is unknown exactly if one of them, or the start, left it so. */
  lemma {:induction false} RowUnknownIff(expected: nat, calls: seq<Call>, before: Option<Mark>)
    requires NoneDone(calls) && forall k :: 0 <= k < |calls| ==> Made(expected, calls[k])
    ensures RowAfter(calls, before) == Some(MarkUnknown) <==> UnknownLeft(calls, before)
    decreases |calls|
  {
    hide Made, StateAfter, Judge, EndsUnknown, LeavesNoMark;
    if calls != [] {
      var init, last := calls[..|calls| - 1], calls[|calls| - 1];
      assert calls == init + [last];
      RowUnknownIff(expected, init, before);
      UnknownLeftSnoc(init, last, before);
      CallKeepsUnknown(expected, last, RowAfter(init, before));
    }
  }

  lemma CallKeepsUnknown(expected: nat, call: Call, before: Option<Mark>)
    requires Made(expected, call) && !LastOf(call).Done?
    ensures
      var row := StateAfter(before, Judge(call.attempts, before == Some(MarkUnknown)));
      row == Some(MarkUnknown) <==> EndsUnknown(LastOf(call)) || (before == Some(MarkUnknown) && LeavesNoMark(LastOf(call)))
  {
    MadeHonest(expected, call);
    JudgeKeepsUnknownIff(call.attempts, before);
  }

  /**
   Whatever happened in any number of calls that did not end done, and whenever the tag appeared: a call that then
   ends done writes an audit record exactly if it wrote the tag, had an unknown attempt itself, or found the row
   unknown because an earlier call ended so and none since left a mark.
   */
  lemma AnyCallAuditsIff(expected: nat, calls: seq<Call>, before: Option<Mark>, last: Call)
    requires NoneDone(calls) && forall k :: 0 <= k < |calls| ==> Made(expected, calls[k])
    requires Made(expected, last) && LastOf(last).Done?
    ensures
      Judge(last.attempts, RowAfter(calls, before) == Some(MarkUnknown)).audit.Some? <==>
      LastOf(last) == Done(true) || SomeUnknown(last.attempts) || UnknownLeft(calls, before)
  {
    hide Made, UnknownLeft, RowAfter;
    RowUnknownIff(expected, calls, before);
    MadeLengths(expected, last);
    var init := last.attempts[..|last.attempts| - 1];
    assert last.attempts == init + [LastOf(last)];
    UnknownSnoc(init, LastOf(last));
  }

  /** One call after the other at the same remote, nothing of the worker there or out before the first. */
  ghost predicate InTurn(expected: nat, calls: seq<Call>) {
    && (forall k :: 0 <= k < |calls| ==> Made(expected, calls[k]))
    && (calls != [] ==> !calls[0].moments[0].landed && !calls[0].moments[0].underway)
    && forall k :: 0 < k < |calls| ==>
         Waited(expected, calls[k - 1].moments[|calls[k - 1].attempts|], calls[k].moments[0])
  }

  lemma {:induction false} NothingOut(expected: nat, calls: seq<Call>, k: nat)
    requires InTurn(expected, calls) && k < |calls| && NoneDone(calls[..k])
    requires forall i :: 0 <= i < k ==> !SomeUnknown(calls[i].attempts)
    ensures !calls[k].moments[0].landed && !calls[k].moments[0].underway
  {
    hide Made, SomeUnknown;
    if k > 0 {
      var call := calls[k - 1];
      assert NoneDone(calls[..k - 1]) by {
        assert forall i :: 0 <= i < k - 1 ==> calls[..k - 1][i] == calls[..k][i];
      }
      NothingOut(expected, calls, k - 1);
      assert calls[..k][k - 1] == call;
      MadeLengths(expected, call);
      if call.moments[|call.attempts|].landed || call.moments[|call.attempts|].underway { LeftUnknown(expected, call); }
    }
  }

  lemma LeftUnknown(expected: nat, call: Call)
    requires Made(expected, call) && !LastOf(call).Done? && !call.moments[0].landed && !call.moments[0].underway
    requires call.moments[|call.attempts|].landed || call.moments[|call.attempts|].underway
    ensures SomeUnknown(call.attempts)
  {
    LandedUnfinished(expected, call.moments, call.attempts, None);
  }

  /** The only way a tag of the worker's ends unaudited: an unknown attempt in an earlier call, and the row no longer says so. */
  lemma UnauditedWasUnknown(expected: nat, calls: seq<Call>, before: Option<Mark>) returns (i: nat)
    requires InTurn(expected, calls) && calls != [] && NoneDone(calls[..|calls| - 1])
    requires
      var last := calls[|calls| - 1];
      LastOf(last).Done? && last.moments[|last.attempts|].landed &&
      Judge(last.attempts, RowAfter(calls[..|calls| - 1], before) == Some(MarkUnknown)).audit.None?
    ensures i < |calls| - 1 && SomeUnknown(calls[i].attempts) && !UnknownLeft(calls[..|calls| - 1], before)
  {
    hide Made, UnknownLeft, RowAfter, SomeUnknown;
    var init, last := calls[..|calls| - 1], calls[|calls| - 1];
    assert Made(expected, last);
    AnyCallAuditsIff(expected, init, before, last);
    if forall k :: 0 <= k < |init| ==> !SomeUnknown(calls[k].attempts) {
      NothingOut(expected, calls, |calls| - 1);
      OwnCallAudited(expected, last, RowAfter(init, before));
      assert false;
    }
    i :| 0 <= i < |init| && SomeUnknown(calls[i].attempts);
  }

  lemma OwnCallAudited(expected: nat, call: Call, before: Option<Mark>)
    requires Made(expected, call) && LastOf(call).Done? && !call.moments[0].landed && !call.moments[0].underway
    requires call.moments[|call.attempts|].landed
    ensures Judge(call.attempts, before == Some(MarkUnknown)).audit.Some?
  {
    OwnIsAudited(expected, call.moments, call.attempts, before);
  }

  lemma TwoAuditsIff(expected: nat, first: Call, before: Option<Mark>, second: Call)
    requires Made(expected, first) && !LastOf(first).Done? && Made(expected, second) && LastOf(second).Done?
    ensures
      var state := StateAfter(before, Judge(first.attempts, before == Some(MarkUnknown)));
      Judge(second.attempts, state == Some(MarkUnknown)).audit.Some? <==>
      LastOf(second) == Done(true) || SomeUnknown(second.attempts) || StillUnknown(LastOf(first), before)
  {
    hide Made, SomeUnknown, Judge, StateAfter;
    MadeLengths(expected, first);
    AnyCallAuditsIff(expected, [first], before, second);
    assert [first][..0] == [];
    assert RowAfter([first], before) == StateAfter(before, Judge(first.attempts, before == Some(MarkUnknown)));
    RowUnknownIff(expected, [first], before);
    CallKeepsUnknown(expected, first, before);
  }

  /**
   A first call that did not end done, then a second that starts with the tag in place and ends done: the second
   writes an audit record exactly if the first one's last attempt left the row unknown.
   */
  lemma NextCallAuditsIff(expected: nat, first: Call, before: Option<Mark>, second: Call)
    requires Made(expected, first) && !LastOf(first).Done? && Made(expected, second) && LastOf(second).Done?
    requires second.moments[0].ref.Some?
    ensures
      var state := StateAfter(before, Judge(first.attempts, before == Some(MarkUnknown)));
      Judge(second.attempts, state == Some(MarkUnknown)).audit.Some? <==> StillUnknown(LastOf(first), before)
  {
    TwoAuditsIff(expected, first, before, second);
    InPlace(expected, second.moments, second.attempts);
  }

  /** A first request that timed out after creating the tag, then the end of the budget: no call audits it. */
  lemma UnknownForgotten(expected: nat)
    ensures
      var nothing, created := Moment(None, false, false), Moment(Some(Target(expected, true)), true, false);
      var first, second := Call([nothing, created, created], [Failure(Timeout, true, true), Deferred]), Call([created, created], [Done(false)]);
      && InTurn(expected, [first, second]) && NoneDone([first]) && LastOf(second).Done?
      && Judge(first.attempts, false) == Verdict(PutOff, None, None)
      && Judge(second.attempts, RowAfter([first], None) == Some(MarkUnknown)) == Verdict(AlreadyThere, None, Some(MarkDone))
  {
    var nothing, created := Moment(None, false, false), Moment(Some(Target(expected, true)), true, false);
    var first, second := Call([nothing, created, created], [Failure(Timeout, true, true), Deferred]), Call([created, created], [Done(false)]);
    assert Judge(first.attempts, false) == Verdict(PutOff, None, None);
    assert [first][..0] == [];
    NextCallAuditsIff(expected, first, None, second);
  }
}
