/**
 Sources whose links missed the index under construction, and their recovery before the alias moves.

 A miss writes a row for its source or raises the row's generation. The recovery pages through the rows, derives
 each source again, and deletes a row only at the generation it read; between any two of its steps more misses
 may come, but no other recovery works on the queue. Times are a ghost clock. Sources are numbered in key order
 below `sources`.

 Main results: `LinkQueue.RecoverLinkPending`, `LinkQueue.Cutover`.
 */
module LinkRecovery {
  import opened Wrappers

  const LINK_RECOVERY_ROUNDS := 5
  const LINK_RECOVERY_PAGE := 200
  const LINK_CUTOVER_ATTEMPTS := 3

  type Pending = map<nat, nat>

  function Recorded(pending: Pending, source: nat): Pending {
    pending[source := if source in pending then pending[source] + 1 else 1]
  }

  function Deleted(pending: Pending, source: nat, generation: nat): Pending {
    if source in pending && pending[source] == generation then pending - {source} else pending
  }

  datatype Row = Row(source: nat, generation: nat)

  /** A page in key order: the first rows after the cursor, up to the limit. */
  ghost predicate IsPage(rows: seq<Row>, pending: Pending, after: int) {
    && |rows| <= LINK_RECOVERY_PAGE
    && (forall i :: 0 <= i < |rows| ==> rows[i].source > after && rows[i].source in pending && pending[rows[i].source] == rows[i].generation)
    && (forall i, j :: 0 <= i < j < |rows| ==> rows[i].source < rows[j].source)
    && (forall s :: s in pending && s > after && (rows == [] || s <= rows[|rows| - 1].source || |rows| < LINK_RECOVERY_PAGE) ==>
          exists i :: 0 <= i < |rows| && rows[i].source == s)
  }

  datatype Derivation = Complete | Absent | Incomplete

  function Sources(rows: seq<Row>): set<nat> {
    set i | 0 <= i < |rows| :: rows[i].source
  }

  lemma NoSources(pending: Pending)
    ensures pending - Sources([]) == pending
  {
    assert Sources([]) == {};
  }

  /** Deleting one row after the other, each at the generation read, takes away their sources. */
  lemma DeletedNext(pending: Pending, rows: seq<Row>, i: nat)
    requires i < |rows| && forall j, k :: 0 <= j < k < |rows| ==> rows[j].source != rows[k].source
    requires rows[i].source in pending && pending[rows[i].source] == rows[i].generation
    ensures Deleted(pending - Sources(rows[..i]), rows[i].source, rows[i].generation) == pending - Sources(rows[..i + 1])
  {
    assert rows[..i + 1] == rows[..i] + [rows[i]];
    assert (rows[..i] + [rows[i]])[i] == rows[i];
    assert forall k :: 0 <= k < i ==> rows[..i + 1][k] == rows[..i][k];
    assert Sources(rows[..i + 1]) == Sources(rows[..i]) + {rows[i].source};
  }

  /** With the rows of a page gone, what is left lies behind it; and nothing is, if the page was not full. */
  lemma BehindPage(pending: Pending, rows: seq<Row>, after: int)
    requires IsPage(rows, pending, after) && forall s :: s in pending ==> s > after
    ensures |rows| < LINK_RECOVERY_PAGE ==> pending - Sources(rows) == map[]
    ensures rows != [] ==> forall s :: s in pending - Sources(rows) ==> s > rows[|rows| - 1].source
  {
    forall s | s in pending && (rows == [] || s <= rows[|rows| - 1].source || |rows| < LINK_RECOVERY_PAGE)
      ensures s in Sources(rows)
    {
      var i :| 0 <= i < |rows| && rows[i].source == s;
    }
  }

  class LinkQueue {
    const sources: nat
    var pending: Pending
    ghost var clock: nat
    /** When a source last missed, and when its last complete derivation, or the finding that it is gone, began. */
    ghost var missedAt: map<nat, nat>
    ghost var derivedAt: map<nat, nat>
    /** How often a source missed or a derivation was left incomplete. */
    ghost var setbacks: nat

    /** Every miss still has its row, or was followed by a complete derivation that began after it. */
    ghost predicate Accounted()
      reads this
    {
      && (forall s :: s in pending ==> s < sources && s in missedAt)
      && (forall s :: s in missedAt ==> missedAt[s] <= clock)
      && (forall s :: s in missedAt && s !in pending ==> s in derivedAt && missedAt[s] < derivedAt[s])
    }

    /** Rows are only added and raised; one that was not raised was not missed again, and a new one was missed just now. */
    twostate predicate OnlyMisses()
      reads this
    {
      && old(clock) <= clock && derivedAt == old(derivedAt)
      && old(setbacks) <= setbacks && (setbacks == old(setbacks) ==> pending == old(pending))
      && (forall s :: s in old(pending) ==> s in pending && old(pending)[s] <= pending[s])
      && (forall s :: s in old(pending) && s in old(missedAt) && pending[s] == old(pending)[s] ==>
                      s in missedAt && missedAt[s] == old(missedAt)[s])
      && (forall s :: s in pending && s !in old(pending) ==> s in missedAt && old(clock) < missedAt[s])
      && (forall s :: s in old(missedAt) ==> s in missedAt && old(missedAt)[s] <= missedAt[s])
    }

    method Miss(source: nat)
      requires Accounted() && source < sources
      modifies this
      ensures Accounted() && OnlyMisses() && pending == Recorded(old(pending), source)
    {
      clock, setbacks := clock + 1, setbacks + 1;
      pending := Recorded(pending, source);
      missedAt := missedAt[source := clock];
    }

    /** Other writers, between two steps of this runner. */
    method Elsewhere()
      requires Accounted()
      modifies this
      ensures Accounted() && OnlyMisses() && old(clock) <= clock && old(setbacks) <= setbacks
      ensures setbacks == old(setbacks) ==> pending == old(pending)
    {
      var misses: int := *;
      while misses > 0
        invariant Accounted() && OnlyMisses()
      {
        var source: nat := *;
        if source < sources {
          Miss(source);
        }
        misses := misses - 1;
      }
    }

    method ListPending(after: int) returns (rows: seq<Row>)
      requires after >= -1
      requires forall s :: s in pending ==> s < sources
      ensures IsPage(rows, pending, after)
    {
      rows := [];
      var s := after + 1;
      while s < sources && |rows| < LINK_RECOVERY_PAGE
        invariant after < s && |rows| <= LINK_RECOVERY_PAGE
        invariant forall i :: 0 <= i < |rows| ==>
                    after < rows[i].source < s && rows[i].source in pending && pending[rows[i].source] == rows[i].generation
        invariant forall i, j :: 0 <= i < j < |rows| ==> rows[i].source < rows[j].source
        invariant forall q :: q in pending && after < q < s ==> exists i :: 0 <= i < |rows| && rows[i].source == q
      {
        if s in pending {
          ghost var before := rows;
          rows := rows + [Row(s, pending[s])];
          assert rows[|before|].source == s;
          assert forall i :: 0 <= i < |before| ==> rows[i] == before[i];
        }
        s := s + 1;
      }
    }

    /** Derives one source from its snapshot; what it finds is complete, gone, or not finished. */
    method Rederive(source: nat) returns (outcome: Derivation)
      requires Accounted()
      modifies this
      ensures Accounted()
      ensures old(clock) <= clock && (forall s :: s in old(pending) ==> s in pending && old(pending)[s] <= pending[s])
      ensures forall s :: s in old(pending) && s in old(missedAt) && pending[s] == old(pending)[s] ==>
                            s in missedAt && missedAt[s] == old(missedAt)[s]
      ensures !outcome.Incomplete? ==> source in derivedAt && old(clock) < derivedAt[source]
      ensures forall s :: s in old(derivedAt) ==> s in derivedAt && old(derivedAt)[s] <= derivedAt[s]
      ensures old(setbacks) <= setbacks && (setbacks == old(setbacks) ==> pending == old(pending) && !outcome.Incomplete?)
    {
      clock := clock + 1;
      ghost var began := clock;
      label start:
      Elsewhere();
      outcome := *;
      if outcome.Incomplete? {
        setbacks := setbacks + 1;
      } else {
        derivedAt := derivedAt[source := if source in derivedAt && derivedAt[source] > began then derivedAt[source] else began];
      }
    }

    /** Deletes a recovered row only at the generation that was read. */
    method DeletePending(row: Row)
      requires Accounted()
      requires row.source in pending && pending[row.source] == row.generation ==>
                 row.source in derivedAt && missedAt[row.source] < derivedAt[row.source]
      modifies this`pending
      ensures Accounted() && pending == Deleted(old(pending), row.source, row.generation)
    {
      pending := Deleted(pending, row.source, row.generation);
    }

    /** The rows read are still there, and one that was not raised was last missed before they were read. */
    ghost predicate InHand(rows: seq<Row>, from: nat, readAt: nat)
      reads this
    {
      && from <= |rows| && readAt <= clock
      && (forall i :: from <= i < |rows| ==>
            && rows[i].source in pending && rows[i].generation <= pending[rows[i].source]
            && (pending[rows[i].source] == rows[i].generation ==>
                  rows[i].source in missedAt && missedAt[rows[i].source] <= readAt))
    }

    ghost predicate AsRead(rows: seq<Row>)
      reads this
    {
      forall i :: 0 <= i < |rows| ==> rows[i].source in pending && pending[rows[i].source] == rows[i].generation
    }

    /** Recovers one page; without a setback exactly the rows read are gone afterwards. */
    method RecoverPage(rows: seq<Row>)
      requires Accounted() && InHand(rows, 0, clock)
      requires forall i, j :: 0 <= i < j < |rows| ==> rows[i].source != rows[j].source
      modifies this
      ensures Accounted() && old(clock) <= clock && old(setbacks) <= setbacks
      ensures setbacks == old(setbacks) && old(AsRead(rows)) ==> pending == old(pending) - Sources(rows)
    {
      hide Sources;
      ghost var readAt, before, exact := clock, pending, AsRead(rows);
      NoSources(pending);
      var i := 0;
      while i < |rows|
        invariant 0 <= i <= |rows| && Accounted() && InHand(rows, i, readAt) && old(setbacks) <= setbacks
        invariant setbacks == old(setbacks) && exact ==> pending == before - Sources(rows[..i])
      {
        if exact { DeletedNext(before, rows, i); }
        var outcome := Rederive(rows[i].source);
        if !outcome.Incomplete? {
          DeletePending(rows[i]);
        }
        i := i + 1;
      }
      assert rows[..|rows|] == rows;
    }

    /** What waits was missed after this time: the queue was empty then. */
    ghost predicate EmptyAt(time: nat)
      reads this
    {
      time <= clock && forall s :: s in pending ==> s in missedAt && time < missedAt[s]
    }

    twostate lemma StillEmptyAt(time: nat)
      requires old(EmptyAt(time)) && OnlyMisses()
      requires forall s :: s in pending ==> s in missedAt
      ensures EmptyAt(time)
    {}

    lemma NothingListed()
      requires Accounted() && IsPage([], pending, -1)
      ensures EmptyAt(clock) && pending == map[]
    {
      assert forall s :: s in pending ==> s > -1;
    }

    /** One round over the queue, page by page; without a setback it empties the queue. */
    method RecoverRound() returns (seen: nat, ghost emptyAt: nat)
      requires Accounted()
      modifies this
      ensures Accounted() && old(clock) <= clock
      ensures seen == 0 ==> old(clock) <= emptyAt && EmptyAt(emptyAt)
      ensures old(setbacks) <= setbacks && (setbacks == old(setbacks) ==> pending == map[])
    {
      hide OnlyMisses, IsPage, InHand, EmptyAt, Sources, AsRead;
      var after: int := -1;
      var more := true;
      seen, emptyAt := 0, clock;
      while more
        invariant Accounted() && after >= -1 && old(clock) <= clock
        invariant seen == 0 ==> after == -1
        invariant seen == 0 && !more ==> old(clock) <= emptyAt && EmptyAt(emptyAt)
        invariant old(setbacks) <= setbacks
        invariant setbacks == old(setbacks) ==> (forall s :: s in pending ==> s > after) && (!more ==> pending == map[])
        decreases sources - after, more
      {
        Elsewhere();
        var rows := ListPending(after);
        if setbacks == old(setbacks) { BehindPage(pending, rows, after); }
        NoSources(pending);
        if rows == [] {
          more := false;
          emptyAt := clock;
          if seen == 0 { NothingListed(); }
        } else {
          RowsInHand(rows, after);
          seen := seen + |rows|;
          RecoverPage(rows);
          after := rows[|rows| - 1].source;
          more := |rows| == LINK_RECOVERY_PAGE;
        }
      }
    }

    /**
     At most five rounds over the queue, however many misses come meanwhile. It succeeds on a round that met no
     row, or after which none is left: at some moment the queue was empty, and what waits now was missed since.
     It fails only after all five rounds; if no source misses and no derivation is left incomplete meanwhile, one
     round empties the queue and it succeeds.
     */
    method RecoverLinkPending() returns (ok: bool, rounds: nat, ghost emptyAt: nat)
      requires Accounted()
      modifies this
      ensures Accounted() && rounds <= LINK_RECOVERY_ROUNDS
      ensures ok ==> old(clock) <= emptyAt && EmptyAt(emptyAt)
      ensures !ok ==> rounds == LINK_RECOVERY_ROUNDS
      ensures old(setbacks) <= setbacks && (setbacks == old(setbacks) ==> ok && rounds <= 1 && pending == map[])
    {
      hide OnlyMisses;
      var round := 0;
      emptyAt := clock;
      while round < LINK_RECOVERY_ROUNDS
        invariant round <= LINK_RECOVERY_ROUNDS && Accounted() && old(clock) <= clock
        invariant old(setbacks) <= setbacks && (setbacks == old(setbacks) ==> round == 0)
      {
        round := round + 1;
        var seen;
        seen, emptyAt := RecoverRound();
        label looked:
        Elsewhere();
        if seen == 0 {
          StillEmptyAt@looked(emptyAt);
          return true, round - 1, emptyAt;
        }
        if |pending| == 0 { return true, round, clock; }
      }
      return false, round, emptyAt;
    }

    lemma RowsInHand(rows: seq<Row>, after: int)
      requires Accounted() && IsPage(rows, pending, after)
      ensures InHand(rows, 0, clock) && AsRead(rows)
    {}

    /**
     Verify, then move the alias behind the exclusive fence if no row waits; otherwise recover and try again, at
     most three times. When the alias moves, every source that ever missed has been derived after its last miss.
     It moves at the second attempt at the latest unless a verification refuses, a source misses or a derivation
     is left incomplete meanwhile.
     */
    method Cutover() returns (switched: bool, attempts: nat, ghost refused: bool)
      requires Accounted()
      modifies this
      ensures Accounted() && attempts <= LINK_CUTOVER_ATTEMPTS
      ensures switched ==> pending == map[] && forall s :: s in missedAt ==> s in derivedAt && missedAt[s] < derivedAt[s]
      ensures setbacks == old(setbacks) && !refused ==> switched && attempts <= 2
    {
      attempts, refused := 0, false;
      while attempts < LINK_CUTOVER_ATTEMPTS
        invariant attempts <= LINK_CUTOVER_ATTEMPTS && Accounted() && old(setbacks) <= setbacks && !refused
        invariant setbacks == old(setbacks) ==> attempts == 0 || (attempts == 1 && pending == map[])
      {
        attempts := attempts + 1;
        var verified: bool := *;
        if !verified { return false, attempts, true; }
        Elsewhere();
        // Behind the exclusive fence nobody else writes between the count and the move.
        if |pending| == 0 { return true, attempts, false; }
        if attempts < LINK_CUTOVER_ATTEMPTS {
          var recovered, rounds, emptyAt := RecoverLinkPending();
          if !recovered { return false, attempts, false; }
        }
      }
      switched := false;
    }
  }
}
