/**
 The rotating NDJSON archive: one line per event, segments pushed back at a size limit, the oldest dropped.

 Segment 0 is the file being written, segment i the i-th older one. Appends are serialised by the
 writer's promise chain, so each call runs against the state the one before it left; file-system errors
 are not modelled.

 Main results: `ReadingIsSuffix`, `SegmentsConserved`, `SegmentsBounded`.
 */
module Archive {
  import opened Wrappers

  type Line = l: seq<bv8> | |l| >= 1 witness [10]
  type Segments = map<nat, seq<Line>>

  function Bytes(lines: seq<Line>): nat {
    if lines == [] then 0 else Bytes(lines[..|lines| - 1]) + |lines[|lines| - 1]|
  }

  function Segment(files: Segments, i: nat): seq<Line> {
    if i in files then files[i] else []
  }

  /** Everything on disk from segment `i` to the current one, oldest line first. */
  function Reading(files: Segments, i: nat): seq<Line> {
    if i == 0 then Segment(files, 0) else Segment(files, i) + Reading(files, i - 1)
  }

  /** Midway: segments above `index` have moved, leaving a gap right above it. */
  function PartShifted(files: Segments, index: nat, keep: nat): Segments {
    map i | i in Below(keep) && i != index + 1 && (if i <= index then i in files else i - 1 in files) ::
      if i <= index then files[i] else files[i - 1]
  }

  function Renamed(files: Segments, from: nat, to: nat): Segments {
    if from in files then (files - {from})[to := files[from]] else files
  }

  lemma RenameShifts(files: Segments, index: nat, keep: nat)
    requires 1 <= index && index + 1 < keep
    ensures Renamed(PartShifted(files, index, keep), index, index + 1) == PartShifted(files, index - 1, keep)
  {
    var a, b := Renamed(PartShifted(files, index, keep), index, index + 1), PartShifted(files, index - 1, keep);
    assert a.Keys == b.Keys;
    forall i | i in a
      ensures a[i] == b[i]
    {}
  }

  lemma RenamesDone(files: Segments, keep: nat)
    requires keep >= 2 && 0 in files
    ensures Renamed(PartShifted(files, 0, keep), 0, 1)[0 := []] == Shifted(files, keep)
  {
    var a, b := Renamed(PartShifted(files, 0, keep), 0, 1)[0 := []], Shifted(files, keep);
    assert a.Keys == b.Keys;
  }

  lemma RenamesStart(files: Segments, keep: nat)
    requires keep >= 2 && files.Keys <= Below(keep)
    ensures files - {keep - 1} == PartShifted(files, keep - 2, keep)
  {
    var a, b := files - {keep - 1}, PartShifted(files, keep - 2, keep);
    assert a.Keys == b.Keys;
  }

  datatype Log = Log(files: Segments, written: nat, dropped: nat)

  /** The segment numbers below `n`. */
  function Below(n: nat): (s: set<nat>)
    ensures |s| == n && forall i :: i in s <==> 0 <= i < n
  {
    if n == 0 then {} else Below(n - 1) + {n - 1}
  }

  /** Every segment one place older; the oldest is gone and the current one is empty. */
  function Shifted(files: Segments, keep: nat): Segments {
    map i | i in Below(keep) && (i == 0 || i - 1 in files) :: if i == 0 then [] else files[i - 1]
  }

  function Rotated(log: Log, keep: nat): Log
    requires keep >= 2
  {
    Log(Shifted(log.files, keep), 0, log.dropped + if keep - 1 in log.files then 1 else 0)
  }

  predicate MustRotate(log: Log, maxBytes: nat, line: Line) {
    log.written > 0 && log.written + |line| > maxBytes
  }

  function Written(log: Log, line: Line): Log {
    log.(files := log.files[0 := Segment(log.files, 0) + [line]], written := log.written + |line|)
  }

  function Appended(log: Log, keep: nat, maxBytes: nat, line: Line): Log
    requires keep >= 2
  {
    Written(if MustRotate(log, maxBytes, line) then Rotated(log, keep) else log, line)
  }

  class ArchiveWriter {
    const keep: nat
    const maxBytes: nat
    var files: Segments
    var written: nat
    var dropped: nat
    /** The most segments that ever existed at once, counting every moment between two file operations. */
    ghost var peak: nat

    ghost predicate Valid()
      reads this
    {
      && keep >= 2 && maxBytes > 0
      && 0 in files && files.Keys <= Below(keep)
      && written == Bytes(files[0])
      && peak <= keep
    }

    function State(): Log
      reads this
    {
      Log(files, written, dropped)
    }

    /** Opens the path for appending, whatever segments earlier processes left there. */
    constructor (found: Segments, keep: nat, maxBytes: nat)
      requires keep >= 2 && maxBytes > 0
      requires found.Keys <= Below(keep)
      ensures Valid() && this.keep == keep && this.maxBytes == maxBytes
      ensures State() == Log(found[0 := Segment(found, 0)], Bytes(Segment(found, 0)), 0)
    {
      this.keep, this.maxBytes := keep, maxBytes;
      files := found[0 := Segment(found, 0)];
      written := Bytes(Segment(found, 0));
      dropped := 0;
      peak := 0;
    }

    method RemoveIfPresent(i: nat) returns (removed: bool)
      requires peak <= keep && files.Keys <= Below(keep)
      modifies this`files, this`peak
      ensures removed == (i in old(files)) && files == old(files) - {i}
      ensures peak <= keep
    {
      removed := i in files;
      files := files - {i};
      CountFiles(files, keep);
      peak := if |files| > peak then |files| else peak;
    }

    method RenameIfPresent(from: nat, to: nat)
      requires peak <= keep && files.Keys <= Below(keep)
      requires from != to && to < keep
      modifies this`files, this`peak
      ensures files == Renamed(old(files), from, to) && files.Keys <= Below(keep)
      ensures peak <= keep
    {
      if from in files {
        files := (files - {from})[to := files[from]];
      }
      CountFiles(files, keep);
      peak := if |files| > peak then |files| else peak;
    }

    method CreateEmpty()
      requires peak <= keep && keep > 0 && files.Keys <= Below(keep)
      modifies this`files, this`peak
      ensures files == old(files)[0 := []] && files.Keys <= Below(keep)
      ensures peak <= keep
    {
      files := files[0 := []];
      CountFiles(files, keep);
      peak := if |files| > peak then |files| else peak;
    }

    /** Drops the oldest segment first, so that not even a moment in between holds one too many. */
    method Rotate()
      requires Valid()
      modifies this
      ensures Valid()
      ensures State() == Rotated(old(State()), keep)
    {
      hide Bytes, PartShifted, Shifted, Renamed;
      RenamesStart(files, keep);
      var removed := RemoveIfPresent(keep - 1);
      if removed {
        dropped := dropped + 1;
      }
      var index := keep - 2;
      while index >= 1
        invariant 0 <= index <= keep - 2
        invariant files == PartShifted(old(files), index, keep) && files.Keys <= Below(keep)
        invariant dropped == old(dropped) + if keep - 1 in old(files) then 1 else 0
        invariant peak <= keep
      {
        RenameShifts(old(files), index, keep);
        RenameIfPresent(index, index + 1);
        index := index - 1;
      }
      RenameIfPresent(0, 1);
      CreateEmpty();
      written := 0;
      assert Bytes([]) == 0 by { NonEmptyBytes([]); }
      RenamesDone(old(files), keep);
    }

    method AppendOne(line: Line)
      requires Valid()
      modifies this
      ensures Valid()
      ensures State() == Appended(old(State()), keep, maxBytes, line)
    {
      if written > 0 && written + |line| > maxBytes {
        Rotate();
      }
      BytesSnoc(files[0], line);
      files := files[0 := files[0] + [line]];
      written := written + |line|;
    }
  }

  lemma CountFiles(files: Segments, keep: nat)
    requires files.Keys <= Below(keep)
    ensures |files| <= keep
  {
    SubsetSize(files.Keys, Below(keep));
    assert |files| == |files.Keys|;
  }

  lemma BytesSnoc(lines: seq<Line>, line: Line)
    ensures Bytes(lines + [line]) == Bytes(lines) + |line|
  {
    assert (lines + [line])[..|lines|] == lines;
  }

  // ----- Any number of appends -----

  function AppendAll(log: Log, keep: nat, maxBytes: nat, lines: seq<Line>): Log
    requires keep >= 2
  {
    if lines == [] then log
    else Appended(AppendAll(log, keep, maxBytes, lines[..|lines| - 1]), keep, maxBytes, lines[|lines| - 1])
  }

  ghost predicate Consistent(log: Log, keep: nat) {
    keep >= 2 && 0 in log.files && log.files.Keys <= Below(keep) && log.written == Bytes(log.files[0])
  }

  ghost predicate IsSuffix<T>(s: seq<T>, t: seq<T>) {
    |s| <= |t| && s == t[|t| - |s|..]
  }

  lemma SuffixAppend<T>(s: seq<T>, t: seq<T>, u: seq<T>)
    requires IsSuffix(s, t)
    ensures IsSuffix(s + u, t + u)
  {}

  lemma SuffixTrans<T>(s: seq<T>, t: seq<T>, u: seq<T>)
    requires IsSuffix(s, t) && IsSuffix(t, u)
    ensures IsSuffix(s, u)
  {}

  /** What segments i.. 1 hold after a shift is what segments i - 1.. 0 held before it. */
  lemma {:induction false} ReadingShifted(files: Segments, keep: nat, i: nat)
    requires i < keep
    ensures Reading(Shifted(files, keep), i) == if i == 0 then [] else Reading(files, i - 1)
  {
    if i > 0 {
      ReadingShifted(files, keep, i - 1);
      assert Segment(Shifted(files, keep), i) == Segment(files, i - 1);
      if i == 1 {
        assert Reading(Shifted(files, keep), 1) == Segment(files, 0) + [];
      }
    }
  }

  lemma {:induction false} ReadingWritten(log: Log, line: Line, i: nat)
    ensures Reading(Written(log, line).files, i) == Reading(log.files, i) + [line]
  {
    if i > 0 {
      ReadingWritten(log, line, i - 1);
      assert Segment(Written(log, line).files, i) == Segment(log.files, i);
    }
  }

  lemma ShiftConsistent(log: Log, keep: nat)
    requires Consistent(log, keep)
    ensures Consistent(Rotated(log, keep), keep)
  {}

  lemma SuffixOfSum<T>(s: seq<T>, t: seq<T>)
    ensures IsSuffix(t, s + t) && IsSuffix(t, t)
  {}

  lemma ReadingRotated(log: Log, keep: nat)
    requires keep >= 2
    ensures IsSuffix(Reading(Rotated(log, keep).files, keep - 1), Reading(log.files, keep - 1))
  {
    hide Shifted, IsSuffix;
    ReadingShifted(log.files, keep, keep - 1);
    SuffixOfSum(Segment(log.files, keep - 1), Reading(log.files, keep - 2));
  }

  lemma WrittenConsistent(log: Log, keep: nat, line: Line)
    requires Consistent(log, keep)
    ensures Consistent(Written(log, line), keep)
  {
    BytesSnoc(log.files[0], line);
  }

  /** One append loses at most the oldest segment from the front. */
  lemma ReadingAppended(log: Log, keep: nat, maxBytes: nat, line: Line)
    requires Consistent(log, keep)
    ensures Consistent(Appended(log, keep, maxBytes, line), keep)
    ensures IsSuffix(Reading(Appended(log, keep, maxBytes, line).files, keep - 1), Reading(log.files, keep - 1) + [line])
  {
    hide Bytes, Reading, IsSuffix, Written, Shifted, Below;
    var base := if MustRotate(log, maxBytes, line) then Rotated(log, keep) else log;
    ShiftConsistent(log, keep);
    ReadingRotated(log, keep);
    SuffixOfSum([], Reading(log.files, keep - 1));
    WrittenConsistent(base, keep, line);
    ReadingWritten(base, line, keep - 1);
    SuffixAppend(Reading(base.files, keep - 1), Reading(log.files, keep - 1), [line]);
  }

  /**
   Whatever is appended, reading the segments oldest to newest gives a suffix of what was there followed by
   the appended lines in order: nothing is lost in the middle, reordered or duplicated.
   */
  lemma {:induction false} ReadingIsSuffix(log: Log, keep: nat, maxBytes: nat, lines: seq<Line>)
    requires keep >= 2 && Consistent(log, keep)
    ensures Consistent(AppendAll(log, keep, maxBytes, lines), keep)
    ensures IsSuffix(Reading(AppendAll(log, keep, maxBytes, lines).files, keep - 1), Reading(log.files, keep - 1) + lines)
  {
    hide Reading, Appended, Consistent, IsSuffix;
    var start := Reading(log.files, keep - 1);
    if lines == [] {
      SuffixOfSum([], start);
      assert start + lines == start;
    } else {
      var front, last := lines[..|lines| - 1], lines[|lines| - 1];
      ReadingIsSuffix(log, keep, maxBytes, front);
      var before := AppendAll(log, keep, maxBytes, front);
      ReadingAppended(before, keep, maxBytes, last);
      SuffixAppend(Reading(before.files, keep - 1), start + front, [last]);
      assert start + front + [last] == start + lines;
      SuffixTrans(Reading(AppendAll(log, keep, maxBytes, lines).files, keep - 1),
                  Reading(before.files, keep - 1) + [last], start + lines);
    }
  }

  /** Number of rotations a run of appends makes. */
  function Rotations(log: Log, keep: nat, maxBytes: nat, lines: seq<Line>): nat
    requires keep >= 2
  {
    if lines == [] then 0
    else
      var front := lines[..|lines| - 1];
      Rotations(log, keep, maxBytes, front) +
      if MustRotate(AppendAll(log, keep, maxBytes, front), maxBytes, lines[|lines| - 1]) then 1 else 0
  }

  /** Number of segments among 1..i. */
  function Old(files: Segments, i: nat): nat {
    if i == 0 then 0 else Old(files, i - 1) + if i in files then 1 else 0
  }

  lemma {:induction false} OldShifted(files: Segments, keep: nat, i: nat)
    requires 0 in files && i < keep
    ensures Old(Shifted(files, keep), i) == if i == 0 then 0 else Old(files, i - 1) + 1
  {
    if i > 0 {
      OldShifted(files, keep, i - 1);
    }
  }

  lemma {:induction false} OldWritten(log: Log, line: Line, i: nat)
    ensures Old(Written(log, line).files, i) == Old(log.files, i)
  {
    if i > 0 {
      OldWritten(log, line, i - 1);
    }
  }

  /** Every rotation adds one segment behind the current one; what is not there any more was counted as dropped. */
  lemma {:induction false} SegmentsConserved(log: Log, keep: nat, maxBytes: nat, lines: seq<Line>)
    requires keep >= 2 && Consistent(log, keep)
    ensures
      var end := AppendAll(log, keep, maxBytes, lines);
      Old(log.files, keep - 1) + Rotations(log, keep, maxBytes, lines) == Old(end.files, keep - 1) + end.dropped - log.dropped
  {
    hide Old, Appended, Consistent, MustRotate, IsSuffix;
    if lines != [] {
      var front, last := lines[..|lines| - 1], lines[|lines| - 1];
      SegmentsConserved(log, keep, maxBytes, front);
      ReadingIsSuffix(log, keep, maxBytes, front);
      AppendConserves(AppendAll(log, keep, maxBytes, front), keep, maxBytes, last);
    }
  }

  lemma AppendConserves(log: Log, keep: nat, maxBytes: nat, line: Line)
    requires keep >= 2 && Consistent(log, keep)
    ensures
      var end := Appended(log, keep, maxBytes, line);
      Old(log.files, keep - 1) + (if MustRotate(log, maxBytes, line) then 1 else 0)
      == Old(end.files, keep - 1) + end.dropped - log.dropped
  {
    hide Bytes, Below, Shifted, MustRotate;
    OldShifted(log.files, keep, keep - 1);
    OldWritten(if MustRotate(log, maxBytes, line) then Rotated(log, keep) else log, line, keep - 1);
  }

  /** A segment within its limit: only a single line longer than the limit may exceed it. */
  predicate Fits(lines: seq<Line>, maxBytes: nat) {
    Bytes(lines) <= maxBytes || |lines| == 1
  }

  ghost predicate AllFit(log: Log, maxBytes: nat) {
    forall i :: i in log.files ==> Fits(log.files[i], maxBytes)
  }

  lemma {:induction false} SegmentsBounded(log: Log, keep: nat, maxBytes: nat, lines: seq<Line>)
    requires keep >= 2 && Consistent(log, keep)
    requires AllFit(log, maxBytes)
    ensures AllFit(AppendAll(log, keep, maxBytes, lines), maxBytes)
  {
    if lines != [] {
      var front, last := lines[..|lines| - 1], lines[|lines| - 1];
      hide AllFit, Appended, Consistent;
      SegmentsBounded(log, keep, maxBytes, front);
      ReadingIsSuffix(log, keep, maxBytes, front);
      var before := AppendAll(log, keep, maxBytes, front);
      AppendFits(before, keep, maxBytes, last);
    }
  }

  lemma AppendFits(log: Log, keep: nat, maxBytes: nat, line: Line)
    requires Consistent(log, keep)
    requires AllFit(log, maxBytes)
    ensures AllFit(Appended(log, keep, maxBytes, line), maxBytes)
  {
    var base := if MustRotate(log, maxBytes, line) then Rotated(log, keep) else log;
    NonEmptyBytes(log.files[0]);
    BytesSnoc(log.files[0], line);
    assert [] + [line] == [line];
    assert Fits(Segment(base.files, 0) + [line], maxBytes);
  }

  lemma NonEmptyBytes(lines: seq<Line>)
    ensures Bytes(lines) == 0 <==> lines == []
  {}
}
