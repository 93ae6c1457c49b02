/** The entities a diff is normalized into, and the validator that judges hunks by
    themselves, whoever built them. */
module DiffModel {
  import opened Wrappers
  import opened DiffText

  /** An injective digest: it determines what was digested. */
  datatype Digest = Sha256(preimage: string)

  datatype LineType = Context | Deletion | Addition

  datatype Slice = Slice(start: nat, end: nat, digest: Digest)

  datatype Line = Line(kind: LineType, oldNumber: Option<nat>, newNumber: Option<nat>, sequence: nat, slice: Slice)

  datatype Hunk = Hunk(ranges: Ranges, lines: seq<Line>)

  /** `order` is the place of the file's paths, kind of change and id among all such keys. */
  datatype ChangedFile = ChangedFile(fileId: nat, order: nat, binary: bool, hunks: seq<Hunk>)

  ghost predicate DistinctIds(files: seq<ChangedFile>) {
    forall i, j :: 0 <= i < j < |files| ==> files[i].fileId != files[j].fileId
  }

  function Kinds(lines: seq<Line>): seq<LineType> {
    seq(|lines|, i requires 0 <= i < |lines| => lines[i].kind)
  }

  function OldSide(kinds: seq<LineType>): nat {
    if kinds == [] then 0
    else OldSide(kinds[..|kinds| - 1]) + (if kinds[|kinds| - 1] == Addition then 0 else 1)
  }

  function NewSide(kinds: seq<LineType>): nat {
    if kinds == [] then 0
    else NewSide(kinds[..|kinds| - 1]) + (if kinds[|kinds| - 1] == Deletion then 0 else 1)
  }

  function Changed(kinds: seq<LineType>): nat {
    if kinds == [] then 0
    else Changed(kinds[..|kinds| - 1]) + (if kinds[|kinds| - 1] == Context then 0 else 1)
  }

  lemma CountOne(kinds: seq<LineType>, kind: LineType)
    ensures OldSide(kinds + [kind]) == OldSide(kinds) + (if kind == Addition then 0 else 1)
    ensures NewSide(kinds + [kind]) == NewSide(kinds) + (if kind == Deletion then 0 else 1)
    ensures Changed(kinds + [kind]) == Changed(kinds) + (if kind == Context then 0 else 1)
  {
    assert (kinds + [kind])[..|kinds|] == kinds;
  }

  lemma {:induction false} CountBoth(a: seq<LineType>, b: seq<LineType>)
    ensures OldSide(a + b) == OldSide(a) + OldSide(b)
    ensures NewSide(a + b) == NewSide(a) + NewSide(b)
    ensures Changed(a + b) == Changed(a) + Changed(b)
    ensures b != [] ==> OldSide(b) + NewSide(b) > 0
  {
    if b == [] {
      assert a + b == a;
    } else {
      var init, last := b[..|b| - 1], b[|b| - 1];
      CountBoth(a, init);
      CountOne(a + init, last);
      assert a + b == (a + init) + [last] && b == init + [last];
      CountOne(init, last);
    }
  }

  /** The places that have this kind. */
  function Where(kinds: seq<LineType>, kind: LineType): set<nat> {
    set i: nat | i < |kinds| && kinds[i] == kind
  }

  lemma WhereOneMore(kinds: seq<LineType>, kind: LineType)
    requires kinds != []
    ensures var n := |kinds| - 1;
      |Where(kinds, kind)| == |Where(kinds[..n], kind)| + (if kinds[n] == kind then 1 else 0)
  {
    var n := |kinds| - 1;
    assert Where(kinds, kind) == Where(kinds[..n], kind) + (if kinds[n] == kind then {n} else {});
  }

  /** The old side has the context and deletion lines, the new side the context and addition
      lines, and changed are the deletions and additions. */
  lemma {:induction false} SidesAre(kinds: seq<LineType>)
    ensures OldSide(kinds) == |Where(kinds, Context)| + |Where(kinds, Deletion)|
    ensures NewSide(kinds) == |Where(kinds, Context)| + |Where(kinds, Addition)|
    ensures Changed(kinds) == |Where(kinds, Deletion)| + |Where(kinds, Addition)|
  {
    if kinds == [] {
      forall kind ensures Where(kinds, kind) == {} {}
    } else {
      hide Where;
      SidesAre(kinds[..|kinds| - 1]);
      WhereOneMore(kinds, Context);
      WhereOneMore(kinds, Deletion);
      WhereOneMore(kinds, Addition);
    }
  }

  // ----- the validator ----------------------------------------------------------------------

  /** What a line demands of itself. */
  predicate Shaped(line: Line) {
    && line.sequence > 0 && line.slice.start <= line.slice.end
    && match line.kind
       case Addition => line.oldNumber == None && line.newNumber.Some?
       case Deletion => line.oldNumber.Some? && line.newNumber == None
       case Context => line.oldNumber.Some? && line.newNumber.Some?
  }

  /** Line `i` has the sequence number and the line numbers that the kinds of the lines
      before it give. */
  predicate Located(r: Ranges, lines: seq<Line>, i: nat)
    requires i < |lines|
  {
    var line, before := lines[i], Kinds(lines[..i]);
    && line.sequence == i + 1
    && line.oldNumber == (if line.kind == Addition then None else Some(r.oldStart + OldSide(before)))
    && line.newNumber == (if line.kind == Deletion then None else Some(r.newStart + NewSide(before)))
  }

  ghost predicate AllLocated(r: Ranges, lines: seq<Line>) {
    forall i :: 0 <= i < |lines| ==> Located(r, lines, i)
  }

  predicate PositiveStarts(r: Ranges) {
    (r.oldCount > 0 ==> r.oldStart > 0) && (r.newCount > 0 ==> r.newStart > 0)
  }

  ghost predicate ValidHunk(h: Hunk) {
    && (h.ranges.oldCount > 0 ==> h.ranges.oldStart > 0)
    && (h.ranges.newCount > 0 ==> h.ranges.newStart > 0)
    && OldSide(Kinds(h.lines)) == h.ranges.oldCount
    && NewSide(Kinds(h.lines)) == h.ranges.newCount
    && (forall i :: 0 <= i < |h.lines| ==> Shaped(h.lines[i]))
    && AllLocated(h.ranges, h.lines)
  }

  lemma KindsPrefix(lines: seq<Line>, i: nat)
    requires i < |lines|
    ensures Kinds(lines[..i + 1]) == Kinds(lines[..i]) + [lines[i].kind]
  {
  }

  lemma NoLineCounts(lines: seq<Line>)
    ensures OldSide(Kinds(lines[..0])) == 0 && NewSide(Kinds(lines[..0])) == 0
  {
  }

  method ValidateLineLocations(h: Hunk) returns (ok: bool)
    requires forall i :: 0 <= i < |h.lines| ==> Shaped(h.lines[i])
    ensures ok <==> AllLocated(h.ranges, h.lines)
  {
    hide OldSide, NewSide, Kinds;
    NoLineCounts(h.lines);
    var oldLine, newLine := h.ranges.oldStart, h.ranges.newStart;
    for i := 0 to |h.lines|
      invariant oldLine == h.ranges.oldStart + OldSide(Kinds(h.lines[..i]))
      invariant newLine == h.ranges.newStart + NewSide(Kinds(h.lines[..i]))
      invariant forall j :: 0 <= j < i ==> Located(h.ranges, h.lines, j)
    {
      var line := h.lines[i];
      KindsPrefix(h.lines, i);
      CountOne(Kinds(h.lines[..i]), line.kind);
      if line.sequence != i + 1 { assert !Located(h.ranges, h.lines, i); return false; }
      match line.kind {
        case Context =>
          if line.oldNumber != Some(oldLine) || line.newNumber != Some(newLine) {
            assert !Located(h.ranges, h.lines, i);
            return false;
          }
          oldLine, newLine := oldLine + 1, newLine + 1;
        case Deletion =>
          if line.oldNumber != Some(oldLine) { assert !Located(h.ranges, h.lines, i); return false; }
          oldLine := oldLine + 1;
        case Addition =>
          if line.newNumber != Some(newLine) { assert !Located(h.ranges, h.lines, i); return false; }
          newLine := newLine + 1;
      }
    }
    return true;
  }

  /** The second hunk starts, on both sides, behind the end of the first. */
  predicate Follows(before: Ranges, after: Ranges) {
    && after.oldStart >= before.oldStart + before.oldCount
    && after.newStart >= before.newStart + before.newCount
  }

  predicate InOrder(hunks: seq<Hunk>) {
    forall i :: 0 < i < |hunks| ==> Follows(hunks[i - 1].ranges, hunks[i].ranges)
  }

  method ValidateHunkOrder(hunks: seq<Hunk>) returns (ok: bool)
    ensures ok <==> InOrder(hunks)
    ensures ok <==> forall i :: 0 < i < |hunks| ==>
      && hunks[i].ranges.oldStart >= hunks[i - 1].ranges.oldStart + hunks[i - 1].ranges.oldCount
      && hunks[i].ranges.newStart >= hunks[i - 1].ranges.newStart + hunks[i - 1].ranges.newCount
  {
    var previous: Option<Hunk> := None;
    for i := 0 to |hunks|
      invariant previous == if i == 0 then None else Some(hunks[i - 1])
      invariant forall j :: 0 < j < i ==> Follows(hunks[j - 1].ranges, hunks[j].ranges)
    {
      var r := hunks[i].ranges;
      if previous.Some? {
        var p := previous.value.ranges;
        if r.oldStart < p.oldStart + p.oldCount || r.newStart < p.newStart + p.newCount
           || r.oldStart < p.oldStart || r.newStart < p.newStart {
          return false;
        }
      }
      previous := Some(hunks[i]);
    }
    return true;
  }

  // ----- what the locations of a valid file mean ----------------------------------------------

  function AllLines(hunks: seq<Hunk>): seq<Line> {
    if hunks == [] then [] else AllLines(hunks[..|hunks| - 1]) + hunks[|hunks| - 1].lines
  }

  /** Old line numbers increase strictly along the lines, and so do new ones. */
  ghost predicate Increasing(lines: seq<Line>) {
    forall i, j :: 0 <= i < j < |lines| ==> Earlier(lines[i], lines[j])
  }

  predicate Earlier(a: Line, b: Line) {
    && (a.oldNumber.Some? && b.oldNumber.Some? ==> a.oldNumber.value < b.oldNumber.value)
    && (a.newNumber.Some? && b.newNumber.Some? ==> a.newNumber.value < b.newNumber.value)
  }

  /** All line numbers lie below these two. */
  ghost predicate Below(lines: seq<Line>, oldEnd: nat, newEnd: nat) {
    forall i :: 0 <= i < |lines| ==>
      (lines[i].oldNumber.Some? ==> lines[i].oldNumber.value < oldEnd) &&
      (lines[i].newNumber.Some? ==> lines[i].newNumber.value < newEnd)
  }

  lemma {:induction false} SidesGrow(lines: seq<Line>, i: nat, j: nat)
    requires i < j <= |lines|
    ensures OldSide(Kinds(lines[..i])) + (if lines[i].kind == Addition then 0 else 1) <= OldSide(Kinds(lines[..j]))
    ensures NewSide(Kinds(lines[..i])) + (if lines[i].kind == Deletion then 0 else 1) <= NewSide(Kinds(lines[..j]))
  {
    KindsPrefix(lines, j - 1);
    CountOne(Kinds(lines[..j - 1]), lines[j - 1].kind);
    if i < j - 1 { SidesGrow(lines, i, j - 1); }
  }

  /** In a file whose hunks are valid and in order, line numbers increase strictly from
      line to line on each side, across hunks too: no location occurs twice. */
  lemma {:induction false} LocationsIncrease(hunks: seq<Hunk>)
    requires InOrder(hunks) && forall i :: 0 <= i < |hunks| ==> ValidHunk(hunks[i])
    ensures Increasing(AllLines(hunks))
    ensures hunks != [] ==>
      var r := hunks[|hunks| - 1].ranges;
      Below(AllLines(hunks), r.oldStart + r.oldCount, r.newStart + r.newCount)
  {
    if hunks != [] {
      var init, last := hunks[..|hunks| - 1], hunks[|hunks| - 1];
      LocationsIncrease(init);
      HunkIncreases(last);
    }
  }

  lemma HunkIncreases(h: Hunk)
    requires ValidHunk(h)
    ensures Increasing(h.lines)
    ensures forall i :: 0 <= i < |h.lines| ==> InRanges(h.ranges, h.lines[i])
  {
    hide OldSide, NewSide;
    assert h.lines[..|h.lines|] == h.lines;
    forall i, j | 0 <= i < j < |h.lines| ensures Earlier(h.lines[i], h.lines[j]) {
      SidesGrow(h.lines, i, j);
      assert Located(h.ranges, h.lines, i) && Located(h.ranges, h.lines, j);
    }
    forall i | 0 <= i < |h.lines| ensures InRanges(h.ranges, h.lines[i]) {
      SidesGrow(h.lines, i, |h.lines|);
      assert Located(h.ranges, h.lines, i);
    }
  }

  /** The numbers of the line lie in the ranges of the hunk header. */
  predicate InRanges(r: Ranges, line: Line) {
    && (line.oldNumber.Some? ==> r.oldStart <= line.oldNumber.value < r.oldStart + r.oldCount)
    && (line.newNumber.Some? ==> r.newStart <= line.newNumber.value < r.newStart + r.newCount)
  }
}
