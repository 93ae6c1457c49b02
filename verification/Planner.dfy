/** The review planner: whole files if they fit, else groups of hunks, else blocks of lines. */
module Planner {
  import opened Wrappers
  import opened DiffModel

  const FixedOverhead := 256
  const BytesPerToken := 4
  const BytesPerLine := 20

  /** The model's limits, both positive. */
  datatype Capacity = Capacity(contextLimit: nat, outputLimit: nat) {
    predicate Valid() { contextLimit > 0 && outputLimit > 0 }
  }

  datatype Estimate = Estimate(inputTokens: nat, outputTokens: nat)

  function AtLeastOne(n: nat): nat { if n < 1 then 1 else n }

  function Bytes(lines: seq<Line>): nat {
    if lines == [] then 0
    else
      var s := lines[|lines| - 1].slice;
      Bytes(lines[..|lines| - 1]) + (if s.start <= s.end then s.end - s.start else 0)
  }

  function EstimateHunks(hunks: seq<Hunk>): Estimate {
    var lines := AllLines(hunks);
    Estimate(FixedOverhead + Bytes(lines) / BytesPerToken + 1, AtLeastOne(|lines| / 2))
  }

  function EstimateLines(count: nat): Estimate {
    Estimate(FixedOverhead + count * BytesPerLine / BytesPerToken + 1, AtLeastOne(count / 2))
  }

  predicate Within(e: Estimate, capacity: Capacity) {
    e.inputTokens <= capacity.contextLimit && e.outputTokens <= capacity.outputLimit
  }

  predicate Fits(hunks: seq<Hunk>, capacity: Capacity) {
    Within(EstimateHunks(hunks), capacity)
  }

  function Flatten<T>(groups: seq<seq<T>>): seq<T> {
    if groups == [] then [] else Flatten(groups[..|groups| - 1]) + groups[|groups| - 1]
  }

  // ----- boxing hunks -------------------------------------------------------------------------

  /** The closed groups and the one still open after boxing these hunks. */
  datatype Boxing = Boxing(groups: seq<seq<Hunk>>, current: seq<Hunk>) {
    function All(): seq<seq<Hunk>> { if current == [] then groups else groups + [current] }
  }

  function Boxed(hunks: seq<Hunk>, capacity: Capacity): Boxing {
    if hunks == [] then Boxing([], [])
    else Put(Boxed(hunks[..|hunks| - 1], capacity), hunks[|hunks| - 1], capacity)
  }

  function Put(b: Boxing, hunk: Hunk, capacity: Capacity): Boxing {
    if b.current != [] && !Fits(b.current + [hunk], capacity)
    then Boxing(b.groups + [b.current], [hunk])
    else Boxing(b.groups, b.current + [hunk])
  }

  method BoxHunks(hunks: seq<Hunk>, capacity: Capacity) returns (groups: seq<seq<Hunk>>)
    ensures groups == Boxed(hunks, capacity).All()
  {
    hide Fits;
    groups := [];
    var current: seq<Hunk> := [];
    for i := 0 to |hunks|
      invariant Boxed(hunks[..i], capacity) == Boxing(groups, current)
    {
      assert hunks[..i + 1][..i] == hunks[..i];
      var candidate := current + [hunks[i]];
      if current != [] && !Fits(candidate, capacity) {
        groups := groups + [current];
        current := [hunks[i]];
      } else {
        current := candidate;
      }
    }
    assert hunks[..|hunks|] == hunks;
    if current != [] { groups := groups + [current]; }
  }

  /** A division of the hunks, in order, into groups each of which is one hunk or fits. */
  ghost predicate Partition(groups: seq<seq<Hunk>>, hunks: seq<Hunk>, capacity: Capacity) {
    && Flatten(groups) == hunks
    && forall i :: 0 <= i < |groups| ==> Allowed(groups[i], capacity)
  }

  predicate Allowed(group: seq<Hunk>, capacity: Capacity) {
    |group| == 1 || (|group| > 1 && Fits(group, capacity))
  }

  lemma FlattenOneMore<T>(groups: seq<seq<T>>, group: seq<T>)
    ensures Flatten(groups + [group]) == Flatten(groups) + group
  {
    assert (groups + [group])[..|groups|] == groups;
  }

  lemma {:induction false} LinesBoth(a: seq<Hunk>, b: seq<Hunk>)
    ensures AllLines(a + b) == AllLines(a) + AllLines(b)
  {
    if b == [] {
      assert a + b == a;
    } else {
      LinesBoth(a, b[..|b| - 1]);
      assert (a + b)[..|a + b| - 1] == a + b[..|b| - 1];
    }
  }

  lemma {:induction false} BytesBoth(a: seq<Line>, b: seq<Line>)
    ensures Bytes(a + b) == Bytes(a) + Bytes(b)
  {
    if b == [] {
      assert a + b == a;
    } else {
      BytesBoth(a, b[..|b| - 1]);
      assert (a + b)[..|a + b| - 1] == a + b[..|b| - 1];
    }
  }

  /** What fits still fits when hunks are taken away at either end. */
  lemma PartFits(a: seq<Hunk>, b: seq<Hunk>, capacity: Capacity)
    requires Fits(a + b, capacity)
    ensures Fits(a, capacity) && Fits(b, capacity)
  {
    LinesBoth(a, b);
    BytesBoth(AllLines(a), AllLines(b));
  }

  lemma PartitionAdd(groups: seq<seq<Hunk>>, hunks: seq<Hunk>, group: seq<Hunk>, capacity: Capacity)
    requires Partition(groups, hunks, capacity) && Allowed(group, capacity)
    ensures Partition(groups + [group], hunks + group, capacity)
  {
    hide Fits, Flatten, Allowed;
    FlattenOneMore(groups, group);
  }

  lemma PartitionDrop(groups: seq<seq<Hunk>>, group: seq<Hunk>, hunks: seq<Hunk>, capacity: Capacity)
    requires Partition(groups + [group], hunks, capacity)
    ensures hunks == Flatten(groups) + group && Allowed(group, capacity) && group != []
    ensures Partition(groups, Flatten(groups), capacity)
  {
    hide Fits, Flatten;
    FlattenOneMore(groups, group);
    var all := groups + [group];
    assert all[|groups|] == group;
    assert forall i :: 0 <= i < |groups| ==> all[i] == groups[i];
  }

  lemma NoGroups(groups: seq<seq<Hunk>>, hunks: seq<Hunk>, capacity: Capacity)
    requires Partition(groups, hunks, capacity)
    ensures groups == [] <==> hunks == []
  {
    if groups != [] { assert Allowed(groups[|groups| - 1], capacity); }
  }

  /** What boxing keeps: its groups are a partition, and the last one is still open. */
  ghost predicate Boxes(b: Boxing, hunks: seq<Hunk>, capacity: Capacity) {
    Partition(b.All(), hunks, capacity) && (b.current == [] ==> hunks == [] && b.groups == [])
  }

  lemma PutPartitions(b: Boxing, hunks: seq<Hunk>, hunk: Hunk, capacity: Capacity)
    requires Boxes(b, hunks, capacity)
    ensures Boxes(Put(b, hunk, capacity), hunks + [hunk], capacity) && Put(b, hunk, capacity).current != []
  {
    hide Fits, Flatten, Partition;
    var after := Put(b, hunk, capacity);
    if after.groups != b.groups {
      PartitionAdd(b.All(), hunks, [hunk], capacity);
    } else if b.current == [] {
      assert b.All() == [] && hunks + [hunk] == [hunk];
      PartitionAdd(b.All(), hunks, [hunk], capacity);
      assert after.All() == [] + [[hunk]];
    } else {
      PartitionDrop(b.groups, b.current, hunks, capacity);
      PartitionAdd(b.groups, Flatten(b.groups), b.current + [hunk], capacity);
      assert Flatten(b.groups) + (b.current + [hunk]) == hunks + [hunk];
    }
  }

  lemma NothingBoxed(capacity: Capacity)
    ensures Boxes(Boxing([], []), [], capacity)
  {
  }

  /** Boxing keeps the hunks, in order, in groups each of which is one hunk or fits. */
  lemma {:induction false} BoxedPartitions(hunks: seq<Hunk>, capacity: Capacity)
    ensures Boxes(Boxed(hunks, capacity), hunks, capacity)
  {
    hide Boxes, Put;
    if hunks == [] {
      NothingBoxed(capacity);
    } else {
      var init := hunks[..|hunks| - 1];
      BoxedPartitions(init, capacity);
      PutPartitions(Boxed(init, capacity), init, hunks[|hunks| - 1], capacity);
      assert hunks == init + [hunks[|hunks| - 1]];
    }
  }

  /** The open group, being a suffix of the hunks, is the end of any longer suffix. */
  lemma SuffixOf(a: seq<Hunk>, x: seq<Hunk>, b: seq<Hunk>, y: seq<Hunk>)
    requires a + x == b + y && |x| <= |y|
    ensures y == y[..|y| - |x|] + x
  {
    assert (a + x)[|a + x| - |x|..] == x;
    assert (b + y)[|b + y| - |x|..] == y[|y| - |x|..];
  }

  /** Another partition of hunks that end in `hunk`, taken apart at its last group. */
  lemma LastGroup(other: seq<seq<Hunk>>, init: seq<Hunk>, hunk: Hunk, capacity: Capacity)
    returns (front: seq<seq<Hunk>>, shorter: seq<Hunk>)
    requires Partition(other, init + [hunk], capacity)
    ensures other == front + [shorter + [hunk]] && init == Flatten(front) + shorter
    ensures shorter == [] || Fits(shorter + [hunk], capacity)
    ensures Partition(if shorter == [] then front else front + [shorter], init, capacity)
  {
    hide Fits, Flatten, Partition;
    NoGroups(other, init + [hunk], capacity);
    var last := other[|other| - 1];
    front := other[..|other| - 1];
    assert other == front + [last];
    PartitionDrop(front, last, init + [hunk], capacity);
    shorter := last[..|last| - 1];
    assert (init + [hunk])[|init|] == (Flatten(front) + last)[|Flatten(front) + last| - 1];
    assert last == shorter + [hunk];
    assert init == (init + [hunk])[..|init|] == Flatten(front) + shorter;
    if shorter != [] {
      ShorterAllowed(shorter, hunk, capacity);
      PartitionAdd(front, Flatten(front), shorter, capacity);
    }
  }

  lemma ShorterAllowed(shorter: seq<Hunk>, hunk: Hunk, capacity: Capacity)
    requires shorter != [] && Allowed(shorter + [hunk], capacity)
    ensures Allowed(shorter, capacity)
  {
    PartFits(shorter, [hunk], capacity);
  }

  /** Fewer groups than the other partition, or as many and an open group no longer than
      the other's last one. */
  ghost predicate Ahead(b: Boxing, other: seq<seq<Hunk>>) {
    && other != []
    && (|b.groups| + 1 < |other| || (|b.groups| + 1 == |other| && |b.current| <= |other[|other| - 1]|))
  }

  lemma {:induction false} BoxingStaysAhead(hunks: seq<Hunk>, capacity: Capacity, other: seq<seq<Hunk>>)
    requires hunks != [] && Partition(other, hunks, capacity)
    ensures Ahead(Boxed(hunks, capacity), other)
  {
    hide Fits, Flatten, Partition, Boxes, Boxed, Ahead, Put;
    var init, hunk := hunks[..|hunks| - 1], hunks[|hunks| - 1];
    assert hunks == init + [hunk];
    BoxedStep(init, hunk, capacity);
    var front, shorter := LastGroup(other, init, hunk, capacity);
    var b := Boxed(init, capacity);
    if init == [] {
      assert shorter == [] by { assert |Flatten(front) + shorter| == 0; }
      PutFirst(front, hunk, capacity);
    } else {
      BoxedPartitions(init, capacity);
      OpenIsPartition(b, init, capacity);
      BoxingStaysAhead(init, capacity, if shorter == [] then front else front + [shorter]);
      if shorter == [] {
        assert shorter + [hunk] == [hunk];
        PutAlone(b, front, hunk, capacity);
      } else {
        PutLonger(b, front, shorter, hunk, capacity);
      }
    }
  }

  lemma BoxedStep(init: seq<Hunk>, hunk: Hunk, capacity: Capacity)
    ensures Boxed(init + [hunk], capacity) == Put(Boxed(init, capacity), hunk, capacity)
    ensures Boxed([], capacity) == Boxing([], [])
  {
    assert (init + [hunk])[..|init|] == init;
  }

  lemma PutFirst(front: seq<seq<Hunk>>, hunk: Hunk, capacity: Capacity)
    ensures Ahead(Put(Boxing([], []), hunk, capacity), front + [[hunk]])
  {
    hide Fits;
  }

  /** The other partition put the hunk in a group of its own. */
  lemma PutAlone(b: Boxing, front: seq<seq<Hunk>>, hunk: Hunk, capacity: Capacity)
    requires Ahead(b, front)
    ensures Ahead(Put(b, hunk, capacity), front + [[hunk]])
  {
    hide Fits;
  }

  /** The other partition put the hunk behind others: if the open group was no longer than
      those, it still fits with the hunk. */
  lemma PutLonger(b: Boxing, front: seq<seq<Hunk>>, shorter: seq<Hunk>, hunk: Hunk, capacity: Capacity)
    requires Ahead(b, front + [shorter]) && Fits(shorter + [hunk], capacity)
    requires Flatten(b.groups) + b.current == Flatten(front) + shorter
    ensures Ahead(Put(b, hunk, capacity), front + [shorter + [hunk]])
  {
    hide Fits, Flatten;
    if |b.groups| == |front| { OpenStillFits(b, Flatten(front), shorter, hunk, capacity); }
  }

  lemma OpenIsPartition(b: Boxing, hunks: seq<Hunk>, capacity: Capacity)
    requires Boxes(b, hunks, capacity) && hunks != []
    ensures b.current != [] && hunks == Flatten(b.groups) + b.current
  {
    hide Flatten, Partition;
    PartitionDrop(b.groups, b.current, hunks, capacity);
  }

  lemma OpenStillFits(b: Boxing, front: seq<Hunk>, shorter: seq<Hunk>, hunk: Hunk, capacity: Capacity)
    requires Flatten(b.groups) + b.current == front + shorter && |b.current| <= |shorter|
    requires Fits(shorter + [hunk], capacity)
    ensures Fits(b.current + [hunk], capacity)
  {
    hide Fits, Flatten;
    SuffixOf(Flatten(b.groups), b.current, front, shorter);
    var gap := shorter[..|shorter| - |b.current|];
    assert shorter + [hunk] == gap + (b.current + [hunk]);
    PartFits(gap, b.current + [hunk], capacity);
  }

  /** No partition of the hunks has fewer groups than boxing makes. */
  lemma BoxingIsMinimal(hunks: seq<Hunk>, capacity: Capacity, other: seq<seq<Hunk>>)
    requires Partition(other, hunks, capacity)
    ensures |Boxed(hunks, capacity).All()| <= |other|
  {
    hide Fits, Flatten, Partition, Boxes;
    if hunks != [] {
      BoxingStaysAhead(hunks, capacity, other);
      BoxedPartitions(hunks, capacity);
      OpenIsPartition(Boxed(hunks, capacity), hunks, capacity);
    }
  }

  // ----- blocks of lines ------------------------------------------------------------------------

  function Chunks<T>(lines: seq<T>, size: nat): seq<seq<T>>
    requires size > 0
  {
    if |lines| <= size then (if lines == [] then [] else [lines]) else [lines[..size]] + Chunks(lines[size..], size)
  }

  predicate AllFit(blocks: seq<seq<Line>>, capacity: Capacity) {
    forall i :: 0 <= i < |blocks| ==> Within(EstimateLines(|blocks[i]|), capacity)
  }

  function Min(a: int, b: int): int { if a < b then a else b }

  /** How many lines a block may have. */
  function BlockLimit(capacity: Capacity): int {
    Min((capacity.contextLimit - FixedOverhead - 1) / 5, 2 * capacity.outputLimit + 1)
  }

  /** The smallest context in which a single line can be planned. */
  const SmallestContext := 262

  function BlocksOf(lines: seq<Line>, capacity: Capacity): Option<seq<seq<Line>>>
    requires capacity.Valid()
  {
    if lines == [] || capacity.contextLimit < SmallestContext then None
    else Some(Chunks(lines, Min(|lines|, BlockLimit(capacity))))
  }

  lemma BlockFits(count: nat, capacity: Capacity)
    requires capacity.Valid() && count > 0
    ensures Within(EstimateLines(count), capacity) <==> count <= BlockLimit(capacity)
  {
    assert count * BytesPerLine / BytesPerToken == 5 * count;
  }

  lemma {:induction false} ChunksFit(lines: seq<Line>, size: nat, capacity: Capacity)
    requires capacity.Valid() && 0 < size && lines != []
    ensures AllFit(Chunks(lines, size), capacity) <==> Min(size, |lines|) <= BlockLimit(capacity)
    decreases |lines|
  {
    hide EstimateLines, BlockLimit, Within;
    var chunks := Chunks(lines, size);
    BlockFits(|chunks[0]|, capacity);
    if |lines| > size {
      var rest := Chunks(lines[size..], size);
      ChunksFit(lines[size..], size, capacity);
      assert forall i :: 0 < i < |chunks| ==> chunks[i] == rest[i - 1];
      assert forall i :: 0 <= i < |rest| ==> rest[i] == chunks[i + 1];
    }
  }

  lemma {:induction false} FlattenFront<T>(group: seq<T>, groups: seq<seq<T>>)
    ensures Flatten([group] + groups) == group + Flatten(groups)
  {
    if groups == [] {
      FlattenOneMore([], group);
      assert [group] + groups == [] + [group];
    } else {
      var init, last := groups[..|groups| - 1], groups[|groups| - 1];
      FlattenFront(group, init);
      FlattenOneMore([group] + init, last);
      assert [group] + groups == ([group] + init) + [last];
    }
  }

  /** Chunks are the lines in order; all but the last have the full size, the last at most. */
  lemma {:induction false} ChunksDivide<T>(lines: seq<T>, size: nat)
    requires size > 0
    ensures var chunks := Chunks(lines, size);
      && Flatten(chunks) == lines
      && (forall i :: 0 <= i < |chunks| - 1 ==> |chunks[i]| == size)
      && (forall i :: 0 <= i < |chunks| ==> 0 < |chunks[i]| <= size)
    decreases |lines|
  {
    if |lines| > size {
      ChunksDivide(lines[size..], size);
      FlattenFront(lines[..size], Chunks(lines[size..], size));
      assert lines[..size] + lines[size..] == lines;
    } else if lines != [] {
      FlattenFront(lines, []);
      assert [lines] + [] == [lines];
    }
  }

  method Cut(lines: seq<Line>, size: nat) returns (blocks: seq<seq<Line>>)
    requires size > 0
    ensures blocks == Chunks(lines, size)
  {
    blocks := [];
    var start := 0;
    while start < |lines|
      invariant blocks + Chunks(lines[Min(start, |lines|)..], size) == Chunks(lines, size)
      decreases |lines| - start
    {
      var block := lines[start..Min(start + size, |lines|)];
      ghost var rest, done := lines[start..], blocks;
      if start + size < |lines| {
        assert rest[..size] == block && rest[size..] == lines[start + size..];
        assert Chunks(rest, size) == [block] + Chunks(lines[start + size..], size);
      } else {
        assert rest == block && Chunks(rest, size) == [block] && Chunks(lines[|lines|..], size) == [];
      }
      blocks := blocks + [block];
      start := start + size;
    }
    assert lines[|lines|..] == [];
  }

  /** The search from the largest block size downwards ends at the closed form. */
  method LineBlocks(lines: seq<Line>, capacity: Capacity) returns (result: Option<seq<seq<Line>>>)
    requires capacity.Valid()
    ensures result == BlocksOf(lines, capacity)
  {
    if lines == [] { return None; }
    var bound := (capacity.contextLimit - FixedOverhead) * BytesPerToken / BytesPerLine;
    var size := Min(|lines|, if bound == 0 then 1 else bound);
    if size < 1 { size := 1; }
    while size >= 1
      invariant 1 <= size <= |lines|
      invariant Min(|lines|, BlockLimit(capacity)) <= size || BlockLimit(capacity) < 1
    {
      var blocks := Cut(lines, size);
      ChunksFit(lines, size, capacity);
      if AllFit(blocks, capacity) { return Some(blocks); }
      if size == 1 { return None; }
      size := size - 1;
    }
    return None;
  }
}
