/** A diff is accepted exactly if it is written from well-formed files, and it is parsed to
    what it was written from. */
module DiffRoundTrip {
  import opened Wrappers
  import opened DiffText
  import opened DiffModel
  import opened DiffParser
  import opened DiffParserTheorems

  // ----- diffs as they are written ----------------------------------------------------------------

  /** A hunk: its header line, the ranges that says, and its body from the first line with a
      prefix to the last, with the no-newline markers between them. */
  datatype HunkText = HunkText(header: string, ranges: Ranges, body: seq<string>)

  /** What a file is written from, behind its `diff --git` line: header lines, the `---` and
      `+++` lines, hunks, and no-newline markers behind a hunk. */
  datatype Item =
    | HeaderLine(line: string)
    | MarkerPair(before: string, after: string)
    | Block(hunk: HunkText)
    | NoNewline

  datatype FileText = FileText(first: string, items: seq<Item>)

  const NO_NEWLINE: string := "\\ No newline at end of file"

  /** What the first character of a body line says. */
  function KindShown(body: string): LineType {
    if body != "" && body[0] == '+' then Addition
    else if body != "" && body[0] == '-' then Deletion
    else Context
  }

  function KeptOf(bodies: seq<string>): seq<string> {
    if bodies == [] then []
    else
      var last := bodies[|bodies| - 1];
      KeptOf(bodies[..|bodies| - 1]) + (if last == NO_NEWLINE then [] else [last])
  }

  function KindsText(bodies: seq<string>): seq<LineType> {
    seq(|bodies|, i requires 0 <= i < |bodies| => KindShown(bodies[i]))
  }

  ghost predicate BodyText(body: seq<string>, r: Ranges) {
    var kept := KeptOf(body);
    && (forall i :: 0 <= i < |kept| ==> kept[i] != "" && kept[i][0] in [' ', '-', '+'])
    && OldSide(KindsText(kept)) == r.oldCount
    && NewSide(KindsText(kept)) == r.newCount
    && (body != [] ==> body[0] != NO_NEWLINE && body[|body| - 1] != NO_NEWLINE)
  }

  ghost predicate HunkTextOk(t: HunkText) {
    Header(t.header) == Some(t.ranges) && (t.ranges.oldCount > 0 ==> t.ranges.oldStart > 0) && (t.ranges.newCount > 0 ==> t.ranges.newStart > 0) && BodyText(t.body, t.ranges)
  }

  function ChangedText(t: HunkText): nat {
    Changed(KindsText(KeptOf(t.body)))
  }

  function ItemLines(item: Item): seq<string> {
    match item
    case HeaderLine(line) => [line]
    case MarkerPair(before, after) => [before, after]
    case Block(hunk) => [hunk.header] + hunk.body
    case NoNewline => [NO_NEWLINE]
  }

  function LinesOfItems(items: seq<Item>): seq<string> {
    if items == [] then [] else LinesOfItems(items[..|items| - 1]) + ItemLines(items[|items| - 1])
  }

  /** What the checks on header lines see of an item. */
  function HeaderItem(item: Item): seq<string> {
    match item
    case HeaderLine(line) => [line]
    case MarkerPair(before, after) => [before, after]
    case Block(hunk) => [hunk.header]
    case NoNewline => []
  }

  function HeaderOfItems(items: seq<Item>): seq<string> {
    if items == [] then [] else HeaderOfItems(items[..|items| - 1]) + HeaderItem(items[|items| - 1])
  }

  function HunksOf(items: seq<Item>): seq<HunkText> {
    if items == [] then []
    else
      var last := items[|items| - 1];
      HunksOf(items[..|items| - 1]) + (if last.Block? then [last.hunk] else [])
  }

  function HasPair(items: seq<Item>): bool {
    items != [] && (HasPair(items[..|items| - 1]) || items[|items| - 1].MarkerPair?)
  }

  function FileLines(f: FileText): seq<string> {
    [f.first] + LinesOfItems(f.items)
  }

  function HeaderOf(f: FileText): seq<string> {
    [f.first] + HeaderOfItems(f.items)
  }

  predicate PlainHeader(body: string) {
    !StartsWith(body, "diff --git ") && !StartsWith(body, "@@") && !StartsWith(body, "--- ") && body != NO_NEWLINE
  }

  /** An item that may stand behind these: one marker pair at most, and no-newline markers
      only when there is a hunk. */
  ghost predicate ItemOk(before: seq<Item>, item: Item) {
    match item
    case HeaderLine(line) => PlainHeader(line)
    case MarkerPair(a, b) => !HasPair(before) && StartsWith(a, "--- ") && StartsWith(b, "+++ ")
    case Block(hunk) => HunkTextOk(hunk)
    case NoNewline => HunksOf(before) != []
  }

  ghost predicate ItemsOk(items: seq<Item>) {
    forall i :: 0 <= i < |items| ==> ItemOk(items[..i], items[i])
  }

  ghost predicate InSequence(hunks: seq<HunkText>) {
    forall i :: 0 < i < |hunks| ==>
      && hunks[i].ranges.oldStart >= hunks[i - 1].ranges.oldStart + hunks[i - 1].ranges.oldCount
      && hunks[i].ranges.newStart >= hunks[i - 1].ranges.newStart + hunks[i - 1].ranges.newCount
  }

  ghost predicate FileTextOk(f: FileText, judge: Judge) {
    && StartsWith(f.first, "diff --git ") && ItemsOk(f.items) && InSequence(HunksOf(f.items))
    && judge(HeaderOf(f)).Some?
    && (HunksOf(f.items) != [] ==> HasPair(f.items) && !judge(HeaderOf(f)).value.binary)
  }

  function ChangedInHunks(hunks: seq<HunkText>): nat {
    if hunks == [] then 0 else ChangedInHunks(hunks[..|hunks| - 1]) + ChangedText(hunks[|hunks| - 1])
  }

  function DiffLines(files: seq<FileText>): seq<string> {
    if files == [] then [] else DiffLines(files[..|files| - 1]) + FileLines(files[|files| - 1])
  }

  function ChangedInFiles(files: seq<FileText>): nat {
    if files == [] then 0 else ChangedInFiles(files[..|files| - 1]) + ChangedInHunks(HunksOf(files[|files| - 1].items))
  }

  // ----- what comes back --------------------------------------------------------------------------

  /** The hunk has the ranges, and line by line the kind and content, of the text. */
  ghost predicate Reads(h: Hunk, t: HunkText) {
    var kept := KeptOf(t.body);
    && h.ranges == t.ranges && |h.lines| == |kept|
    && forall i :: 0 <= i < |kept| ==>
         h.lines[i].kind == KindShown(kept[i]) && kept[i] != "" && h.lines[i].slice.digest == Sha256(kept[i][1..])
  }

  ghost predicate ReadsAll(hunks: seq<Hunk>, texts: seq<HunkText>) {
    |hunks| == |texts| && forall i :: 0 <= i < |texts| ==> Reads(hunks[i], texts[i])
  }

  ghost predicate ReadsFile(file: ChangedFile, f: FileText, judge: Judge) {
    judge(HeaderOf(f)) == Some(FileFacts(file.fileId, file.order, file.binary)) && ReadsAll(file.hunks, HunksOf(f.items))
  }

  ghost predicate ReadsFiles(files: seq<ChangedFile>, texts: seq<FileText>, judge: Judge) {
    |files| == |texts| && forall i :: 0 <= i < |texts| ==> ReadsFile(files[i], texts[i], judge)
  }

  lemma TheMarker()
    ensures NO_NEWLINE == Marker
  {
  }

  // ----- one hunk -----------------------------------------------------------------------------------

  lemma {:induction false} KeptBodies(lines: seq<PhysicalLine>)
    ensures Bodies(Kept(lines)) == KeptOf(Bodies(lines))
  {
    if lines != [] {
      var init := lines[..|lines| - 1];
      KeptBodies(init);
      assert Bodies(lines)[..|lines| - 1] == Bodies(init);
    }
  }

  lemma BodyTextIs(lines: seq<PhysicalLine>, t: HunkText, limit: nat)
    requires Bodies(lines) == t.body && BodyText(t.body, t.ranges) && ChangedText(t) <= limit
    ensures IsBody(lines, t.ranges, limit)
    ensures KindsOf(Kept(lines)) == KindsText(KeptOf(t.body))
  {
    hide KeptOf, Kept;
    KeptBodies(lines);
    var kept := Kept(lines);
    assert forall i :: 0 <= i < |kept| ==> kept[i].body == KeptOf(t.body)[i];
    assert KindsOf(kept) == KindsText(KeptOf(t.body));
    assert lines != [] ==> lines[0].body == t.body[0] && lines[|lines| - 1].body == t.body[|t.body| - 1];
  }

  /** The lines of the text stand in these lines from `at` on. */
  ghost predicate StandsAt(lines: seq<PhysicalLine>, at: nat, bodies: seq<string>) {
    at + |bodies| <= |lines| && Bodies(lines[at..at + |bodies|]) == bodies
  }

  /** A written hunk is accepted and read back, whatever stands behind it; of the no-newline
      markers behind it the first is taken with it. */
  lemma HunkReads(lines: seq<PhysicalLine>, at: nat, t: HunkText, limit: nat)
    requires HunkTextOk(t) && StandsAt(lines, at, [t.header] + t.body) && ChangedText(t) <= limit
    ensures HunkAt(lines, at, limit).Ok?
    ensures var p := HunkAt(lines, at, limit).value;
      var end := at + 1 + |t.body|;
      Reads(p.hunk, t) && p.next == (if MarkerAt(lines, end) then end + 1 else end) && p.changed == ChangedText(t)
  {
    hide Kept, KeptOf, IsBody, Header, BodyText, HunkAt, Prefixed, KindOf, Changed, ValidHunk;
    var end := at + 1 + |t.body|;
    var all := lines[at..end];
    assert Bodies(all)[0] == t.header && lines[at].body == t.header;
    assert Bodies(lines[at + 1..end]) == Bodies(all)[1..] == t.body;
    BodyTextIs(lines[at + 1..end], t, limit);
    HunkComplete(lines, at, end, limit);
    var p := HunkAt(lines, at, limit).value;
    KindsOfRecorded(p.hunk.lines, Kept(lines[at + 1..end]));
    KeptBodies(lines[at + 1..end]);
    RecordedReads(p.hunk, t, Kept(lines[at + 1..end]));
  }

  lemma RecordedReads(h: Hunk, t: HunkText, kept: seq<PhysicalLine>)
    requires RecordsAll(h.lines, kept) && Bodies(kept) == KeptOf(t.body) && h.ranges == t.ranges
    ensures Reads(h, t)
  {
    hide KeptOf;
    assert forall i :: 0 <= i < |kept| ==> KeptOf(t.body)[i] == kept[i].body;
  }

  // ----- one file -----------------------------------------------------------------------------------

  lemma StandsPart(lines: seq<PhysicalLine>, at: nat, a: seq<string>, b: seq<string>)
    requires StandsAt(lines, at, a + b)
    ensures StandsAt(lines, at, a) && StandsAt(lines, at + |a|, b)
  {
    var whole := Bodies(lines[at..at + |a + b|]);
    assert whole[..|a|] == a && whole[|a|..] == b;
    assert Bodies(lines[at..at + |a|]) == whole[..|a|];
    assert Bodies(lines[at + |a|..at + |a| + |b|]) == whole[|a|..];
  }

  lemma StandsLine(lines: seq<PhysicalLine>, at: nat, bodies: seq<string>, i: nat)
    requires StandsAt(lines, at, bodies) && i < |bodies|
    ensures at + i < |lines| && lines[at + i].body == bodies[i]
  {
    assert Bodies(lines[at..at + |bodies|])[i] == lines[at..at + |bodies|][i].body;
  }

  lemma PrefixesDiffer(body: string)
    ensures StartsWith(body, "--- ") ==> !IsHunkStart(body) && !IsFileStart(body) && body != Marker
    ensures StartsWith(body, "+++ ") ==> !IsFileStart(body)
    ensures IsHunkStart(body) ==> !IsFileStart(body) && body != Marker
    ensures Prefixed(body) || body == Marker ==> !IsFileStart(body)
    ensures Header(body).Some? ==> IsHunkStart(body)
  {
    if StartsWith(body, "--- ") { assert body[0] == '-'; }
    if StartsWith(body, "+++ ") { assert body[0] == '+'; }
    if IsHunkStart(body) { assert body[0] == '@'; }
    if IsFileStart(body) { assert body[0] == 'd'; }
    if Header(body).Some? { assert body[..4] == "@@ -" && body[..2] == "@@"; }
  }

  lemma OneMoreItem(items: seq<Item>, n: nat)
    requires n < |items|
    ensures var init, item := items[..n], items[n];
      && items[..n + 1] == init + [item]
      && LinesOfItems(items[..n + 1]) == LinesOfItems(init) + ItemLines(item)
      && HeaderOfItems(items[..n + 1]) == HeaderOfItems(init) + HeaderItem(item)
      && HunksOf(items[..n + 1]) == HunksOf(init) + (if item.Block? then [item.hunk] else [])
      && HasPair(items[..n + 1]) == (HasPair(init) || item.MarkerPair?)
  {
    assert items[..n + 1][..n] == items[..n];
  }

  lemma {:induction false} ItemsPrefix(items: seq<Item>, n: nat)
    requires n <= |items|
    ensures LinesOfItems(items[..n]) <= LinesOfItems(items)
    ensures ChangedInHunks(HunksOf(items[..n])) <= ChangedInHunks(HunksOf(items))
    decreases |items| - n
  {
    hide LinesOfItems, HunksOf, ChangedText;
    if n == |items| {
      assert items[..n] == items;
    } else {
      OneMoreItem(items, n);
      ItemsPrefix(items, n + 1);
      if items[n].Block? {
        var hunks := HunksOf(items[..n + 1]);
        assert hunks[..|hunks| - 1] == HunksOf(items[..n]);
      } else {
        assert HunksOf(items[..n]) + [] == HunksOf(items[..n]);
      }
    }
  }

  /** The lines of item `n` stand in the file's lines behind those of the items before it. */
  lemma ItemStands(lines: seq<PhysicalLine>, f: FileText, n: nat)
    requires StandsAt(lines, 0, FileLines(f)) && n < |f.items|
    ensures StandsAt(lines, 1 + |LinesOfItems(f.items[..n])|, ItemLines(f.items[n]))
  {
    hide LinesOfItems, StandsAt, ItemLines;
    OneMoreItem(f.items, n);
    ItemsPrefix(f.items, n + 1);
    var a, b, all := LinesOfItems(f.items[..n]), ItemLines(f.items[n]), LinesOfItems(f.items);
    var rest := all[|a + b|..];
    assert all == a + b + rest;
    assert FileLines(f) == [f.first] + a + b + rest;
    StandsPart(lines, 0, [f.first] + a + b, rest);
    StandsPart(lines, 0, [f.first] + a, b);
  }

  lemma PlainStep(lines: seq<PhysicalLine>, remaining: nat, c: FileCursor)
    requires c.index < |lines| && PlainHeader(lines[c.index].body)
    ensures FileBody(lines, remaining, c) ==
            FileBody(lines, remaining, c.(index := c.index + 1, header := c.header + [lines[c.index].body]))
  {
    hide HunkAt;
  }

  lemma MarkersStep(lines: seq<PhysicalLine>, remaining: nat, c: FileCursor)
    requires c.index + 1 < |lines| && !c.hasMarkers
    requires StartsWith(lines[c.index].body, "--- ") && StartsWith(lines[c.index + 1].body, "+++ ")
    ensures FileBody(lines, remaining, c) ==
            FileBody(lines, remaining, c.(index := c.index + 2, hasMarkers := true,
                                          header := c.header + [lines[c.index].body, lines[c.index + 1].body]))
  {
    hide HunkAt;
    PrefixesDiffer(lines[c.index].body);
  }

  lemma NoNewlineStep(lines: seq<PhysicalLine>, remaining: nat, c: FileCursor)
    requires MarkerAt(lines, c.index) && c.hunks != []
    ensures FileBody(lines, remaining, c) == FileBody(lines, remaining, c.(index := c.index + 1))
  {
    hide HunkAt;
    PrefixesDiffer(lines[c.index].body);
    assert lines[c.index].body[0] == '\\';
  }

  /** A hunk is taken, and the rest of the file is read from the end of its body: a marker
      there is passed over in either case. */
  lemma HunkStepTaken(lines: seq<PhysicalLine>, remaining: nat, c: FileCursor, end: nat)
    requires c.index < |lines| && IsHunkStart(lines[c.index].body) && HunkAt(lines, c.index, Left(remaining, c.changed)).Ok?
    requires HunkAt(lines, c.index, Left(remaining, c.changed)).value.next == if MarkerAt(lines, end) then end + 1 else end
    ensures var p := HunkAt(lines, c.index, Left(remaining, c.changed)).value;
      FileBody(lines, remaining, c) ==
      FileBody(lines, remaining, c.(index := end, hunks := c.hunks + [p.hunk], changed := c.changed + p.changed,
                                    header := c.header + [lines[c.index].body]))
  {
    hide HunkAt, StartsWith;
    var p := HunkAt(lines, c.index, Left(remaining, c.changed)).value;
    if MarkerAt(lines, end) {
      NoNewlineStep(lines, remaining, c.(index := end, hunks := c.hunks + [p.hunk], changed := c.changed + p.changed,
                                         header := c.header + [lines[c.index].body]));
    }
  }

  /** The cursor behind the first `n` items of the file. */
  ghost predicate Behind(c: FileCursor, f: FileText, n: nat)
    requires n <= |f.items|
  {
    var items := f.items[..n];
    && c.index == 1 + |LinesOfItems(items)|
    && ReadsAll(c.hunks, HunksOf(items))
    && c.changed == ChangedInHunks(HunksOf(items))
    && c.hasMarkers == HasPair(items)
    && c.header == [f.first] + HeaderOfItems(items)
  }

  lemma BehindNone(lines: seq<PhysicalLine>, f: FileText)
    requires lines != [] && lines[0].body == f.first
    ensures Behind(FileOpening(lines), f, 0)
  {
  }

  /** The cursor behind one more item that leaves the hunks alone. */
  lemma BehindItem(c: FileCursor, f: FileText, n: nat, c': FileCursor)
    requires n < |f.items| && Behind(c, f, n) && !f.items[n].Block?
    requires var item := f.items[n];
      c' == c.(index := c.index + |ItemLines(item)|, hasMarkers := c.hasMarkers || item.MarkerPair?, header := c.header + HeaderItem(item))
    ensures Behind(c', f, n + 1)
  {
    hide LinesOfItems, HeaderOfItems, HunksOf, HasPair, ReadsAll, ChangedInHunks, ItemLines, HeaderItem;
    OneMoreItem(f.items, n);
    assert HunksOf(f.items[..n]) + [] == HunksOf(f.items[..n]);
    assert [f.first] + (HeaderOfItems(f.items[..n]) + HeaderItem(f.items[n])) == c.header + HeaderItem(f.items[n]);
  }

  lemma BehindBlock(c: FileCursor, f: FileText, n: nat, c': FileCursor, p: ParsedHunk)
    requires n < |f.items| && Behind(c, f, n) && f.items[n].Block? && Reads(p.hunk, f.items[n].hunk)
    requires var t := f.items[n].hunk;
      c' == FileCursor(c.index + 1 + |t.body|, c.hunks + [p.hunk], c.changed + ChangedText(t), c.hasMarkers, c.header + [t.header])
    ensures Behind(c', f, n + 1)
  {
    hide LinesOfItems, HeaderOfItems, HunksOf, HasPair, Reads, ChangedInHunks, ChangedText;
    OneMoreItem(f.items, n);
    AddHunk(HunksOf(f.items[..n]), f.items[n].hunk);
    assert [f.first] + (HeaderOfItems(f.items[..n]) + HeaderItem(f.items[n])) == c.header + HeaderItem(f.items[n]);
  }

  lemma BlockRead(lines: seq<PhysicalLine>, remaining: nat, f: FileText, n: nat, c: FileCursor) returns (c': FileCursor)
    requires n < |f.items| && Behind(c, f, n) && f.items[n].Block? && HunkTextOk(f.items[n].hunk)
    requires StandsAt(lines, c.index, ItemLines(f.items[n]))
    requires ChangedInHunks(HunksOf(f.items[..n + 1])) <= remaining
    ensures FileBody(lines, remaining, c) == FileBody(lines, remaining, c') && Behind(c', f, n + 1)
  {
    hide HunkAt, HunkTextOk, FileBody, Reads, StartsWith, LinesOfItems, HeaderOfItems, HunksOf, HasPair, ChangedText, ChangedInHunks, StandsAt;
    var t := f.items[n].hunk;
    OneMoreItem(f.items, n);
    AddHunk(HunksOf(f.items[..n]), t);
    StandsLine(lines, c.index, [t.header] + t.body, 0);
    HeaderStarts(t);
    HunkReads(lines, c.index, t, Left(remaining, c.changed));
    HunkStepTaken(lines, remaining, c, c.index + 1 + |t.body|);
    var p := HunkAt(lines, c.index, Left(remaining, c.changed)).value;
    c' := FileCursor(c.index + 1 + |t.body|, c.hunks + [p.hunk], c.changed + p.changed, c.hasMarkers, c.header + [t.header]);
    BehindBlock(c, f, n, c', p);
  }

  /** Reading one more item. */
  lemma ItemRead(lines: seq<PhysicalLine>, remaining: nat, f: FileText, n: nat, c: FileCursor) returns (c': FileCursor)
    requires n < |f.items| && ItemOk(f.items[..n], f.items[n]) && Behind(c, f, n)
    requires StandsAt(lines, c.index, ItemLines(f.items[n]))
    requires ChangedInHunks(HunksOf(f.items[..n + 1])) <= remaining
    ensures FileBody(lines, remaining, c) == FileBody(lines, remaining, c') && Behind(c', f, n + 1)
  {
    hide HunkTextOk, FileBody, PlainHeader, StartsWith, Behind, HunksOf, HasPair, StandsAt, Marker, LinesOfItems, ChangedInHunks;
    TheMarker();
    var item := f.items[n];
    if item.Block? {
      c' := BlockRead(lines, remaining, f, n, c);
    } else {
      BehindParts(c, f, n);
      StandsLine(lines, c.index, ItemLines(item), 0);
      match item {
        case HeaderLine(_) => PlainStep(lines, remaining, c);
        case MarkerPair(_, _) =>
          StandsLine(lines, c.index, ItemLines(item), 1);
          MarkersStep(lines, remaining, c);
        case NoNewline => NoNewlineStep(lines, remaining, c);
      }
      c' := c.(index := c.index + |ItemLines(item)|, hasMarkers := c.hasMarkers || item.MarkerPair?, header := c.header + HeaderItem(item));
      assert c.header + [] == c.header;
      BehindItem(c, f, n, c');
    }
  }

  lemma BehindParts(c: FileCursor, f: FileText, n: nat)
    requires n <= |f.items| && Behind(c, f, n)
    ensures c.hasMarkers == HasPair(f.items[..n]) && (c.hunks == [] <==> HunksOf(f.items[..n]) == [])
    ensures c.index == 1 + |LinesOfItems(f.items[..n])|
  {
  }

  lemma AddHunk(hunks: seq<HunkText>, t: HunkText)
    ensures ChangedInHunks(hunks + [t]) == ChangedInHunks(hunks) + ChangedText(t)
  {
    assert (hunks + [t])[..|hunks|] == hunks;
  }

  lemma HeaderStarts(t: HunkText)
    requires HunkTextOk(t)
    ensures IsHunkStart(t.header)
  {
    hide Header, StartsWith, BodyText;
    PrefixesDiffer(t.header);
  }

  lemma {:induction false} ItemsWalk(lines: seq<PhysicalLine>, remaining: nat, f: FileText, judge: Judge, n: nat) returns (c: FileCursor)
    requires FileTextOk(f, judge) && StandsAt(lines, 0, FileLines(f))
    requires ChangedInHunks(HunksOf(f.items)) <= remaining && n <= |f.items|
    ensures lines != [] && FileBody(lines, remaining, FileOpening(lines)) == FileBody(lines, remaining, c) && Behind(c, f, n)
  {
    hide StandsAt, FileBody, FileTextOk, ItemLines, LinesOfItems, HunksOf, HeaderOfItems, HasPair, Behind, ItemOk, ChangedInHunks;
    FirstStands(lines, f);
    if n == 0 {
      c := FileOpening(lines);
      BehindNone(lines, f);
    } else {
      var c0 := ItemsWalk(lines, remaining, f, judge, n - 1);
      ItemStands(lines, f, n - 1);
      ItemsPrefix(f.items, n);
      ItemOkAt(f, judge, n - 1);
      BehindParts(c0, f, n - 1);
      c := ItemRead(lines, remaining, f, n - 1, c0);
    }
  }

  lemma ItemOkAt(f: FileText, judge: Judge, n: nat)
    requires FileTextOk(f, judge) && n < |f.items|
    ensures ItemOk(f.items[..n], f.items[n])
  {
  }

  lemma FirstStands(lines: seq<PhysicalLine>, f: FileText)
    requires StandsAt(lines, 0, FileLines(f))
    ensures lines != [] && lines[0].body == f.first
  {
    StandsLine(lines, 0, FileLines(f), 0);
  }

  lemma {:induction false} ReadChanged(hunks: seq<Hunk>, texts: seq<HunkText>)
    requires ReadsAll(hunks, texts)
    ensures ChangedLinesOf(hunks) == ChangedInHunks(texts)
  {
    hide KeptOf;
    if hunks != [] {
      var h, t := hunks[|hunks| - 1], texts[|texts| - 1];
      ReadChanged(hunks[..|hunks| - 1], texts[..|texts| - 1]);
      assert Reads(h, t);
      assert Kinds(h.lines) == KindsText(KeptOf(t.body));
    }
  }

  lemma FileReads(lines: seq<PhysicalLine>, remaining: nat, f: FileText, judge: Judge)
    requires FileTextOk(f, judge) && StandsAt(lines, 0, FileLines(f)) && |lines| == |FileLines(f)|
    requires ChangedInHunks(HunksOf(f.items)) <= remaining
    ensures lines != [] && FileOf(lines, remaining, judge).Ok?
    ensures ReadsFile(FileOf(lines, remaining, judge).value, f, judge)
  {
    hide StandsAt, LinesOfItems, HunksOf, ItemsOk, HeaderOfItems, HasPair, Reads, StartsWith, FileBody, ChangedInHunks;
    var c := ItemsWalk(lines, remaining, f, judge, |f.items|);
    assert f.items[..|f.items|] == f.items;
    FileEnds(lines, remaining, c);
    RangesRead(c.hunks, HunksOf(f.items));
  }

  lemma RangesRead(hunks: seq<Hunk>, texts: seq<HunkText>)
    requires ReadsAll(hunks, texts)
    ensures InOrder(hunks) <==> InSequence(texts)
  {
    hide KeptOf, KindOf;
    assert forall i :: 0 <= i < |texts| ==> Reads(hunks[i], texts[i]) && hunks[i].ranges == texts[i].ranges;
    if InSequence(texts) {
      assert forall i :: 0 < i < |hunks| ==> Follows(texts[i - 1].ranges, texts[i].ranges);
    }
    if InOrder(hunks) {
      assert forall i :: 0 < i < |texts| ==> Follows(hunks[i - 1].ranges, hunks[i].ranges);
    }
  }

  lemma FileEnds(lines: seq<PhysicalLine>, remaining: nat, c: FileCursor)
    requires c.index == |lines|
    ensures FileBody(lines, remaining, c) == Ok(c)
  {
  }

  // ----- whole diffs --------------------------------------------------------------------------------

  function Offset(files: seq<FileText>, n: nat): nat
    requires n <= |files|
  {
    |DiffLines(files[..n])|
  }

  lemma {:induction false} DiffPrefix(files: seq<FileText>, n: nat)
    requires n <= |files|
    ensures DiffLines(files[..n]) <= DiffLines(files)
  {
    if n == |files| {
      assert files[..n] == files;
    } else {
      var init := files[..|files| - 1];
      DiffPrefix(init, n);
      assert init[..n] == files[..n];
    }
  }

  lemma OneMoreFile(files: seq<FileText>, n: nat)
    requires n < |files|
    ensures DiffLines(files[..n + 1]) == DiffLines(files[..n]) + FileLines(files[n])
  {
    assert files[..n + 1][..n] == files[..n];
  }

  ghost predicate FilesTextOk(files: seq<FileText>, judge: Judge) {
    forall i :: 0 <= i < |files| ==> FileTextOk(files[i], judge)
  }

  /** The lines of file `n` stand at its offset. */
  lemma FileStands(lines: seq<PhysicalLine>, files: seq<FileText>, n: nat)
    requires Bodies(lines) == DiffLines(files) && n < |files|
    ensures Offset(files, n + 1) == Offset(files, n) + |FileLines(files[n])| <= |lines|
    ensures StandsAt(lines, Offset(files, n), FileLines(files[n]))
    ensures var part := lines[Offset(files, n)..Offset(files, n + 1)];
      |part| == |FileLines(files[n])| && StandsAt(part, 0, FileLines(files[n]))
  {
    hide DiffLines, FileLines;
    OneMoreFile(files, n);
    DiffPrefix(files, n + 1);
    var a, b, all := DiffLines(files[..n]), FileLines(files[n]), DiffLines(files);
    var rest := all[|a + b|..];
    assert all == a + b + rest;
    assert lines[0..|lines|] == lines;
    StandsPart(lines, 0, a + b, rest);
    StandsPart(lines, 0, a, b);
    var part := lines[|a|..|a| + |b|];
    assert part[0..|part|] == part;
  }

  /** Only the first line of a file's text opens a file. */
  lemma OneFileStart(f: FileText, judge: Judge, i: nat)
    requires FileTextOk(f, judge) && i < |FileLines(f)|
    ensures IsFileStart(FileLines(f)[i]) <==> i == 0
  {
    hide StartsWith, LinesOfItems, ItemsOk, HunksOf, HasPair, HeaderOfItems;
    if i > 0 {
      assert FileLines(f)[i] == LinesOfItems(f.items)[i - 1];
      assert f.items[..|f.items|] == f.items;
      NoFileStarts(f.items, |f.items|, i - 1);
    }
  }

  lemma {:induction false} NoFileStarts(items: seq<Item>, n: nat, i: nat)
    requires ItemsOk(items) && n <= |items| && i < |LinesOfItems(items[..n])|
    ensures !IsFileStart(LinesOfItems(items[..n])[i])
  {
    hide ItemOk, IsFileStart, ItemLines, LinesOfItems;
    if n == 0 {
      NoItems(items);
    } else {
      OneMoreItem(items, n - 1);
      var before := |LinesOfItems(items[..n - 1])|;
      if i < before {
        NoFileStarts(items, n - 1, i);
      } else {
        assert ItemOk(items[..n - 1], items[n - 1]);
        NotInItem(items[..n - 1], items[n - 1], i - before);
      }
    }
  }

  lemma NoItems(items: seq<Item>)
    ensures LinesOfItems(items[..0]) == []
  {
  }

  lemma NotInItem(before: seq<Item>, item: Item, i: nat)
    requires ItemOk(before, item) && i < |ItemLines(item)|
    ensures !IsFileStart(ItemLines(item)[i])
  {
    hide StartsWith, HunkTextOk, HunksOf, HasPair;
    PrefixesDiffer(ItemLines(item)[i]);
    if item.Block? { NotInHunk(item.hunk, i); }
  }

  lemma NotInHunk(t: HunkText, i: nat)
    requires HunkTextOk(t) && i <= |t.body|
    ensures !IsFileStart(([t.header] + t.body)[i])
  {
    hide Header, StartsWith;
    if i == 0 {
      PrefixesDiffer(t.header);
    } else {
      KeptMember(t.body, i - 1);
      PrefixesDiffer(t.body[i - 1]);
    }
  }

  lemma {:induction false} KeptMember(bodies: seq<string>, i: nat)
    requires i < |bodies| && forall j :: 0 <= j < |KeptOf(bodies)| ==> Prefixed(KeptOf(bodies)[j])
    ensures bodies[i] == Marker || Prefixed(bodies[i])
  {
    hide Prefixed;
    var init, last := bodies[..|bodies| - 1], bodies[|bodies| - 1];
    var kept, before := KeptOf(bodies), KeptOf(init);
    assert forall j :: 0 <= j < |before| ==> before[j] == kept[j];
    if i < |init| {
      KeptMember(init, i);
    } else if last != Marker {
      assert kept[|before|] == last;
    }
  }

  /** The sections from file `n` on are the files from `n` on. */
  function Parts(lines: seq<PhysicalLine>, files: seq<FileText>, n: nat): seq<seq<PhysicalLine>>
    requires n <= |files|
    decreases |files| - n
  {
    if n == |files| then []
    else [Part(lines, Offset(files, n), Offset(files, n + 1))] + Parts(lines, files, n + 1)
  }

  function Part(lines: seq<PhysicalLine>, from: nat, end: nat): seq<PhysicalLine> {
    if from <= end <= |lines| then lines[from..end] else []
  }

  lemma {:induction false} SectionsAreParts(lines: seq<PhysicalLine>, files: seq<FileText>, judge: Judge, n: nat)
    requires Bodies(lines) == DiffLines(files) && FilesTextOk(files, judge) && n <= |files|
    ensures Offset(files, n) <= |lines|
    ensures Sections(lines, Offset(files, n)) == Parts(lines, files, n)
    decreases |files| - n
  {
    hide DiffLines, FileLines, FileTextOk, IsFileStart, Sections, StandsAt;
    assert |Bodies(lines)| == |lines|;
    if n == |files| {
      assert files[..n] == files;
      NoMoreSections(lines);
    } else {
      FileStands(lines, files, n);
      SectionsAreParts(lines, files, judge, n + 1);
      var from, end := Offset(files, n), Offset(files, n + 1);
      FileNotEmpty(files[n], judge);
      forall i | from < i < end ensures !IsFileStart(lines[i].body) {
        StandsLine(lines, from, FileLines(files[n]), i - from);
        OneFileStart(files[n], judge, i - from);
      }
      if n + 1 < |files| {
        NextStarts(lines, files, judge, n + 1);
      } else {
        assert files[..n + 1] == files;
      }
      SectionsStep(lines, from, end);
    }
  }

  lemma FileNotEmpty(f: FileText, judge: Judge)
    requires FileTextOk(f, judge)
    ensures FileLines(f) != [] && IsFileStart(FileLines(f)[0])
  {
    hide StartsWith, LinesOfItems;
  }

  lemma NextStarts(lines: seq<PhysicalLine>, files: seq<FileText>, judge: Judge, n: nat)
    requires Bodies(lines) == DiffLines(files) && FilesTextOk(files, judge) && n < |files|
    ensures Offset(files, n) < |lines| && IsFileStart(lines[Offset(files, n)].body)
  {
    hide DiffLines, FileLines, FileTextOk, IsFileStart, StandsAt;
    FileStands(lines, files, n);
    FileNotEmpty(files[n], judge);
    StandsLine(lines, Offset(files, n), FileLines(files[n]), 0);
  }

  lemma {:induction false} PartAt(lines: seq<PhysicalLine>, files: seq<FileText>, n: nat, k: nat)
    requires n <= |files|
    ensures |Parts(lines, files, n)| == |files| - n
    ensures k < |files| - n ==> Parts(lines, files, n)[k] == Part(lines, Offset(files, n + k), Offset(files, n + k + 1))
    decreases |files| - n
  {
    hide Offset;
    if n < |files| { PartAt(lines, files, n + 1, if k > 0 then k - 1 else 0); }
  }

  ghost predicate DistinctFacts(files: seq<FileText>, judge: Judge) {
    forall i, j :: 0 <= i < j < |files| && judge(HeaderOf(files[i])).Some? && judge(HeaderOf(files[j])).Some? ==>
      judge(HeaderOf(files[i])).value.fileId != judge(HeaderOf(files[j])).value.fileId
  }

  lemma {:induction false} FilesChangedGrows(files: seq<FileText>, n: nat)
    requires n <= |files|
    ensures ChangedInFiles(files[..n]) <= ChangedInFiles(files)
  {
    if n == |files| {
      assert files[..n] == files;
    } else {
      var init := files[..|files| - 1];
      FilesChangedGrows(init, n);
      assert init[..n] == files[..n];
    }
  }

  lemma {:induction false} DiffWalk(lines: seq<PhysicalLine>, files: seq<FileText>, limits: Limits, judge: Judge, n: nat)
    requires Bodies(lines) == DiffLines(files) && FilesTextOk(files, judge) && DistinctFacts(files, judge)
    requires ChangedInFiles(files) <= limits.maxChangedLines && n <= |files| && NonEmpty(Parts(lines, files, 0))
    requires |Parts(lines, files, 0)| == |files|
    ensures var c := DiffBody(Parts(lines, files, 0), limits, judge, n);
      && c.Ok? && ReadsFiles(c.value.files, files[..n], judge)
      && c.value.seen == (set i | 0 <= i < n :: c.value.files[i].fileId)
      && c.value.changed == ChangedInFiles(files[..n])
  {
    hide DiffLines, FileTextOk, FileOf, ReadsAll, Parts, StandsAt, NonEmpty, HeaderOf, FileLines, DiffStep, ReadsFiles, Offset,
      ChangedInHunks, DistinctFacts;
    if n == 0 {
      NothingRead(judge);
      assert files[..0] == [];
    } else {
      FileNotEmpty(files[n - 1], judge);
      ChangedOneMore(lines, files, n);
      DiffWalk(lines, files, limits, judge, n - 1);
      PartAt(lines, files, 0, n - 1);
      FileStands(lines, files, n - 1);
      FilesChangedGrows(files, n);
      assert files[..n][..n - 1] == files[..n - 1];
      var c := DiffBody(Parts(lines, files, 0), limits, judge, n - 1).value;
      var part := Parts(lines, files, 0)[n - 1];
      DiffStepReads(part, files, limits, judge, n - 1, c);
    }
  }

  lemma NothingRead(judge: Judge)
    ensures ReadsFiles([], [], judge)
  {
  }

  lemma ChangedOneMore(lines: seq<PhysicalLine>, files: seq<FileText>, n: nat)
    requires 0 < n <= |files|
    ensures ChangedInFiles(files[..n]) == ChangedInFiles(files[..n - 1]) + ChangedInHunks(HunksOf(files[n - 1].items))
  {
    assert files[..n][..n - 1] == files[..n - 1];
  }

  lemma DiffStepReads(part: seq<PhysicalLine>, files: seq<FileText>, limits: Limits, judge: Judge, n: nat, c: DiffCursor)
    requires n < |files| && FilesTextOk(files, judge) && DistinctFacts(files, judge)
    requires StandsAt(part, 0, FileLines(files[n])) && |part| == |FileLines(files[n])| && part != []
    requires ReadsFiles(c.files, files[..n], judge) && c.seen == (set i | 0 <= i < n :: c.files[i].fileId)
    requires c.changed + ChangedInHunks(HunksOf(files[n].items)) <= limits.maxChangedLines
    ensures var c' := DiffStep(part, limits, judge, c);
      && c'.Ok? && ReadsFiles(c'.value.files, files[..n + 1], judge)
      && c'.value.seen == (set i | 0 <= i < n + 1 :: c'.value.files[i].fileId)
      && c'.value.changed == c.changed + ChangedInHunks(HunksOf(files[n].items))
  {
    hide FileTextOk, FileOf, ReadsAll, StandsAt, HeaderOf, FileLines, ChangedInHunks, ChangedLinesOf, HunksOf;
    var left := Left(limits.maxChangedLines, c.changed);
    FileReads(part, left, files[n], judge);
    var file := FileOf(part, left, judge).value;
    ReadChanged(file.hunks, HunksOf(files[n].items));
    forall i | 0 <= i < n ensures c.files[i].fileId != file.fileId {
      assert ReadsFile(c.files[i], files[..n][i], judge);
    }
    var files' := c.files + [file];
    forall i | 0 <= i < n + 1 ensures ReadsFile(files'[i], files[..n + 1][i], judge) {
      if i < n { assert ReadsFile(c.files[i], files[..n][i], judge); }
    }
    SeenOneMore(c, file, n);
  }

  lemma SeenOneMore(c: DiffCursor, file: ChangedFile, n: nat)
    requires |c.files| == n && c.seen == (set i | 0 <= i < n :: c.files[i].fileId)
    ensures var files := c.files + [file]; c.seen + {file.fileId} == (set i | 0 <= i < n + 1 :: files[i].fileId)
  {
    var files := c.files + [file];
    forall x ensures x in c.seen + {file.fileId} <==> x in (set i | 0 <= i < n + 1 :: files[i].fileId) {
      if x in c.seen {
        var i :| 0 <= i < n && c.files[i].fileId == x;
        assert files[i].fileId == x;
      }
      if x == file.fileId { assert files[n].fileId == x; }
    }
  }

  /** Well-formed files with distinct ids, on lines and within the limits. */
  ghost predicate WellWritten(files: seq<FileText>, limits: Limits, judge: Judge) {
    && FilesTextOk(files, judge) && DistinctFacts(files, judge) && AllOneLine(DiffLines(files))
    && |DiffLines(files)| <= limits.maxPhysicalLines && |files| <= limits.maxFiles
    && ChangedInFiles(files) <= limits.maxChangedLines
  }

  /** A diff written from well-formed files, with or without a newline behind its last line,
      is accepted, and every file comes back with its hunks: their ranges and, line by line,
      kinds and contents. */
  lemma WrittenDiffParses(text: string, files: seq<FileText>, limits: Limits, judge: Judge)
    requires WellWritten(files, limits, judge) && Writes(text, DiffLines(files))
    ensures Parsed(text, limits, judge).Ok? && ReadsFiles(Parsed(text, limits, judge).value, files, judge)
  {
    hide FileTextOk, Joined, Join, DiffBody, Sections, IsFileStart, LinesFrom, Parts, ReadsFile, DistinctFacts, FileLines, OneLine;
    LinesOfWritten(text, DiffLines(files));
    var lines := Lines(text);
    if files == [] {
      NoLinesNoText(text);
    } else {
      assert |Bodies(lines)| == |lines|;
      assert files[..0] == [] && Offset(files, 0) == 0;
      SectionsAreParts(lines, files, judge, 0);
      PartAt(lines, files, 0, 0);
      SectionsNonEmpty(lines, 0);
      FirstStarts(lines, files, judge);
      TextNotEmpty(text);
      DiffWalk(lines, files, limits, judge, |files|);
      assert files[..|files|] == files;
    }
  }

  lemma NoLinesNoText(text: string)
    requires Writes(text, DiffLines([]))
    ensures text == ""
  {
  }

  lemma TextNotEmpty(text: string)
    requires Lines(text) != []
    ensures text != ""
  {
  }

  lemma FirstStarts(lines: seq<PhysicalLine>, files: seq<FileText>, judge: Judge)
    requires Bodies(lines) == DiffLines(files) && FilesTextOk(files, judge) && files != []
    ensures lines != [] && IsFileStart(lines[0].body)
  {
    hide DiffLines, FileLines, FileTextOk, IsFileStart, StandsAt;
    FileStands(lines, files, 0);
    FileNotEmpty(files[0], judge);
    OffsetZero(files);
    StandsLine(lines, 0, FileLines(files[0]), 0);
  }

  lemma OffsetZero(files: seq<FileText>)
    ensures Offset(files, 0) == 0
  {
  }

  // ----- every accepted diff is written so --------------------------------------------------------

  /** The lines up to the cursor are written from these items. */
  ghost predicate Rewritten(lines: seq<PhysicalLine>, c: FileCursor, items: seq<Item>)
    requires lines != []
  {
    && 1 <= c.index <= |lines|
    && Bodies(lines[1..c.index]) == LinesOfItems(items)
    && ItemsOk(items)
    && ReadsAll(c.hunks, HunksOf(items))
    && c.hasMarkers == HasPair(items)
    && c.header == [lines[0].body] + HeaderOfItems(items)
  }

  lemma AddItem(items: seq<Item>, item: Item)
    ensures var all := items + [item];
      && LinesOfItems(all) == LinesOfItems(items) + ItemLines(item)
      && HeaderOfItems(all) == HeaderOfItems(items) + HeaderItem(item)
      && HunksOf(all) == HunksOf(items) + (if item.Block? then [item.hunk] else [])
      && HasPair(all) == (HasPair(items) || item.MarkerPair?)
    ensures ItemsOk(items) && ItemOk(items, item) ==> ItemsOk(items + [item])
  {
    var all := items + [item];
    assert all[..|items|] == items;
    if ItemsOk(items) && ItemOk(items, item) {
      forall i | 0 <= i < |all| ensures ItemOk(all[..i], all[i]) {
        if i < |items| {
          assert all[..i] == items[..i];
          assert ItemOk(items[..i], items[i]);
        }
      }
    }
  }

  lemma BodiesPart(lines: seq<PhysicalLine>, from: nat, mid: nat, end: nat)
    requires from <= mid <= end <= |lines|
    ensures Bodies(lines[from..end]) == Bodies(lines[from..mid]) + Bodies(lines[mid..end])
    ensures mid < |lines| ==> Bodies(lines[mid..mid + 1]) == [lines[mid].body]
  {
  }

  /** One more item, ending at `end`, that leaves the hunks alone. */
  lemma RewrittenItem(lines: seq<PhysicalLine>, c: FileCursor, items: seq<Item>, item: Item, c': FileCursor)
    requires lines != [] && Rewritten(lines, c, items) && ItemOk(items, item) && !item.Block?
    requires c.index <= c'.index <= |lines| && Bodies(lines[c.index..c'.index]) == ItemLines(item)
    requires c'.hunks == c.hunks && c'.hasMarkers == (c.hasMarkers || item.MarkerPair?) && c'.header == c.header + HeaderItem(item)
    ensures Rewritten(lines, c', items + [item])
  {
    hide LinesOfItems, HeaderOfItems, HunksOf, HasPair, ItemLines, ItemOk, ItemsOk, ReadsAll;
    AddItem(items, item);
    BodiesPart(lines, 1, c.index, c'.index);
    assert HunksOf(items) + [] == HunksOf(items);
    assert [lines[0].body] + (HeaderOfItems(items) + HeaderItem(item)) == c.header + HeaderItem(item);
  }

  lemma RewrittenMarker(lines: seq<PhysicalLine>, c: FileCursor, items: seq<Item>)
    requires lines != [] && Rewritten(lines, c, items) && MarkerAt(lines, c.index) && c.hunks != []
    ensures Rewritten(lines, c.(index := c.index + 1), items + [NoNewline])
  {
    hide LinesOfItems, HeaderOfItems, HunksOf, HasPair, ItemsOk, Reads, Marker;
    TheMarker();
    RewrittenParts(lines, c, items);
    BodiesPart(lines, c.index, c.index, c.index + 1);
    assert c.header + [] == c.header;
    RewrittenItem(lines, c, items, NoNewline, c.(index := c.index + 1));
  }

  lemma RewrittenHunk(lines: seq<PhysicalLine>, remaining: nat, c: FileCursor, items: seq<Item>) returns (items': seq<Item>)
    requires lines != [] && Rewritten(lines, c, items) && c.index < |lines|
    requires IsHunkStart(lines[c.index].body) && FileStep(lines, remaining, c).Ok?
    ensures Rewritten(lines, FileStep(lines, remaining, c).value, items')
  {
    hide LinesOfItems, HeaderOfItems, HunksOf, HasPair, ItemsOk, HunkAt, HunkTextOk, StartsWith, IsBody, Reads, HunkOfLines, Header;
    var left := Left(remaining, c.changed);
    var end := HunkSound(lines, c.index, left);
    var p := HunkAt(lines, c.index, left).value;
    var t := HunkText(lines[c.index].body, p.hunk.ranges, Bodies(lines[c.index + 1..end]));
    HunkTextFound(lines, c.index, end, left, p, t);
    AddItem(items, Block(t));
    BodiesPart(lines, c.index, c.index + 1, end);
    BodiesPart(lines, 1, c.index, end);
    items' := items + [Block(t)];
    var c' := c.(index := end, hunks := c.hunks + [p.hunk], changed := c.changed + p.changed, header := c.header + [t.header]);
    assert [lines[0].body] + (HeaderOfItems(items) + [t.header]) == c.header + [t.header];
    assert Rewritten(lines, c', items');
    NextIs(lines, c.index, end, p);
    if MarkerAt(lines, end) {
      RewrittenMarker(lines, c', items');
      items' := items' + [NoNewline];
    }
  }

  lemma NextIs(lines: seq<PhysicalLine>, at: nat, end: nat, p: ParsedHunk)
    requires at < end <= |lines| && HunkOfLines(p, lines, at, end)
    ensures p.next == if MarkerAt(lines, end) then end + 1 else end
  {
  }

  /** The lines of an accepted hunk are a written hunk. */
  lemma HunkTextFound(lines: seq<PhysicalLine>, at: nat, end: nat, limit: nat, p: ParsedHunk, t: HunkText)
    requires at < end <= |lines| && HunkOfLines(p, lines, at, end) && IsBody(lines[at + 1..end], p.hunk.ranges, limit)
    requires t == HunkText(lines[at].body, p.hunk.ranges, Bodies(lines[at + 1..end]))
    ensures HunkTextOk(t) && Reads(p.hunk, t)
  {
    hide KeptOf, Kept, Header;
    var body := lines[at + 1..end];
    KeptBodies(body);
    var kept := Kept(body);
    assert forall i :: 0 <= i < |kept| ==> kept[i].body == KeptOf(t.body)[i];
    assert KindsOf(kept) == KindsText(KeptOf(t.body));
    assert body != [] ==> t.body[0] == body[0].body && t.body[|t.body| - 1] == body[|body| - 1].body;
    RecordedReads(p.hunk, t, kept);
  }

  lemma RewrittenStep(lines: seq<PhysicalLine>, remaining: nat, c: FileCursor, items: seq<Item>) returns (items': seq<Item>)
    requires lines != [] && Rewritten(lines, c, items) && c.index < |lines| && !IsFileStart(lines[c.index].body)
    requires FileStep(lines, remaining, c).Ok?
    ensures Rewritten(lines, FileStep(lines, remaining, c).value, items')
  {
    hide LinesOfItems, HeaderOfItems, HunksOf, HasPair, ItemsOk, HunkAt, HunkTextOk, StartsWith, Reads, Rewritten, Marker;
    TheMarker();
    RewrittenParts(lines, c, items);
    var body := lines[c.index].body;
    var c' := FileStep(lines, remaining, c).value;
    BodiesPart(lines, c.index, c.index, |lines|);
    if IsHunkStart(body) {
      items' := RewrittenHunk(lines, remaining, c, items);
    } else {
      var item :=
        if StartsWith(body, "--- ") then MarkerPair(body, lines[c.index + 1].body)
        else if body == Marker then NoNewline
        else HeaderLine(body);
      if item.MarkerPair? {
        BodiesPart(lines, c.index, c.index + 1, c.index + 2);
        BodiesPart(lines, c.index + 1, c.index + 1, |lines|);
      }
      assert c.header + [] == c.header;
      RewrittenItem(lines, c, items, item, c');
      items' := items + [item];
    }
  }

  lemma RewrittenParts(lines: seq<PhysicalLine>, c: FileCursor, items: seq<Item>)
    requires lines != [] && Rewritten(lines, c, items)
    ensures c.hasMarkers == HasPair(items) && (c.hunks == [] <==> HunksOf(items) == [])
  {
  }

  ghost predicate OneSection(lines: seq<PhysicalLine>) {
    lines != [] && IsFileStart(lines[0].body) && forall i :: 1 <= i < |lines| ==> !IsFileStart(lines[i].body)
  }

  lemma {:induction false} BodyRewritten(lines: seq<PhysicalLine>, remaining: nat, c: FileCursor, items: seq<Item>)
    returns (items': seq<Item>)
    requires OneSection(lines) && Rewritten(lines, c, items) && FileBody(lines, remaining, c).Ok?
    ensures Rewritten(lines, FileBody(lines, remaining, c).value, items')
    ensures FileBody(lines, remaining, c).value.index == |lines|
    decreases |lines| - c.index
  {
    hide FileStep, IsFileStart, LinesOfItems, HeaderOfItems, HunksOf, HasPair, ItemsOk, ReadsAll;
    if c.index == |lines| {
      items' := items;
    } else {
      var more := RewrittenStep(lines, remaining, c, items);
      items' := BodyRewritten(lines, remaining, FileStep(lines, remaining, c).value, more);
    }
  }

  lemma NothingRewritten(lines: seq<PhysicalLine>)
    requires lines != []
    ensures Rewritten(lines, FileOpening(lines), [])
  {
    assert lines[1..1] == [];
  }

  /** The lines of an accepted file are a well-formed file, read back as such. */
  lemma FileFound(lines: seq<PhysicalLine>, remaining: nat, judge: Judge) returns (f: FileText)
    requires OneSection(lines) && FileOf(lines, remaining, judge).Ok?
    ensures FileTextOk(f, judge) && FileLines(f) == Bodies(lines)
    ensures ReadsFile(FileOf(lines, remaining, judge).value, f, judge)
  {
    hide FileBody, LinesOfItems, HeaderOfItems, HunksOf, HasPair, ItemsOk, Reads, StartsWith;
    NothingRewritten(lines);
    var items := BodyRewritten(lines, remaining, FileOpening(lines), []);
    var c := FileBody(lines, remaining, FileOpening(lines)).value;
    f := FileText(lines[0].body, items);
    RangesRead(c.hunks, HunksOf(items));
    assert Bodies(lines) == [lines[0].body] + Bodies(lines[1..|lines|]);
  }

  function JoinedSections(sections: seq<seq<PhysicalLine>>): seq<PhysicalLine> {
    if sections == [] then [] else sections[0] + JoinedSections(sections[1..])
  }

  lemma {:induction false} JoinBack(sections: seq<seq<PhysicalLine>>, section: seq<PhysicalLine>)
    ensures JoinedSections(sections + [section]) == JoinedSections(sections) + section
  {
    var all := sections + [section];
    if sections == [] {
      assert all[1..] == [];
    } else {
      JoinBack(sections[1..], section);
      assert all[1..] == sections[1..] + [section];
      assert sections[0] + (JoinedSections(sections[1..]) + section) == sections[0] + JoinedSections(sections[1..]) + section;
    }
  }

  ghost predicate AllSections(sections: seq<seq<PhysicalLine>>) {
    forall n :: 0 <= n < |sections| ==> OneSection(sections[n])
  }

  lemma {:induction false} SectionsTile(lines: seq<PhysicalLine>, start: nat)
    requires start <= |lines| && (start < |lines| ==> IsFileStart(lines[start].body))
    ensures AllSections(Sections(lines, start)) && JoinedSections(Sections(lines, start)) == lines[start..]
    decreases |lines| - start
  {
    hide IsFileStart;
    if start < |lines| {
      var end := SectionEnd(lines, start + 1);
      SectionsTile(lines, end);
      var head, rest := lines[start..end], Sections(lines, end);
      assert OneSection(head) by { assert head[0] == lines[start]; }
      SectionInFront(head, rest);
      assert head + lines[end..] == lines[start..];
    }
  }

  lemma SectionInFront(head: seq<PhysicalLine>, rest: seq<seq<PhysicalLine>>)
    requires OneSection(head) && AllSections(rest)
    ensures AllSections([head] + rest) && JoinedSections([head] + rest) == head + JoinedSections(rest)
  {
    hide OneSection;
    assert ([head] + rest)[1..] == rest;
  }

  lemma BodiesBoth(a: seq<PhysicalLine>, b: seq<PhysicalLine>)
    ensures Bodies(a + b) == Bodies(a) + Bodies(b)
  {
  }

  /** The files accepted so far are written in the sections so far. */
  lemma {:induction false} FilesFound(sections: seq<seq<PhysicalLine>>, limits: Limits, judge: Judge, n: nat) returns (files: seq<FileText>)
    requires NonEmpty(sections) && AllSections(sections) && n <= |sections| && DiffBody(sections, limits, judge, n).Ok?
    ensures FilesTextOk(files, judge) && DiffLines(files) == Bodies(JoinedSections(sections[..n]))
    ensures ReadsFiles(DiffBody(sections, limits, judge, n).value.files, files, judge)
  {
    hide FileTextOk, ReadsFile, FileOf, FileLines, JoinedSections, IsFileStart;
    if n == 0 {
      files := [];
      NothingJoined(sections);
    } else {
      var before := FilesFound(sections, limits, judge, n - 1);
      var c := DiffBody(sections, limits, judge, n - 1).value;
      var f := FileFound(sections[n - 1], Left(limits.maxChangedLines, c.changed), judge);
      files := before + [f];
      assert files[..|before|] == before;
      assert sections[..n] == sections[..n - 1] + [sections[n - 1]];
      JoinBack(sections[..n - 1], sections[n - 1]);
      BodiesBoth(JoinedSections(sections[..n - 1]), sections[n - 1]);
    }
  }

  lemma NothingJoined(sections: seq<seq<PhysicalLine>>)
    ensures Bodies(JoinedSections(sections[..0])) == []
  {
  }

  lemma {:induction false} ReadChangedFiles(files: seq<ChangedFile>, texts: seq<FileText>, judge: Judge)
    requires ReadsFiles(files, texts, judge)
    ensures ChangedIn(files) == ChangedInFiles(texts)
  {
    hide ReadsAll, HunksOf, ChangedInHunks, ChangedLinesOf, HeaderOf;
    if files != [] {
      var n := |files| - 1;
      ReadChangedFiles(files[..n], texts[..n], judge);
      assert ReadsFile(files[n], texts[n], judge);
      ReadChanged(files[n].hunks, HunksOf(texts[n].items));
    }
  }

  lemma ReadIdsDiffer(files: seq<ChangedFile>, texts: seq<FileText>, judge: Judge)
    requires ReadsFiles(files, texts, judge) && DistinctIds(files)
    ensures DistinctFacts(texts, judge)
  {
    hide ReadsAll, HunksOf, HeaderOf;
    assert forall i :: 0 <= i < |texts| ==> ReadsFile(files[i], texts[i], judge);
  }

  /** Every accepted diff is written from well-formed files. */
  lemma AcceptedDiffIsWritten(text: string, limits: Limits, judge: Judge) returns (files: seq<FileText>)
    requires Parsed(text, limits, judge).Ok?
    ensures WellWritten(files, limits, judge) && Writes(text, DiffLines(files))
    ensures ReadsFiles(Parsed(text, limits, judge).value, files, judge)
  {
    hide FilesTextOk, ReadsFiles, DistinctFacts, DistinctIds, DiffBody, LinesFrom, Sections, Writes, AllOneLine, AllFilesOk, Spread,
      IsFileStart, DiffLines, ChangedInFiles, ChangedIn, AllSections;
    if text == "" {
      files := [];
      EmptyDiffWritten(limits, judge);
    } else {
      var lines := Lines(text);
      var sections := Sections(lines, 0);
      SectionsNonEmpty(lines, 0);
      SectionsTile(lines, 0);
      files := FilesFound(sections, limits, judge, |sections|);
      assert sections[..|sections|] == sections && lines[0..] == lines;
      var parsed := DiffBody(sections, limits, judge, |sections|).value.files;
      TextWritten(text);
      ParsedSound(text, limits, judge);
      ReadChangedFiles(parsed, files, judge);
      ReadIdsDiffer(parsed, files, judge);
      SameCount(parsed, files, judge);
      assert |Bodies(lines)| == |lines|;
    }
  }

  lemma SameCount(files: seq<ChangedFile>, texts: seq<FileText>, judge: Judge)
    requires ReadsFiles(files, texts, judge)
    ensures |files| == |texts|
  {
  }

  lemma EmptyDiffWritten(limits: Limits, judge: Judge)
    ensures WellWritten([], limits, judge) && Writes("", DiffLines([])) && ReadsFiles([], [], judge)
  {
  }

  ghost predicate IsWritten(text: string, files: seq<FileText>, limits: Limits, judge: Judge) {
    WellWritten(files, limits, judge) && Writes(text, DiffLines(files))
  }

  /** The parser accepts exactly the texts written from well-formed files within the limits,
      and reads each as what it was written from. */
  lemma AcceptedIffWritten(text: string, limits: Limits, judge: Judge)
    ensures Parsed(text, limits, judge).Ok? <==> exists files :: IsWritten(text, files, limits, judge)
    ensures forall files :: IsWritten(text, files, limits, judge) ==> ReadsFiles(Parsed(text, limits, judge).value, files, judge)
  {
    hide WellWritten, Writes, Parsed, ReadsFiles;
    if Parsed(text, limits, judge).Ok? {
      var files := AcceptedDiffIsWritten(text, limits, judge);
      assert IsWritten(text, files, limits, judge);
    }
    forall files | IsWritten(text, files, limits, judge)
      ensures Parsed(text, limits, judge).Ok? && ReadsFiles(Parsed(text, limits, judge).value, files, judge)
    {
      WrittenDiffParses(text, files, limits, judge);
    }
  }

  // ----- an example ---------------------------------------------------------------------------------

  /** A smallest diff: one file with one hunk that adds a line, not ended by a newline. */
  function SmallHunk(line: string): HunkText {
    var r := Ranges(0, 0, 1, 1);
    HunkText(RenderHeader(r, true, ""), r, ["+" + line])
  }

  function SmallFile(line: string): FileText {
    FileText("diff --git a/f b/f", [MarkerPair("--- /dev/null", "+++ b/f"), Block(SmallHunk(line)), NoNewline])
  }

  lemma SmallHunkOk(line: string)
    ensures HunkTextOk(SmallHunk(line))
  {
    hide Header, RenderHeader;
    var t := SmallHunk(line);
    HeaderOfRendered(t.ranges, true, "");
    assert ("+" + line)[0] == '+' && Marker[0] == '\\';
    assert t.body[..0] == [];
    assert KeptOf(t.body) == [] + ["+" + line] == ["+" + line];
    assert KindsText(["+" + line]) == [] + [Addition];
    CountOne([], Addition);
  }

  /** Well-formed files exist, whatever line they add, with a no-newline marker at the end. */
  lemma SmallFileOk(line: string, judge: Judge)
    requires judge(HeaderOf(SmallFile(line))).Some? && !judge(HeaderOf(SmallFile(line))).value.binary
    ensures FileTextOk(SmallFile(line), judge)
  {
    hide HunkTextOk, HeaderOf, LinesOfItems, HeaderOfItems, ItemsOk, HunksOf, HasPair, StartsWith, SmallHunk;
    SmallHunkOk(line);
    SmallStarts();
    PairAndBlockOk(MarkerPair("--- /dev/null", "+++ b/f"), SmallHunk(line));
  }

  lemma SmallStarts()
    ensures IsFileStart("diff --git a/f b/f") && StartsWith("--- /dev/null", "--- ") && StartsWith("+++ b/f", "+++ ")
  {
  }

  lemma PairAndBlockOk(pair: Item, t: HunkText)
    requires pair.MarkerPair? && StartsWith(pair.before, "--- ") && StartsWith(pair.after, "+++ ") && HunkTextOk(t)
    ensures var items := [pair, Block(t), NoNewline];
      ItemsOk(items) && HunksOf(items) == [t] && HasPair(items) && InSequence(HunksOf(items))
  {
    hide HunkTextOk, LinesOfItems, HeaderOfItems, StartsWith, ItemsOk, HunksOf, HasPair;
    var none: seq<Item> := [];
    NoItemsYet();
    AddItem(none, pair);
    AddItem([pair], Block(t));
    AddItem([pair, Block(t)], NoNewline);
    assert none + [pair] == [pair] && [pair] + [Block(t)] == [pair, Block(t)];
    assert [pair, Block(t)] + [NoNewline] == [pair, Block(t), NoNewline];
  }

  /** A file with one marker pair and one hunk. */
  lemma PairAndBlockFileOk(f: FileText, pair: Item, t: HunkText, judge: Judge)
    requires f.items == [pair, Block(t)] && StartsWith(f.first, "diff --git ")
    requires pair.MarkerPair? && StartsWith(pair.before, "--- ") && StartsWith(pair.after, "+++ ") && HunkTextOk(t)
    requires judge(HeaderOf(f)).Some? && !judge(HeaderOf(f)).value.binary
    ensures FileTextOk(f, judge) && HunksOf(f.items) == [t]
    ensures FileLines(f) == [f.first] + ([pair.before, pair.after] + ([t.header] + t.body))
  {
    hide HunkTextOk, HeaderOfItems, StartsWith, ItemsOk, HunksOf, HasPair, LinesOfItems;
    var none: seq<Item> := [];
    NoItemsYet();
    NoItems(none);
    AddItem(none, pair);
    AddItem([pair], Block(t));
    assert none + [pair] == [pair] && [pair] + [Block(t)] == f.items;
    assert HunksOf(f.items) == [t];
  }

  lemma NoItemsYet()
    ensures ItemsOk([]) && HunksOf([]) == [] && !HasPair([])
  {
  }
}
