/** Redaction: find every text a scanner marked, merge the ranges, and splice in placeholders. */
module Redaction {
  import opened Wrappers
  import DiffText

  datatype Category =
    | Credential | PrivateKey | CertificateMaterial | ConnectionString
    | CloudSecret | PersonalData | BusinessSensitive | UnknownSensitive

  function Priority(c: Category): nat {
    match c
    case PrivateKey => 0 case CertificateMaterial => 0 case Credential => 0 case CloudSecret => 0
    case ConnectionString => 1 case BusinessSensitive => 2 case PersonalData => 3 case UnknownSensitive => 4
  }

  function UpperName(c: Category): string {
    match c
    case Credential => "CREDENTIAL" case PrivateKey => "PRIVATE_KEY"
    case CertificateMaterial => "CERTIFICATE_MATERIAL" case ConnectionString => "CONNECTION_STRING"
    case CloudSecret => "CLOUD_SECRET" case PersonalData => "PERSONAL_DATA"
    case BusinessSensitive => "BUSINESS_SENSITIVE" case UnknownSensitive => "UNKNOWN_SENSITIVE"
  }

  /** The place of the category's name in alphabetical order. */
  function NameOrder(c: Category): nat {
    match c
    case BusinessSensitive => 0 case CertificateMaterial => 1 case CloudSecret => 2 case ConnectionString => 3
    case Credential => 4 case PersonalData => 5 case PrivateKey => 6 case UnknownSensitive => 7
  }

  datatype Finding = Finding(start: nat, end: nat, category: Category)

  datatype Span = Span(start: nat, end: nat)

  datatype Range = Range(start: nat, end: nat, category: Category)

  // ----- occurrences ----------------------------------------------------------------------------

  predicate OccursAt(content: string, w: string, p: nat) {
    p + |w| <= |content| && content[p..p + |w|] == w
  }

  /** The first occurrence at or behind `from`. */
  function Find(content: string, w: string, from: nat): (at: Option<nat>)
    ensures at.Some? ==> from <= at.value && OccursAt(content, w, at.value)
    ensures forall p :: from <= p && OccursAt(content, w, p) ==> at.Some? && at.value <= p
    decreases |content| - from
  {
    if OccursAt(content, w, from) then Some(from)
    else if from >= |content| then None
    else Find(content, w, from + 1)
  }

  /** The occurrences that a search finds which goes on behind each one found. */
  function Search(content: string, w: string, from: nat): seq<nat>
    requires w != ""
    decreases |content| - from
  {
    var at := Find(content, w, from);
    if at == None then [] else [at.value] + Search(content, w, at.value + |w|)
  }

  predicate Protected(spans: seq<Span>, start: nat, end: nat) {
    exists i :: 0 <= i < |spans| && spans[i].start <= start && end <= spans[i].end
  }

  predicate ValidFinding(content: string, f: Finding) {
    f.start < f.end <= |content|
  }

  predicate ValidFindings(content: string, findings: seq<Finding>) {
    forall i :: 0 <= i < |findings| ==> ValidFinding(content, findings[i])
  }

  /** The ranges of the first `n` of these occurrences that are not protected. */
  function Unprotected(at: seq<nat>, length: nat, category: Category, spans: seq<Span>, n: nat): set<Range>
    requires n <= |at|
  {
    if n == 0 then {}
    else
      var p := at[n - 1];
      Unprotected(at, length, category, spans, n - 1)
      + (if Protected(spans, p, p + length) then {} else {Range(p, p + length, category)})
  }

  function FindingRanges(content: string, f: Finding, spans: seq<Span>): set<Range>
    requires ValidFinding(content, f)
  {
    var w := content[f.start..f.end];
    var at := Search(content, w, 0);
    Unprotected(at, |w|, f.category, spans, |at|)
  }

  function Collected(content: string, findings: seq<Finding>, spans: seq<Span>): set<Range>
    requires ValidFindings(content, findings)
  {
    if findings == [] then {}
    else
      Collected(content, findings[..|findings| - 1], spans)
      + FindingRanges(content, findings[|findings| - 1], spans)
  }

  // ----- sorting and merging ----------------------------------------------------------------------

  predicate Less(a: Range, b: Range) {
    || a.start < b.start
    || (a.start == b.start && a.end < b.end)
    || (a.start == b.start && a.end == b.end && NameOrder(a.category) < NameOrder(b.category))
  }

  predicate Sorted(ranges: seq<Range>) {
    forall i, j :: 0 <= i < j < |ranges| ==> Less(ranges[i], ranges[j])
  }

  /** The sorted listing of a set of ranges. */
  ghost predicate Lists(ranges: seq<Range>, values: set<Range>) {
    Sorted(ranges) && forall r :: r in ranges <==> r in values
  }

  lemma {:induction false} ListingUnique(a: seq<Range>, b: seq<Range>, values: set<Range>)
    requires Lists(a, values) && Lists(b, values)
    ensures a == b
    decreases |a|
  {
    HeadMember(a);
    HeadMember(b);
    if a == [] {
      assert b == [];
    } else {
      assert a[0] in b && b != [];
      assert b[0] in a;
      assert a[0] == b[0];
      assert a == [a[0]] + a[1..] && b == [b[0]] + b[1..];
      forall r ensures r in a[1..] <==> r in values - {a[0]} {
        assert r in a <==> r == a[0] || r in a[1..];
      }
      forall r ensures r in b[1..] <==> r in values - {a[0]} {
        assert r in b <==> r == b[0] || r in b[1..];
      }
      ListingUnique(a[1..], b[1..], values - {a[0]});
    }
  }

  lemma HeadMember(a: seq<Range>)
    ensures a != [] ==> a[0] in a
  {
  }

  method SortRanges(values: set<Range>) returns (ranges: seq<Range>)
    ensures Lists(ranges, values)
  {
    ranges := [];
    var rest := values;
    while rest != {}
      invariant rest <= values && Sorted(ranges)
      invariant forall r :: r in values <==> r in rest || r in ranges
      invariant forall r, q :: r in ranges && q in rest ==> Less(r, q)
      decreases |rest|
    {
      var least := Least(rest);
      assert forall i :: 0 <= i < |ranges| ==> ranges[i] in ranges;
      ranges := ranges + [least];
      rest := rest - {least};
    }
  }

  method Least(values: set<Range>) returns (least: Range)
    requires values != {}
    ensures least in values && forall r :: r in values && r != least ==> Less(least, r)
  {
    least :| least in values;
    var rest := values - {least};
    while rest != {}
      invariant least in values && rest <= values
      invariant forall r :: r in values && r !in rest && r != least ==> Less(least, r)
      decreases |rest|
    {
      var r :| r in rest;
      if Less(r, least) { least := r; } else { NamesDiffer(r, least); }
      rest := rest - {r};
    }
  }

  lemma NamesDiffer(a: Range, b: Range)
    ensures a == b || Less(a, b) || Less(b, a)
  {
  }

  function Preferred(first: Category, second: Category): Category {
    if Priority(first) <= Priority(second) then first else second
  }

  function Add(merged: seq<Range>, r: Range): seq<Range> {
    if merged != [] && r.start <= merged[|merged| - 1].end then
      var last := merged[|merged| - 1];
      merged[..|merged| - 1] + [Range(last.start, if last.end < r.end then r.end else last.end, Preferred(last.category, r.category))]
    else merged + [r]
  }

  function Merged(ranges: seq<Range>): seq<Range> {
    if ranges == [] then [] else Add(Merged(ranges[..|ranges| - 1]), ranges[|ranges| - 1])
  }

  predicate Covers(r: Range, p: int) { r.start <= p < r.end }

  ghost predicate Covered(ranges: seq<Range>, p: int) {
    exists i :: 0 <= i < |ranges| && Covers(ranges[i], p)
  }

  predicate NonEmpty(ranges: seq<Range>) {
    forall i :: 0 <= i < |ranges| ==> ranges[i].start < ranges[i].end
  }

  /** Non-empty ranges with a gap between each and the next. */
  predicate Separated(ranges: seq<Range>) {
    NonEmpty(ranges) && forall i, j :: 0 <= i < j < |ranges| ==> ranges[i].end < ranges[j].start
  }

  predicate Inside(r: Range, m: Range) { m.start <= r.start && r.end <= m.end }

  /** The category of a merged range is that of the first of the ranges inside it that have
      the best priority. */
  ghost predicate BestOf(m: Range, ranges: seq<Range>, i: nat)
    requires i < |ranges|
  {
    && Inside(ranges[i], m) && ranges[i].category == m.category
    && (forall j :: 0 <= j < |ranges| && Inside(ranges[j], m) ==> Priority(m.category) <= Priority(ranges[j].category))
    && (forall j :: 0 <= j < i && Inside(ranges[j], m) ==> Priority(m.category) < Priority(ranges[j].category))
  }

  ghost predicate HasBest(m: Range, ranges: seq<Range>) {
    exists i :: 0 <= i < |ranges| && BestOf(m, ranges, i)
  }

  /** What merging makes of sorted ranges. */
  ghost predicate IsMergeOf(merged: seq<Range>, ranges: seq<Range>) {
    && Separated(merged)
    && (forall p :: Covered(merged, p) <==> Covered(ranges, p))
    && (forall k :: 0 <= k < |merged| ==> HasBest(merged[k], ranges))
    && (forall i :: 0 <= i < |ranges| ==> InSome(ranges[i], merged))
  }

  ghost predicate InSome(r: Range, merged: seq<Range>) {
    exists k :: 0 <= k < |merged| && Inside(r, merged[k])
  }

  ghost predicate UpTo(ranges: seq<Range>, start: nat) {
    forall i :: 0 <= i < |ranges| ==> ranges[i].start <= start
  }

  lemma MergedStarts(merged: seq<Range>, ranges: seq<Range>, start: nat)
    requires IsMergeOf(merged, ranges) && UpTo(ranges, start) && NonEmpty(ranges)
    ensures UpTo(merged, start)
  {
    forall k | 0 <= k < |merged| ensures merged[k].start <= start {
      assert HasBest(merged[k], ranges);
      var i :| 0 <= i < |ranges| && BestOf(merged[k], ranges, i);
      assert ranges[i].start <= start;
    }
  }

  lemma CoveredOneMore(ranges: seq<Range>, r: Range, p: int)
    ensures Covered(ranges + [r], p) <==> Covered(ranges, p) || Covers(r, p)
  {
    var all := ranges + [r];
    if Covered(ranges, p) {
      var i :| 0 <= i < |ranges| && Covers(ranges[i], p);
      assert Covers(all[i], p);
    }
    if Covers(r, p) { assert Covers(all[|ranges|], p); }
    if Covered(all, p) {
      var i :| 0 <= i < |all| && Covers(all[i], p);
      assert i < |ranges| ==> Covers(ranges[i], p);
    }
  }

  /** A range that touches the last merged one is joined to it. */
  lemma JoinedCovers(merged: seq<Range>, r: Range, p: int)
    requires Separated(merged) && merged != [] && UpTo(merged, r.start) && r.start < r.end
    requires r.start <= merged[|merged| - 1].end
    ensures Covered(Add(merged, r), p) <==> Covered(merged, p) || Covers(r, p)
    ensures Separated(Add(merged, r))
  {
    var front, last := merged[..|merged| - 1], merged[|merged| - 1];
    var joined := Add(merged, r)[|front|];
    assert merged == front + [last] && Add(merged, r) == front + [joined];
    CoveredOneMore(front, last, p);
    CoveredOneMore(front, joined, p);
    assert Covers(joined, p) <==> Covers(last, p) || Covers(r, p);
  }

  lemma BestStays(m: Range, ranges: seq<Range>, r: Range)
    requires HasBest(m, ranges) && !Inside(r, m)
    ensures HasBest(m, ranges + [r])
  {
    var i :| 0 <= i < |ranges| && BestOf(m, ranges, i);
    assert BestOf(m, ranges + [r], i);
  }

  lemma InSomeStays(merged: seq<Range>, merged': seq<Range>, r: Range)
    requires InSome(r, merged) && |merged| <= |merged'|
    requires forall k :: 0 <= k < |merged| ==> merged'[k].start <= merged[k].start && merged[k].end <= merged'[k].end
    ensures InSome(r, merged')
  {
    var k :| 0 <= k < |merged| && Inside(r, merged[k]);
    assert Inside(r, merged'[k]);
  }

  /** What lies inside the joined range lay inside the last one, or is the new range. */
  lemma InsideLast(merged: seq<Range>, ranges: seq<Range>, r: Range, j: nat)
    requires IsMergeOf(merged, ranges) && NonEmpty(ranges) && merged != []
    requires j < |ranges| && Inside(ranges[j], Add(merged, r)[|merged| - 1]) && r.start <= merged[|merged| - 1].end
    ensures Inside(ranges[j], merged[|merged| - 1])
  {
    hide Covered, HasBest;
    assert InSome(ranges[j], merged);
    var k :| 0 <= k < |merged| && Inside(ranges[j], merged[k]);
    assert k < |merged| - 1 ==> merged[k].end < merged[|merged| - 1].start;
  }

  lemma BestJoins(last: Range, joined: Range, ranges: seq<Range>, r: Range)
    requires HasBest(last, ranges) && Inside(last, joined) && Inside(r, joined)
    requires joined.category == Preferred(last.category, r.category)
    requires forall j :: 0 <= j < |ranges| && Inside(ranges[j], joined) ==> Inside(ranges[j], last)
    ensures HasBest(joined, ranges + [r])
  {
    var i :| 0 <= i < |ranges| && BestOf(last, ranges, i);
    assert BestOf(joined, ranges + [r], if Priority(last.category) <= Priority(r.category) then i else |ranges|);
  }

  lemma JoinedBest(merged: seq<Range>, ranges: seq<Range>, r: Range)
    requires IsMergeOf(merged, ranges) && NonEmpty(ranges) && merged != [] && UpTo(merged, r.start)
    requires r.start <= merged[|merged| - 1].end
    ensures HasBest(Add(merged, r)[|merged| - 1], ranges + [r])
  {
    hide IsMergeOf, HasBest, NonEmpty;
    var last, joined := merged[|merged| - 1], Add(merged, r)[|merged| - 1];
    forall j | 0 <= j < |ranges| && Inside(ranges[j], joined) ensures Inside(ranges[j], last) {
      InsideLast(merged, ranges, r, j);
    }
    LastHasBest(merged, ranges);
    BestJoins(last, joined, ranges, r);
  }

  lemma LastHasBest(merged: seq<Range>, ranges: seq<Range>)
    requires IsMergeOf(merged, ranges) && merged != []
    ensures HasBest(merged[|merged| - 1], ranges)
  {
  }

  lemma AddKeeps(merged: seq<Range>, ranges: seq<Range>, r: Range)
    requires IsMergeOf(merged, ranges) && NonEmpty(ranges) && UpTo(ranges, r.start) && r.start < r.end
    ensures IsMergeOf(Add(merged, r), ranges + [r])
  {
    hide Covered, HasBest, InSome;
    var merged', all := Add(merged, r), ranges + [r];
    MergedStarts(merged, ranges, r.start);
    if merged != [] && r.start <= merged[|merged| - 1].end {
      forall p ensures Covered(merged', p) <==> Covered(all, p) {
        JoinedCovers(merged, r, p);
        CoveredOneMore(ranges, r, p);
      }
      JoinedBest(merged, ranges, r);
      InItself(merged', |merged| - 1, r);
    } else {
      forall p ensures Covered(merged', p) <==> Covered(all, p) {
        CoveredOneMore(merged, r, p);
        CoveredOneMore(ranges, r, p);
      }
      AloneBest(merged, ranges, r);
      InItself(merged', |merged|, r);
    }
    forall k | 0 <= k < |merged'| ensures HasBest(merged'[k], all) {
      if k < |merged| && merged'[k] == merged[k] && !Inside(r, merged[k]) { BestStays(merged[k], ranges, r); }
    }
    forall i | 0 <= i < |all| ensures InSome(all[i], merged') {
      if i < |ranges| { InSomeStays(merged, merged', ranges[i]); }
    }
  }

  lemma InItself(merged: seq<Range>, k: nat, r: Range)
    requires k < |merged| && Inside(r, merged[k])
    ensures InSome(r, merged)
  {
  }

  lemma AloneBest(merged: seq<Range>, ranges: seq<Range>, r: Range)
    requires IsMergeOf(merged, ranges) && NonEmpty(ranges) && (merged == [] || merged[|merged| - 1].end < r.start)
    ensures HasBest(r, ranges + [r])
  {
    hide Covered, HasBest;
    forall j | 0 <= j < |ranges| ensures !Inside(ranges[j], r) {
      assert InSome(ranges[j], merged);
      var k :| 0 <= k < |merged| && Inside(ranges[j], merged[k]);
      assert merged[k].end <= merged[|merged| - 1].end;
    }
    BestAlone(ranges, r);
  }

  lemma BestAlone(ranges: seq<Range>, r: Range)
    requires forall j :: 0 <= j < |ranges| ==> !Inside(ranges[j], r)
    ensures HasBest(r, ranges + [r])
  {
    assert BestOf(r, ranges + [r], |ranges|);
  }

  /** Merged ranges are strictly separated, cover exactly what the sorted ranges cover, and
      have the category of the first best-priority range inside them; every range lies in one. */
  lemma {:induction false} MergedIsMerge(ranges: seq<Range>)
    requires Sorted(ranges) && NonEmpty(ranges)
    ensures IsMergeOf(Merged(ranges), ranges)
  {
    hide IsMergeOf;
    if ranges == [] {
      NothingMerged();
    } else {
      var init, r := ranges[..|ranges| - 1], ranges[|ranges| - 1];
      MergedIsMerge(init);
      AddKeeps(Merged(init), init, r);
      assert ranges == init + [r];
    }
  }

  lemma NothingMerged()
    ensures IsMergeOf([], [])
  {
  }

  // ----- splicing -------------------------------------------------------------------------------

  function TwoDigits(n: nat): string {
    if n < 10 then "0" + DiffText.Decimal(n) else DiffText.Decimal(n)
  }

  function Placeholder(c: Category, index: nat): string {
    "<REDACTED:" + UpperName(c) + ":" + TwoDigits(index) + ">"
  }

  // ----- what a placeholder says ------------------------------------------------------------------

  function CategoryNamed(name: string): Option<Category> {
    if name == "CREDENTIAL" then Some(Credential)
    else if name == "PRIVATE_KEY" then Some(PrivateKey)
    else if name == "CERTIFICATE_MATERIAL" then Some(CertificateMaterial)
    else if name == "CONNECTION_STRING" then Some(ConnectionString)
    else if name == "CLOUD_SECRET" then Some(CloudSecret)
    else if name == "PERSONAL_DATA" then Some(PersonalData)
    else if name == "BUSINESS_SENSITIVE" then Some(BusinessSensitive)
    else if name == "UNKNOWN_SENSITIVE" then Some(UnknownSensitive)
    else None
  }

  function ColonAt(s: string): Option<nat> {
    if s == "" then None
    else if s[0] == ':' then Some(0)
    else
      var at := ColonAt(s[1..]);
      if at.Some? then Some(at.value + 1) else None
  }

  /** Reads a placeholder: a category and a number of two digits or more. */
  function ReadPlaceholder(s: string): Option<(Category, nat)> {
    if |s| < 10 || s[..10] != "<REDACTED:" then None
    else
      var colon := ColonAt(s[10..]);
      if colon == None || 10 + colon.value + 1 > |s| then None
      else
        var category := CategoryNamed(s[10..10 + colon.value]);
        var number := DiffText.Number(s[10 + colon.value + 1..]);
        if category == None || number == None || number.value.1 != ">" || |s| < 10 + colon.value + 4 then None
        else Some((category.value, number.value.0))
  }

  lemma {:induction false} ColonBehind(name: string, rest: string)
    requires forall i :: 0 <= i < |name| ==> name[i] != ':'
    ensures ColonAt(name + ":" + rest) == Some(|name|)
  {
    var s := name + ":" + rest;
    if name != "" {
      assert s[1..] == name[1..] + ":" + rest;
      ColonBehind(name[1..], rest);
    }
  }

  lemma NameReads(c: Category)
    ensures CategoryNamed(UpperName(c)) == Some(c)
    ensures forall i :: 0 <= i < |UpperName(c)| ==> UpperName(c)[i] != ':'
  {
  }

  lemma TwoDigitsRead(n: nat)
    ensures DiffText.Number(TwoDigits(n) + ">") == Some((n, ">")) && |TwoDigits(n)| >= 2
  {
    hide DiffText.Number, DiffText.Decimal;
    DiffText.NumberOfDecimal(n, ">");
    if n < 10 {
      LeadingZero(DiffText.Decimal(n) + ">");
      assert TwoDigits(n) + ">" == "0" + (DiffText.Decimal(n) + ">");
    } else {
      TwoOrMore(n);
    }
  }

  lemma TwoOrMore(n: nat)
    requires n >= 10
    ensures |DiffText.Decimal(n)| >= 2
  {
  }

  lemma LeadingZero(s: string)
    requires DiffText.Number(s).Some?
    ensures DiffText.Number("0" + s) == DiffText.Number(s)
  {
    assert ("0" + s)[1..] == s;
  }

  /** A number of more than two digits is written without zeros in front. */
  lemma {:induction false} NoMoreZeros(n: nat)
    ensures n >= 100 ==> TwoDigits(n)[0] != '0'
    ensures n > 0 ==> DiffText.Decimal(n)[0] != '0'
    ensures n < 100 ==> |TwoDigits(n)| == 2
  {
    if n >= 10 {
      NoMoreZeros(n / 10);
      assert DiffText.Decimal(n)[0] == DiffText.Decimal(n / 10)[0];
    }
  }

  /** Category and number can be read back from every placeholder, which begins and ends as
      one; so different categories or numbers have different placeholders. */
  lemma PlaceholderReads(c: Category, n: nat)
    ensures ReadPlaceholder(Placeholder(c, n)) == Some((c, n))
    ensures |Placeholder(c, n)| > 11 && Placeholder(c, n)[..10] == "<REDACTED:" && Placeholder(c, n)[|Placeholder(c, n)| - 1] == '>'
  {
    hide UpperName, CategoryNamed, TwoDigits, DiffText.Number, ColonAt;
    var s, name, digits := Placeholder(c, n), UpperName(c), TwoDigits(n);
    NameReads(c);
    TwoDigitsRead(n);
    assert s[10..] == name + ":" + (digits + ">");
    ColonBehind(name, digits + ">");
    assert s[10..10 + |name|] == name;
    assert s[10 + |name| + 1..] == digits + ">";
  }

  lemma PlaceholdersDiffer(c: Category, n: nat, d: Category, m: nat)
    requires c != d || n != m
    ensures Placeholder(c, n) != Placeholder(d, m)
  {
    PlaceholderReads(c, n);
    PlaceholderReads(d, m);
  }

  // ----- pieces -----------------------------------------------------------------------------------

  function CursorAt(merged: seq<Range>, n: nat): nat
    requires n <= |merged|
  {
    if n == 0 then 0 else merged[n - 1].end
  }

  predicate FitsIn(merged: seq<Range>, content: string) {
    Separated(merged) && forall k :: 0 <= k < |merged| ==> merged[k].end <= |content|
  }

  function Pieces(content: string, merged: seq<Range>, n: nat): string
    requires FitsIn(merged, content) && n <= |merged|
  {
    if n == 0 then ""
    else
      Pieces(content, merged, n - 1) + content[CursorAt(merged, n - 1)..merged[n - 1].start]
      + Placeholder(merged[n - 1].category, n)
  }

  function Spliced(content: string, merged: seq<Range>): string
    requires FitsIn(merged, content)
  {
    Pieces(content, merged, |merged|) + content[CursorAt(merged, |merged|)..]
  }

  /** A covered place behind an uncovered one, or at the very start. */
  ghost predicate StartsRun(ranges: seq<Range>, p: int) {
    Covered(ranges, p) && !Covered(ranges, p - 1)
  }

  /** How many runs of covered places start before `p`. */
  ghost function RunsBefore(ranges: seq<Range>, p: nat): nat {
    if p == 0 then 0 else RunsBefore(ranges, p - 1) + (if StartsRun(ranges, p - 1) then 1 else 0)
  }

  /** What one character becomes: itself if not covered, the placeholder of its run if the
      run starts here, and nothing otherwise. */
  ghost function MaskedChar(content: string, ranges: seq<Range>, names: seq<Category>, p: nat): string
    requires p < |content|
  {
    var run := RunsBefore(ranges, p + 1);
    if !Covered(ranges, p) then [content[p]]
    else if StartsRun(ranges, p) && 0 < run <= |names| then Placeholder(names[run - 1], run)
    else ""
  }

  ghost function Masked(content: string, ranges: seq<Range>, names: seq<Category>, p: nat): string
    requires p <= |content|
  {
    if p == 0 then "" else Masked(content, ranges, names, p - 1) + MaskedChar(content, ranges, names, p - 1)
  }

  function Categories(merged: seq<Range>): seq<Category> {
    seq(|merged|, k requires 0 <= k < |merged| => merged[k].category)
  }

  ghost predicate SameCover(merged: seq<Range>, ranges: seq<Range>) {
    forall p :: Covered(merged, p) <==> Covered(ranges, p)
  }

  lemma GapUncovered(merged: seq<Range>, ranges: seq<Range>, n: nat, p: int)
    requires Separated(merged) && SameCover(merged, ranges) && n <= |merged|
    requires CursorAt(merged, n) <= p && (n < |merged| ==> p < merged[n].start)
    ensures !Covered(ranges, p)
  {
    forall k | 0 <= k < |merged| ensures !Covers(merged[k], p) {
      if k < n { assert merged[k].end <= CursorAt(merged, n); } else { assert merged[n].start <= merged[k].start; }
    }
  }

  lemma RangeCovered(merged: seq<Range>, ranges: seq<Range>, n: nat, p: int)
    requires SameCover(merged, ranges) && n < |merged| && Covers(merged[n], p)
    ensures Covered(ranges, p)
  {
    assert Covered(merged, p);
  }

  lemma {:induction false} GapCopied(content: string, merged: seq<Range>, ranges: seq<Range>, n: nat, p: nat)
    requires FitsIn(merged, content) && SameCover(merged, ranges) && n <= |merged|
    requires CursorAt(merged, n) <= p <= (if n < |merged| then merged[n].start else |content|)
    requires RunsBefore(ranges, CursorAt(merged, n)) == n
    ensures RunsBefore(ranges, p) == n
    ensures p <= |content|
    ensures var names, cursor := Categories(merged), CursorAt(merged, n);
      Masked(content, ranges, names, p) == Masked(content, ranges, names, cursor) + content[cursor..p]
    decreases p
  {
    hide Covered, SameCover, FitsIn, Masked, RunsBefore;
    LastFits(content, merged, n);
    var cursor := CursorAt(merged, n);
    if p > cursor {
      UncoveredAt(content, merged, ranges, n, p - 1);
      GapCopied(content, merged, ranges, n, p - 1);
      UncoveredStep(content, ranges, Categories(merged), p - 1);
      assert content[cursor..p] == content[cursor..p - 1] + [content[p - 1]];
    }
  }

  lemma UncoveredAt(content: string, merged: seq<Range>, ranges: seq<Range>, n: nat, p: nat)
    requires FitsIn(merged, content) && SameCover(merged, ranges) && n <= |merged|
    requires CursorAt(merged, n) <= p && (n < |merged| ==> p < merged[n].start)
    ensures !Covered(ranges, p)
  {
    GapUncovered(merged, ranges, n, p);
  }

  lemma UncoveredStep(content: string, ranges: seq<Range>, names: seq<Category>, p: nat)
    requires p < |content| && !Covered(ranges, p)
    ensures Masked(content, ranges, names, p + 1) == Masked(content, ranges, names, p) + [content[p]]
    ensures RunsBefore(ranges, p + 1) == RunsBefore(ranges, p)
  {
  }

  lemma LastFits(content: string, merged: seq<Range>, n: nat)
    requires FitsIn(merged, content) && n <= |merged|
    ensures n < |merged| ==> CursorAt(merged, n) <= merged[n].start < merged[n].end <= |content|
    ensures CursorAt(merged, n) <= |content|
    ensures 0 < n < |merged| ==> CursorAt(merged, n) < merged[n].start
  {
  }

  lemma {:induction false} RunSilent(content: string, merged: seq<Range>, ranges: seq<Range>, n: nat, p: nat)
    requires FitsIn(merged, content) && SameCover(merged, ranges) && n < |merged|
    requires merged[n].start < p <= merged[n].end && p <= |content|
    ensures RunsBefore(ranges, p) == RunsBefore(ranges, merged[n].start + 1)
    ensures merged[n].start + 1 <= |content|
    ensures Masked(content, ranges, Categories(merged), p) == Masked(content, ranges, Categories(merged), merged[n].start + 1)
    decreases p
  {
    hide Covered, SameCover, Separated, FitsIn;
    if p > merged[n].start + 1 {
      RangeCovered(merged, ranges, n, p - 1);
      RangeCovered(merged, ranges, n, p - 2);
      RunSilent(content, merged, ranges, n, p - 1);
    }
  }

  /** The range number `n` turns into its placeholder. */
  lemma RunMasked(content: string, merged: seq<Range>, ranges: seq<Range>, n: nat)
    requires FitsIn(merged, content) && SameCover(merged, ranges) && n < |merged|
    requires RunsBefore(ranges, merged[n].start) == n
    ensures merged[n].start < merged[n].end <= |content|
    ensures RunsBefore(ranges, merged[n].end) == n + 1
    ensures var names := Categories(merged);
      Masked(content, ranges, names, merged[n].end) ==
      Masked(content, ranges, names, merged[n].start) + Placeholder(merged[n].category, n + 1)
  {
    hide Covered, SameCover, Separated, Placeholder;
    LastFits(content, merged, n);
    var start := merged[n].start;
    RangeCovered(merged, ranges, n, start);
    if start > 0 { GapUncovered(merged, ranges, n, start - 1); } else { NothingBelow(ranges); }
    RunSilent(content, merged, ranges, n, merged[n].end);
  }

  lemma NothingBelow(ranges: seq<Range>)
    ensures !Covered(ranges, -1)
  {
  }

  lemma {:induction false} PiecesMask(content: string, merged: seq<Range>, ranges: seq<Range>, n: nat)
    requires FitsIn(merged, content) && SameCover(merged, ranges) && n <= |merged|
    ensures CursorAt(merged, n) <= |content| && RunsBefore(ranges, CursorAt(merged, n)) == n
    ensures Pieces(content, merged, n) == Masked(content, ranges, Categories(merged), CursorAt(merged, n))
  {
    hide Covered, SameCover, Separated, FitsIn, Placeholder;
    LastFits(content, merged, n);
    if n > 0 {
      PiecesMask(content, merged, ranges, n - 1);
      LastFits(content, merged, n - 1);
      GapCopied(content, merged, ranges, n - 1, merged[n - 1].start);
      RunMasked(content, merged, ranges, n - 1);
    }
  }

  /** Splicing replaces, character by character, exactly the covered places: every run of
      them by one placeholder, numbered from 1, and nothing else is touched. */
  lemma SplicedIsMasked(content: string, merged: seq<Range>, ranges: seq<Range>)
    requires FitsIn(merged, content) && SameCover(merged, ranges)
    ensures Spliced(content, merged) == Masked(content, ranges, Categories(merged), |content|)
    ensures RunsBefore(ranges, |content|) == |merged|
  {
    hide SameCover, FitsIn;
    LastFits(content, merged, |merged|);
    PiecesMask(content, merged, ranges, |merged|);
    GapCopied(content, merged, ranges, |merged|, |content|);
    assert content[CursorAt(merged, |merged|)..|content|] == content[CursorAt(merged, |merged|)..];
  }

  // ----- redaction --------------------------------------------------------------------------------

  ghost predicate RangesIn(values: set<Range>, content: string) {
    forall r :: r in values ==> r.start < r.end <= |content|
  }

  lemma {:induction false} UnprotectedAre(at: seq<nat>, length: nat, category: Category, spans: seq<Span>, n: nat)
    requires n <= |at|
    ensures forall r :: r in Unprotected(at, length, category, spans, n) <==>
      r.category == category && r.end == r.start + length && r.start in at[..n] && !Protected(spans, r.start, r.end)
  {
    hide Protected;
    if n > 0 {
      UnprotectedAre(at, length, category, spans, n - 1);
      assert at[..n] == at[..n - 1] + [at[n - 1]];
    }
  }

  lemma {:induction false} SearchOccurs(content: string, w: string, from: nat)
    requires w != ""
    ensures forall p :: p in Search(content, w, from) ==> OccursAt(content, w, p)
    decreases |content| - from
  {
    var at := Find(content, w, from);
    if at.Some? { SearchOccurs(content, w, at.value + |w|); }
  }

  lemma {:induction false} CollectedIn(content: string, findings: seq<Finding>, spans: seq<Span>)
    requires ValidFindings(content, findings)
    ensures RangesIn(Collected(content, findings, spans), content)
  {
    if findings != [] {
      var f := findings[|findings| - 1];
      CollectedIn(content, findings[..|findings| - 1], spans);
      var w := content[f.start..f.end];
      var at := Search(content, w, 0);
      SearchOccurs(content, w, 0);
      UnprotectedAre(at, |w|, f.category, spans, |at|);
      assert at[..|at|] == at;
    }
  }

  lemma ListedFits(ranges: seq<Range>, values: set<Range>, content: string)
    requires Lists(ranges, values) && RangesIn(values, content)
    ensures IsMergeOf(Merged(ranges), ranges) && FitsIn(Merged(ranges), content) && SameCover(Merged(ranges), ranges)
  {
    assert forall i :: 0 <= i < |ranges| ==> ranges[i] in ranges;
    MergedIsMerge(ranges);
    var merged := Merged(ranges);
    forall k | 0 <= k < |merged| ensures merged[k].end <= |content| {
      assert Covers(merged[k], merged[k].end - 1) && Covered(merged, merged[k].end - 1);
      assert Covered(ranges, merged[k].end - 1);
    }
  }

  /** The result of redaction by way of this listing of the collected ranges. */
  ghost predicate RedactsVia(content: string, values: set<Range>, ranges: seq<Range>, output: string, categories: set<Category>) {
    && Lists(ranges, values)
    && FitsIn(Merged(ranges), content)
    && output == Spliced(content, Merged(ranges))
    && categories == (set c | c in Categories(Merged(ranges)))
  }

  ghost predicate RedactsTo(content: string, values: set<Range>, output: string, categories: set<Category>) {
    exists ranges :: RedactsVia(content, values, ranges, output, categories)
  }

  // ----- what the output shows -----------------------------------------------------------------------

  /** The content before the `k`-th of the merged ranges and behind the one before it. */
  function Gap(content: string, merged: seq<Range>, k: nat): string
    requires FitsIn(merged, content) && k <= |merged|
  {
    LastFits(content, merged, k);
    content[(if k == 0 then 0 else merged[k - 1].end)..(if k == |merged| then |content| else merged[k].start)]
  }

  /** The content before, between and behind the merged ranges. */
  function Gaps(content: string, merged: seq<Range>): (texts: seq<string>)
    requires FitsIn(merged, content)
    ensures |texts| == |merged| + 1
    ensures forall k :: 0 <= k <= |merged| ==> texts[k] == Gap(content, merged, k)
  {
    seq(|merged| + 1, k requires 0 <= k <= |merged| => Gap(content, merged, k))
  }

  /** Texts with a mark between each and the next. */
  function Interleaved(texts: seq<string>, marks: seq<string>): string
    requires |texts| == |marks| + 1
  {
    if marks == [] then texts[0]
    else
      var n := |marks|;
      Interleaved(texts[..n], marks[..n - 1]) + marks[n - 1] + texts[n]
  }

  /** The first `n` texts, each with its mark behind it. */
  function Glued(texts: seq<string>, marks: seq<string>, n: nat): string
    requires n <= |marks| && n <= |texts|
  {
    if n == 0 then "" else Glued(texts, marks, n - 1) + texts[n - 1] + marks[n - 1]
  }

  lemma {:induction false} GluedInterleaves(texts: seq<string>, marks: seq<string>, n: nat, x: string)
    requires n <= |marks| && n <= |texts|
    ensures Interleaved(texts[..n] + [x], marks[..n]) == Glued(texts, marks, n) + x
  {
    hide Interleaved;
    if n == 0 {
      InterleavedNone(x);
      assert texts[..0] + [x] == [x] && marks[..0] == [];
    } else {
      GluedInterleaves(texts, marks, n - 1, texts[n - 1]);
      InterleavedNext(texts[..n], marks[..n], x);
      assert texts[..n] == texts[..n - 1] + [texts[n - 1]] && marks[..n][..n - 1] == marks[..n - 1];
    }
  }

  lemma {:induction false} PiecesAreGlued(content: string, merged: seq<Range>, marks: seq<string>, n: nat)
    requires FitsIn(merged, content) && |marks| == |merged| && n <= |merged|
    requires forall k :: 0 <= k < |merged| ==> marks[k] == Placeholder(merged[k].category, k + 1)
    ensures Pieces(content, merged, n) == Glued(Gaps(content, merged), marks, n)
  {
    hide Placeholder, FitsIn, Pieces, Gaps, Gap;
    if n == 0 {
      NoPieces(content, merged);
    } else {
      PiecesAreGlued(content, merged, marks, n - 1);
      PiecesNext(content, merged, n);
    }
  }

  lemma InterleavedNone(x: string)
    ensures Interleaved([x], []) == x
  {
  }

  lemma InterleavedNext(texts: seq<string>, marks: seq<string>, x: string)
    requires |texts| == |marks| > 0
    ensures Interleaved(texts + [x], marks) == Interleaved(texts, marks[..|marks| - 1]) + marks[|marks| - 1] + x
  {
    assert (texts + [x])[..|marks|] == texts;
  }

  lemma NoPieces(content: string, merged: seq<Range>)
    requires FitsIn(merged, content)
    ensures Pieces(content, merged, 0) == ""
  {
  }

  lemma PiecesNext(content: string, merged: seq<Range>, n: nat)
    requires FitsIn(merged, content) && 0 < n <= |merged|
    ensures Pieces(content, merged, n) == Pieces(content, merged, n - 1) + Gap(content, merged, n - 1) + Placeholder(merged[n - 1].category, n)
  {
    hide Placeholder;
    LastFits(content, merged, n - 1);
  }

  ghost predicate CoveredIn(values: set<Range>, p: int) {
    exists r :: r in values && Covers(r, p)
  }

  ghost predicate BestInside(m: Range, values: set<Range>) {
    && (exists r :: r in values && Inside(r, m) && r.category == m.category)
    && (forall r :: r in values && Inside(r, m) ==> Priority(m.category) <= Priority(r.category))
  }

  /** The output shows the content outside these separated ranges, which cover together what
      the collected ones cover, and for each of them, counted from 1, a placeholder that
      reads back as its category and its number. */
  ghost predicate Shows(content: string, values: set<Range>, output: string, categories: set<Category>,
                        merged: seq<Range>, marks: seq<string>)
  {
    && FitsIn(merged, content)
    && (forall p: int :: Covered(merged, p) <==> CoveredIn(values, p))
    && (forall k :: 0 <= k < |merged| ==> BestInside(merged[k], values))
    && |marks| == |merged|
    && (forall k :: 0 <= k < |marks| ==> ReadPlaceholder(marks[k]) == Some((merged[k].category, k + 1)))
    && output == Interleaved(Gaps(content, merged), marks)
    && (forall c :: c in categories <==> exists k :: 0 <= k < |merged| && merged[k].category == c)
  }

  lemma ViaShows(content: string, values: set<Range>, ranges: seq<Range>, output: string, categories: set<Category>)
    requires RedactsVia(content, values, ranges, output, categories) && RangesIn(values, content)
    ensures exists marks :: Shows(content, values, output, categories, Merged(ranges), marks)
  {
    hide Placeholder, ReadPlaceholder, Merged, FitsIn, RangesIn, Spliced, IsMergeOf, SameCover, Lists, Covered, CoveredIn, BestInside,
         Interleaved, Gaps;
    var merged := Merged(ranges);
    ListedFits(ranges, values, content);
    var marks := seq(|merged|, k requires 0 <= k < |merged| => Placeholder(merged[k].category, k + 1));
    forall k | 0 <= k < |merged| ensures ReadPlaceholder(marks[k]) == Some((merged[k].category, k + 1)) {
      PlaceholderReads(merged[k].category, k + 1);
    }
    SplicedInterleaves(content, merged, marks);
    ListedCovers(ranges, values, merged);
    CategoriesAre(merged, categories);
    assert Shows(content, values, output, categories, merged, marks);
  }

  lemma SplicedInterleaves(content: string, merged: seq<Range>, marks: seq<string>)
    requires FitsIn(merged, content) && |marks| == |merged|
    requires forall k :: 0 <= k < |merged| ==> marks[k] == Placeholder(merged[k].category, k + 1)
    ensures Spliced(content, merged) == Interleaved(Gaps(content, merged), marks)
  {
    hide Placeholder, Separated, Interleaved, Pieces, Glued, Gaps;
    var n := |merged|;
    LastFits(content, merged, n);
    var gaps := Gaps(content, merged);
    PiecesAreGlued(content, merged, marks, n);
    GluedInterleaves(gaps, marks, n, gaps[n]);
    assert gaps[..n] + [gaps[n]] == gaps && marks[..n] == marks;
  }

  lemma CategoriesAre(merged: seq<Range>, categories: set<Category>)
    requires categories == (set c | c in Categories(merged))
    ensures forall c :: c in categories <==> exists k :: 0 <= k < |merged| && merged[k].category == c
  {
    forall c ensures c in Categories(merged) <==> exists k :: 0 <= k < |merged| && merged[k].category == c {
      if exists k :: 0 <= k < |merged| && merged[k].category == c {
        var k :| 0 <= k < |merged| && merged[k].category == c;
        assert Categories(merged)[k] == c;
      }
    }
  }

  lemma ListedCovers(ranges: seq<Range>, values: set<Range>, merged: seq<Range>)
    requires Lists(ranges, values) && IsMergeOf(merged, ranges)
    ensures forall p: int :: Covered(merged, p) <==> CoveredIn(values, p)
    ensures forall k :: 0 <= k < |merged| ==> BestInside(merged[k], values)
  {
    hide Priority, InSome, Separated;
    forall p: int ensures Covered(merged, p) <==> CoveredIn(values, p) {
      if r :| r in values && Covers(r, p) {
        assert r in ranges;
        var i :| 0 <= i < |ranges| && ranges[i] == r;
        assert Covers(ranges[i], p);
      }
      if Covered(ranges, p) {
        var i :| 0 <= i < |ranges| && Covers(ranges[i], p);
        assert ranges[i] in ranges;
      }
    }
    forall k | 0 <= k < |merged| ensures BestInside(merged[k], values) {
      assert HasBest(merged[k], ranges);
      var i :| 0 <= i < |ranges| && BestOf(merged[k], ranges, i);
      assert ranges[i] in ranges;
    }
  }

  // ----- what is collected ------------------------------------------------------------------------------

  /** No occurrence that the search met before reaches into this place. */
  ghost predicate ClearOf(met: seq<nat>, length: nat, p: nat) {
    forall q :: q in met && q < p ==> q + length <= p
  }

  /** The search meets exactly the occurrences that do not overlap one it met before. */
  lemma {:induction false} SearchIsGreedy(content: string, w: string, from: nat, p: nat)
    requires w != ""
    ensures p in Search(content, w, from) <==>
      && from <= p && p + |w| <= |content| && content[p..p + |w|] == w
      && ClearOf(Search(content, w, from), |w|, p)
    decreases |content| - from
  {
    hide Search;
    SearchStep(content, w, from);
    var at := Find(content, w, from);
    assert from <= p && OccursAt(content, w, p) ==> at.Some? && at.value <= p;
    if at.Some? {
      var next := at.value + |w|;
      var all, rest := Search(content, w, from), Search(content, w, next);
      SearchIsGreedy(content, w, next, p);
      SearchBehind(content, w, next);
      assert forall q :: q in all <==> q == at.value || q in rest;
      assert at.value in all;
      if ClearOf(all, |w|, p) {
        assert ClearOf(rest, |w|, p);
      }
    }
  }

  lemma {:induction false} SearchBehind(content: string, w: string, from: nat)
    requires w != ""
    ensures forall p :: p in Search(content, w, from) ==> from <= p
    decreases |content| - from
  {
    var at := Find(content, w, from);
    if at.Some? { SearchBehind(content, w, at.value + |w|); }
  }

  /** The range is an occurrence of the text of the finding that the search meets, with its
      category, and no protected span holds it. */
  ghost predicate FoundBy(content: string, f: Finding, spans: seq<Span>, r: Range)
    requires ValidFinding(content, f)
  {
    && r.category == f.category && r.end == r.start + (f.end - f.start)
    && r.start in Search(content, content[f.start..f.end], 0)
    && forall i :: 0 <= i < |spans| ==> r.start < spans[i].start || spans[i].end < r.end
  }

  /** What is collected: the occurrences that the searches meet and no span protects. */
  lemma {:induction false} CollectedAre(content: string, findings: seq<Finding>, spans: seq<Span>, r: Range)
    requires ValidFindings(content, findings)
    ensures r in Collected(content, findings, spans) <==>
      exists i :: 0 <= i < |findings| && FoundBy(content, findings[i], spans, r)
  {
    hide Search, FoundBy;
    if findings != [] {
      var n := |findings| - 1;
      CollectedAre(content, findings[..n], spans, r);
      FindingRangesAre(content, findings[n], spans, r);
      if exists i :: 0 <= i < |findings| && FoundBy(content, findings[i], spans, r) {
        var i :| 0 <= i < |findings| && FoundBy(content, findings[i], spans, r);
        if i < n { assert findings[..n][i] == findings[i]; }
      }
    }
  }

  lemma FindingRangesAre(content: string, f: Finding, spans: seq<Span>, r: Range)
    requires ValidFinding(content, f)
    ensures r in FindingRanges(content, f, spans) <==> FoundBy(content, f, spans, r)
  {
    hide Search;
    var w := content[f.start..f.end];
    var at := Search(content, w, 0);
    UnprotectedAre(at, |w|, f.category, spans, |at|);
    assert at[..|at|] == at;
  }

  // ----- the order of categories -------------------------------------------------------------------------

  function LowerName(c: Category): string {
    match c
    case Credential => "credential" case PrivateKey => "private_key"
    case CertificateMaterial => "certificate_material" case ConnectionString => "connection_string"
    case CloudSecret => "cloud_secret" case PersonalData => "personal_data"
    case BusinessSensitive => "business_sensitive" case UnknownSensitive => "unknown_sensitive"
  }

  /** Alphabetical order: the texts agree up to a place where the first is smaller. */
  ghost predicate Alphabetical(a: string, b: string) {
    exists k :: 0 <= k < |a| && k < |b| && a[..k] == b[..k] && a[k] < b[k]
  }

  lemma NamesAreAlphabetical(c: Category, d: Category)
    requires NameOrder(c) < NameOrder(d)
    ensures Alphabetical(LowerName(c), LowerName(d))
  {
    var a, b := LowerName(c), LowerName(d);
    if a[0] == b[0] {
      assert a[..1] == b[..1] && a[1] < b[1];
    } else {
      assert a[..0] == b[..0] && a[0] < b[0];
    }
  }

  /** Keys, certificates, credentials and cloud secrets come first and are equals. */
  lemma PrioritiesAre()
    ensures Priority(PrivateKey) == Priority(CertificateMaterial) == Priority(Credential) == Priority(CloudSecret)
    ensures Priority(CloudSecret) < Priority(ConnectionString) < Priority(BusinessSensitive)
    ensures Priority(BusinessSensitive) < Priority(PersonalData) < Priority(UnknownSensitive)
  {
  }

  /** There is one result. */
  lemma RedactionUnique(content: string, values: set<Range>, output: string, categories: set<Category>,
                        output': string, categories': set<Category>)
    requires RedactsTo(content, values, output, categories) && RedactsTo(content, values, output', categories')
    ensures output == output' && categories == categories'
  {
    hide Merged, Spliced, FitsIn, Lists;
    var a :| RedactsVia(content, values, a, output, categories);
    var b :| RedactsVia(content, values, b, output', categories');
    ListingUnique(a, b, values);
  }

  method Redact(content: string, findings: seq<Finding>, spans: seq<Span>) returns (output: string, categories: set<Category>)
    requires ValidFindings(content, findings)
    ensures RedactsTo(content, Collected(content, findings, spans), output, categories)
    ensures exists merged, marks :: Shows(content, Collected(content, findings, spans), output, categories, merged, marks)
  {
    hide Protected, Merged, Search, Shows;
    var values: set<Range> := {};
    for i := 0 to |findings|
      invariant values == Collected(content, findings[..i], spans)
    {
      var f := findings[i];
      assert findings[..i + 1][..i] == findings[..i];
      var more := CollectFinding(content, f, spans);
      values := values + more;
    }
    assert findings[..|findings|] == findings;
    CollectedIn(content, findings, spans);
    var sorted := SortRanges(values);
    var merged := MergeRanges(sorted);
    ListedFits(sorted, values, content);
    output, categories := Splice(content, merged);
    assert RedactsVia(content, values, sorted, output, categories);
    ViaShows(content, values, sorted, output, categories);
  }

  lemma SearchStep(content: string, w: string, from: nat)
    requires w != ""
    ensures var at := Find(content, w, from);
      && Search(content, w, from) == (if at == None then [] else [at.value] + Search(content, w, at.value + |w|))
      && (at.Some? ==> from <= at.value && at.value + |w| <= |content|)
  {
  }

  method CollectFinding(content: string, f: Finding, spans: seq<Span>) returns (values: set<Range>)
    requires ValidFinding(content, f)
    ensures values == FindingRanges(content, f, spans)
  {
    hide Search, Protected, OccursAt;
    var w := content[f.start..f.end];
    ghost var all := Search(content, w, 0);
    values := {};
    var from := 0;
    ghost var n := 0;
    while true
      invariant n <= |all| && all[n..] == Search(content, w, from)
      invariant values == Unprotected(all, |w|, f.category, spans, n)
      decreases |content| + |w| - from
    {
      SearchStep(content, w, from);
      var at := Find(content, w, from);
      if at == None { break; }
      assert all[n..][0] == at.value && all[n..][1..] == all[n + 1..];
      if !Protected(spans, at.value, at.value + |w|) { values := values + {Range(at.value, at.value + |w|, f.category)}; }
      from := at.value + |w|;
      n := n + 1;
    }
  }

  method MergeRanges(ranges: seq<Range>) returns (merged: seq<Range>)
    ensures merged == Merged(ranges)
  {
    hide Priority;
    merged := [];
    for i := 0 to |ranges|
      invariant merged == Merged(ranges[..i])
    {
      var r := ranges[i];
      assert ranges[..i + 1][..i] == ranges[..i];
      if merged != [] && r.start <= merged[|merged| - 1].end {
        var previous := merged[|merged| - 1];
        var category := if Priority(previous.category) <= Priority(r.category) then previous.category else r.category;
        merged := merged[..|merged| - 1] + [Range(previous.start, if previous.end < r.end then r.end else previous.end, category)];
      } else {
        merged := merged + [r];
      }
    }
    assert ranges[..|ranges|] == ranges;
  }

  method Splice(content: string, merged: seq<Range>) returns (output: string, categories: set<Category>)
    requires FitsIn(merged, content)
    ensures output == Spliced(content, merged)
    ensures categories == (set c | c in Categories(merged))
  {
    hide Placeholder, Separated;
    output, categories := "", {};
    var cursor := 0;
    for n := 0 to |merged|
      invariant cursor == CursorAt(merged, n) && output == Pieces(content, merged, n)
      invariant forall c :: c in categories <==> c in Categories(merged)[..n]
    {
      LastFits(content, merged, n);
      var r := merged[n];
      assert Categories(merged)[..n + 1] == Categories(merged)[..n] + [r.category];
      output := output + content[cursor..r.start] + Placeholder(r.category, n + 1);
      cursor := r.end;
      categories := categories + {r.category};
    }
    LastFits(content, merged, |merged|);
    assert Categories(merged)[..|merged|] == Categories(merged);
    output := output + content[cursor..];
  }

  // ----- which occurrences are redacted -------------------------------------------------------------

  /** The text is not its own beginning and end at once, so it cannot overlap itself. */
  predicate Unbordered(w: string) {
    forall k :: 0 < k < |w| ==> w[k..] != w[..|w| - k]
  }

  lemma OverlapIsBorder(content: string, w: string, p: nat, q: nat)
    requires OccursAt(content, w, p) && OccursAt(content, w, q) && p < q < p + |w|
    ensures !Unbordered(w)
  {
    var k := q - p;
    forall i | 0 <= i < |w| - k ensures w[k..][i] == w[..|w| - k][i] {
      assert content[p..p + |w|][k + i] == content[q..q + |w|][i];
    }
    assert w[k..] == w[..|w| - k];
  }

  /** For a text that cannot overlap itself the search finds every occurrence. */
  lemma {:induction false} SearchFindsAll(content: string, w: string, from: nat, p: nat)
    requires w != "" && Unbordered(w) && from <= p && OccursAt(content, w, p)
    ensures p in Search(content, w, from)
    decreases |content| - from
  {
    hide OccursAt, Unbordered;
    var q := Find(content, w, from).value;
    if q < p {
      if p < q + |w| { OverlapIsBorder(content, w, q, p); }
      OccurrenceFits(content, w, q);
      SearchFindsAll(content, w, q + |w|, p);
    }
  }

  lemma OccurrenceFits(content: string, w: string, p: nat)
    requires OccursAt(content, w, p)
    ensures p + |w| <= |content|
  {
  }

  lemma {:induction false} FindingCollected(content: string, findings: seq<Finding>, spans: seq<Span>, i: nat)
    requires ValidFindings(content, findings) && i < |findings|
    ensures FindingRanges(content, findings[i], spans) <= Collected(content, findings, spans)
  {
    if i < |findings| - 1 { FindingCollected(content, findings[..|findings| - 1], spans, i); }
  }

  /** Every occurrence of a found text that cannot overlap itself is collected unless it
      lies in a protected span. */
  lemma OccurrenceCollected(content: string, findings: seq<Finding>, spans: seq<Span>, i: nat, p: nat)
    requires ValidFindings(content, findings) && i < |findings|
    requires var w := content[findings[i].start..findings[i].end];
      Unbordered(w) && OccursAt(content, w, p) && !Protected(spans, p, p + |w|)
    ensures var f := findings[i];
      Range(p, p + (f.end - f.start), f.category) in Collected(content, findings, spans)
  {
    hide OccursAt, Unbordered, Protected, Search, Collected;
    var f := findings[i];
    var w := content[f.start..f.end];
    var at := Search(content, w, 0);
    SearchFindsAll(content, w, 0, p);
    UnprotectedAre(at, |w|, f.category, spans, |at|);
    assert at[..|at|] == at;
    FindingCollected(content, findings, spans, i);
  }

  /** One scanner hit on `w` at `start` leads to the place `q` of the content being redacted. */
  ghost predicate Redacted(content: string, w: string, start: nat, q: nat)
    requires OccursAt(content, w, start) && w != ""
  {
    exists r :: r in Collected(content, [Finding(start, start + |w|, Credential)], []) && Covers(r, q)
  }

  /** Whatever the content and wherever the hit on `w` was, every occurrence is redacted. */
  ghost predicate AlwaysRedacted(w: string)
    requires w != ""
  {
    forall content, start: nat, p: nat, q: nat ::
      OccursAt(content, w, start) && OccursAt(content, w, p) && p <= q < p + |w| ==> Redacted(content, w, start, q)
  }

  /** A text with a border, before itself: the second occurrence is not redacted, neither if
      the scanner's hit was the first one nor if it was the second one itself. */
  lemma BorderedIsMissed(w: string, k: nat)
    requires 0 < k < |w| && w[k..] == w[..|w| - k]
    ensures var content := w[..k] + w;
      && OccursAt(content, w, 0) && OccursAt(content, w, k)
      && !Redacted(content, w, 0, |w| + k - 1) && !Redacted(content, w, k, |w| + k - 1)
  {
    var content := w[..k] + w;
    assert content[..|w|] == w[..k] + w[..|w| - k] == w;
    assert content[k..k + |w|] == w;
    assert content[0..0 + |w|] == w;
    assert Search(content, w, 0) == [0] + Search(content, w, |w|);
    assert Find(content, w, |w|) == None;
    assert Search(content, w, 0) == [0];
    HitRanges(content, w, 0);
    HitRanges(content, w, k);
    UnprotectedAre([0], |w|, Credential, [], 1);
  }

  /** What one hit on `w` collects depends on the search only. */
  lemma HitRanges(content: string, w: string, start: nat)
    requires w != "" && OccursAt(content, w, start)
    ensures var at := Search(content, w, 0);
      Collected(content, [Finding(start, start + |w|, Credential)], []) == Unprotected(at, |w|, Credential, [], |at|)
  {
    hide Search, Unprotected;
    var f := Finding(start, start + |w|, Credential);
    assert content[f.start..f.end] == w;
    assert [f][..0] == [] && Collected(content, [f], []) == Collected(content, [], []) + FindingRanges(content, f, []);
  }

  /** All occurrences of a text are redacted in every content exactly if the text cannot
      overlap itself. */
  lemma AlwaysRedactedIff(w: string)
    requires w != ""
    ensures AlwaysRedacted(w) <==> Unbordered(w)
  {
    hide OccursAt, Collected;
    if !Unbordered(w) {
      var k :| 0 < k < |w| && w[k..] == w[..|w| - k];
      BorderedIsMissed(w, k);
    } else {
      forall content, start: nat, p: nat, q: nat | OccursAt(content, w, start) && OccursAt(content, w, p) && p <= q < p + |w|
        ensures Redacted(content, w, start, q)
      {
        HitCollected(content, w, start, p);
        assert Covers(Range(p, p + |w|, Credential), q);
      }
    }
  }

  lemma HitCollected(content: string, w: string, start: nat, p: nat)
    requires w != "" && Unbordered(w) && OccursAt(content, w, start) && OccursAt(content, w, p)
    ensures Range(p, p + |w|, Credential) in Collected(content, [Finding(start, start + |w|, Credential)], [])
  {
    OccurrenceCollected(content, [Finding(start, start + |w|, Credential)], [], 0, p);
  }

  /** Redaction as a whole: the output is the content with the places covered by collected
      ranges masked, each run of them with the category of its merged range. */
  lemma RedactionIsMask(content: string, findings: seq<Finding>, spans: seq<Span>, output: string, categories: set<Category>)
    returns (ranges: seq<Range>, merged: seq<Range>)
    requires ValidFindings(content, findings) && RedactsTo(content, Collected(content, findings, spans), output, categories)
    ensures forall r :: r in ranges <==> r in Collected(content, findings, spans)
    ensures IsMergeOf(merged, ranges) && RunsBefore(ranges, |content|) == |merged|
    ensures output == Masked(content, ranges, Categories(merged), |content|)
    ensures forall c :: c in categories <==> c in Categories(merged)
  {
    hide Collected, IsMergeOf, Merged, Masked, RunsBefore, RedactsVia, RangesIn;
    var values := Collected(content, findings, spans);
    ranges :| RedactsVia(content, values, ranges, output, categories);
    merged := Merged(ranges);
    CollectedIn(content, findings, spans);
    ViaMask(content, values, ranges, output, categories);
  }

  lemma ViaMask(content: string, values: set<Range>, ranges: seq<Range>, output: string, categories: set<Category>)
    requires RedactsVia(content, values, ranges, output, categories) && RangesIn(values, content)
    ensures forall r :: r in ranges <==> r in values
    ensures IsMergeOf(Merged(ranges), ranges) && RunsBefore(ranges, |content|) == |Merged(ranges)|
    ensures output == Masked(content, ranges, Categories(Merged(ranges)), |content|)
    ensures forall c :: c in categories <==> c in Categories(Merged(ranges))
  {
    hide IsMergeOf, Merged, Masked, FitsIn, RunsBefore, RangesIn, Spliced, SameCover;
    ListedFits(ranges, values, content);
    SplicedIsMasked(content, Merged(ranges), ranges);
  }
}
