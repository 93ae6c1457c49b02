/** The balanced delimiter tool: a stack scan over the delimiters of a text. */
module DelimiterScan {
  import opened Wrappers

  // ----- the stack scan over a word of delimiters ---------------------------------------------

  /** A word over one pair of delimiters; `true` opens. */
  type Word = seq<bool>

  /** The unmatched closings found so far and the stack of openings, as indices in the word. */
  datatype Scan = Scan(closings: seq<nat>, stack: seq<nat>)

  function Advance(s: Scan, open: bool, index: nat): Scan {
    if open then s.(stack := s.stack + [index])
    else if s.stack != [] then s.(stack := s.stack[..|s.stack| - 1])
    else s.(closings := s.closings + [index])
  }

  function Scanned(w: Word): Scan {
    if w == [] then Scan([], []) else Advance(Scanned(w[..|w| - 1]), w[|w| - 1], |w| - 1)
  }

  // ----- balanced words -------------------------------------------------------------------------

  /** The grammar: nothing, or a balanced word between delimiters and a balanced word. */
  datatype Dyck = Nothing | Nest(inner: Dyck, after: Dyck)

  function Spelled(d: Dyck): Word {
    match d
    case Nothing => []
    case Nest(inner, after) => [true] + Spelled(inner) + [false] + Spelled(after)
  }

  ghost predicate Balanced(w: Word) {
    exists d: Dyck :: Spelled(d) == w
  }

  function Appended(a: Dyck, b: Dyck): Dyck {
    match a
    case Nothing => b
    case Nest(inner, after) => Nest(inner, Appended(after, b))
  }

  lemma {:induction false} AppendedSpells(a: Dyck, b: Dyck)
    ensures Spelled(Appended(a, b)) == Spelled(a) + Spelled(b)
  {
    match a
    case Nothing =>
    case Nest(inner, after) => AppendedSpells(after, b);
  }

  lemma BalancedNest(a: Word, b: Word)
    requires Balanced(a) && Balanced(b)
    ensures Balanced(a + [true] + b + [false])
  {
    var x :| Spelled(x) == a;
    var y :| Spelled(y) == b;
    AppendedSpells(x, Nest(y, Nothing));
    assert Spelled(Nest(y, Nothing)) == [true] + b + [false] + [];
    assert a + ([true] + b + [false]) == a + [true] + b + [false];
  }

  lemma BalancedEmpty()
    ensures Balanced([])
  {
    assert Spelled(Nothing) == [];
  }

  // ----- the normal form ------------------------------------------------------------------------

  /** Where the gap before the `i`-th of these indices starts, and where it ends. */
  function GapStart(u: seq<nat>, i: nat): nat
    requires i <= |u|
  {
    if i == 0 then 0 else u[i - 1] + 1
  }

  function GapEnd(w: Word, u: seq<nat>, i: nat): nat
    requires i <= |u|
  {
    if i == |u| then |w| else u[i]
  }

  ghost predicate BalancedGap(w: Word, u: seq<nat>, i: nat)
    requires i <= |u|
  {
    GapStart(u, i) <= GapEnd(w, u, i) <= |w| && Balanced(w[GapStart(u, i)..GapEnd(w, u, i)])
  }

  /** These are the unmatched delimiters of the word: closings first, then openings, and what
      stands before, between and behind them is balanced. */
  ghost predicate NormalForm(w: Word, closings: seq<nat>, openings: seq<nat>) {
    var u := closings + openings;
    && (forall i :: 0 <= i <= |u| ==> BalancedGap(w, u, i))
    && (forall i :: 0 <= i < |closings| ==> closings[i] < |w| && !w[closings[i]])
    && (forall i :: 0 <= i < |openings| ==> openings[i] < |w| && w[openings[i]])
  }

  /** An opening, or a closing that nothing is open for, is one more unmatched delimiter. */
  lemma NormalFormMarks(w: Word, b: bool, closings: seq<nat>, openings: seq<nat>)
    requires NormalForm(w, closings, openings) && (b || openings == [])
    ensures NormalForm(w + [b], if b then closings else closings + [|w|], if b then openings + [|w|] else openings)
  {
    hide BalancedGap;
    var v := closings + openings;
    var u := if b then closings + (openings + [|w|]) else (closings + [|w|]) + openings;
    assert u == v + [|w|];
    forall i: nat | i <= |u| ensures BalancedGap(w + [b], u, i) {
      MarkedGap(w, b, v, i);
    }
  }

  lemma MarkedGap(w: Word, b: bool, v: seq<nat>, i: nat)
    requires i <= |v| + 1 && (i <= |v| ==> BalancedGap(w, v, i))
    ensures BalancedGap(w + [b], v + [|w|], i)
  {
    hide Balanced;
    var u := v + [|w|];
    if i <= |v| {
      assert GapStart(u, i) == GapStart(v, i) && GapEnd(w + [b], u, i) == GapEnd(w, v, i);
      assert (w + [b])[GapStart(v, i)..GapEnd(w, v, i)] == w[GapStart(v, i)..GapEnd(w, v, i)];
    } else {
      BalancedEmpty();
      assert (w + [b])[GapStart(u, i)..GapEnd(w + [b], u, i)] == [];
    }
  }

  /** A closing that matches the last opening joins the two gaps around it. */
  lemma NormalFormMatches(w: Word, closings: seq<nat>, openings: seq<nat>)
    requires NormalForm(w, closings, openings) && openings != []
    ensures NormalForm(w + [false], closings, openings[..|openings| - 1])
  {
    hide Balanced;
    var v, rest := closings + openings, openings[..|openings| - 1];
    var u, w' := closings + rest, w + [false];
    var n := |u|;
    assert v == u + [openings[|openings| - 1]];
    forall i | 0 <= i <= n ensures BalancedGap(w', u, i) {
      assert BalancedGap(w, v, i);
      if i < n {
        assert w'[GapStart(v, i)..GapEnd(w, v, i)] == w[GapStart(v, i)..GapEnd(w, v, i)];
      } else {
        assert BalancedGap(w, v, n + 1);
        var low, p := GapStart(v, n), v[n];
        assert GapEnd(w, v, n) == p && GapStart(v, n + 1) == p + 1 && GapEnd(w, v, n + 1) == |w|;
        assert w[p + 1..] == w[p + 1..|w|];
        BalancedNest(w[low..p], w[p + 1..]);
        assert w[low..p] + [true] + w[p + 1..] + [false] == w'[low..|w'|];
      }
    }
  }

  /** The scan leaves the normal form. */
  lemma {:induction false} ScanIsNormalForm(w: Word)
    ensures NormalForm(w, Scanned(w).closings, Scanned(w).stack)
  {
    hide NormalForm, Scanned;
    if w == [] {
      NothingNormal();
    } else {
      var init, last, s := w[..|w| - 1], w[|w| - 1], Scanned(w[..|w| - 1]);
      assert w == init + [last];
      ScannedOneMore(init, last);
      ScanIsNormalForm(init);
      if last || s.stack == [] {
        NormalFormMarks(init, last, s.closings, s.stack);
      } else {
        NormalFormMatches(init, s.closings, s.stack);
      }
    }
  }

  lemma NothingNormal()
    ensures Scanned([]) == Scan([], []) && NormalForm([], [], [])
  {
    BalancedEmpty();
  }

  /** Scanning on from `s`, where `base` delimiters came before. */
  function ScannedFrom(s: Scan, base: nat, w: Word): Scan {
    if w == [] then s else Advance(ScannedFrom(s, base, w[..|w| - 1]), w[|w| - 1], base + |w| - 1)
  }

  lemma {:induction false} ScanBoth(s: Scan, base: nat, a: Word, b: Word)
    ensures ScannedFrom(s, base, a + b) == ScannedFrom(ScannedFrom(s, base, a), base + |a|, b)
  {
    if b == [] {
      assert a + b == a;
    } else {
      ScanBoth(s, base, a, b[..|b| - 1]);
      assert (a + b)[..|a + b| - 1] == a + b[..|b| - 1];
    }
  }

  lemma {:induction false} ScanWhole(w: Word)
    ensures Scanned(w) == ScannedFrom(Scan([], []), 0, w)
  {
    if w != [] { ScanWhole(w[..|w| - 1]); }
  }

  lemma ScanOne(s: Scan, base: nat, open: bool)
    ensures ScannedFrom(s, base, [open]) == Advance(s, open, base)
  {
    assert [open][..0] == [];
  }

  /** A balanced word leaves the scan as it was. */
  lemma {:induction false} BalancedLeaves(s: Scan, base: nat, d: Dyck)
    ensures ScannedFrom(s, base, Spelled(d)) == s
    decreases d
  {
    match d
    case Nothing =>
    case Nest(inner, after) =>
      var a, b := Spelled(inner), Spelled(after);
      var pushed := s.(stack := s.stack + [base]);
      ScanOne(s, base, true);
      ScanBoth(s, base, [true], a);
      BalancedLeaves(pushed, base + 1, inner);
      ScanBoth(s, base, [true] + a, [false]);
      ScanOne(pushed, base + 1 + |a|, false);
      ScanBoth(s, base, [true] + a + [false], b);
      BalancedLeaves(s, base + 2 + |a|, after);
  }

  lemma GapLeaves(s: Scan, base: nat, w: Word)
    requires Balanced(w)
    ensures ScannedFrom(s, base, w) == s
  {
    var d :| Spelled(d) == w;
    BalancedLeaves(s, base, d);
  }

  /** The first `n` unmatched delimiters, as the scan holds them. */
  function Held(closings: seq<nat>, openings: seq<nat>, n: nat): Scan
    requires n <= |closings| + |openings|
  {
    if n <= |closings| then Scan(closings[..n], []) else Scan(closings, openings[..n - |closings|])
  }

  lemma {:induction false} HeldUpTo(w: Word, closings: seq<nat>, openings: seq<nat>, n: nat)
    requires NormalForm(w, closings, openings) && n <= |closings| + |openings|
    ensures GapEnd(w, closings + openings, n) <= |w|
    ensures Scanned(w[..GapEnd(w, closings + openings, n)]) == Held(closings, openings, n)
  {
    hide Balanced, Advance, ScannedFrom, Scanned;
    var u := closings + openings;
    var start, end := GapStart(u, n), GapEnd(w, u, n);
    assert BalancedGap(w, u, n);
    ScanWhole(w[..end]);
    assert w[..end] == w[..start] + w[start..end];
    ScanBoth(Scan([], []), 0, w[..start], w[start..end]);
    ScanWhole(w[..start]);
    GapLeaves(Scanned(w[..start]), start, w[start..end]);
    if n == 0 {
      assert w[..0] == [] && Held(closings, openings, 0) == Scan([], []);
      ScannedNothing();
    } else {
      var p := u[n - 1];
      HeldUpTo(w, closings, openings, n - 1);
      assert w[..start] == w[..p] + [w[p]];
      ScannedOneMore(w[..p], w[p]);
      HeldOneMore(w, closings, openings, n);
    }
  }

  lemma ScannedNothing()
    ensures Scanned([]) == Scan([], [])
  {
  }

  lemma ScannedOneMore(w: Word, b: bool)
    ensures Scanned(w + [b]) == Advance(Scanned(w), b, |w|)
  {
    assert (w + [b])[..|w|] == w;
  }

  lemma HeldOneMore(w: Word, closings: seq<nat>, openings: seq<nat>, n: nat)
    requires NormalForm(w, closings, openings) && 0 < n <= |closings| + |openings|
    ensures var p := (closings + openings)[n - 1];
      p < |w| && Advance(Held(closings, openings, n - 1), w[p], p) == Held(closings, openings, n)
  {
  }

  /** There is one way to write a word in normal form, and the scan finds it. */
  lemma ScanIsTheNormalForm(w: Word, closings: seq<nat>, openings: seq<nat>)
    ensures NormalForm(w, closings, openings) <==> Scanned(w) == Scan(closings, openings)
  {
    if NormalForm(w, closings, openings) {
      HeldUpTo(w, closings, openings, |closings| + |openings|);
      assert w[..|w|] == w;
      if openings == [] { assert closings[..|closings|] == closings; }
    }
    ScanIsNormalForm(w);
  }

  /** The scan finds nothing unmatched exactly in balanced words. */
  lemma NothingUnmatchedIff(w: Word)
    ensures Scanned(w) == Scan([], []) <==> Balanced(w)
  {
    if Balanced(w) {
      ScanWhole(w);
      GapLeaves(Scan([], []), 0, w);
    }
    if Scanned(w) == Scan([], []) {
      ScanIsNormalForm(w);
      var none: seq<nat> := [];
      assert none + none == none && BalancedGap(w, none, 0);
      assert w[0..|w|] == w;
    }
  }

  ghost predicate Increasing(u: seq<nat>) {
    forall i, j :: 0 <= i < j < |u| ==> u[i] < u[j]
  }

  lemma {:induction false} Ascending(u: seq<nat>)
    requires forall i :: 0 < i < |u| ==> u[i - 1] < u[i]
    ensures Increasing(u)
  {
    if |u| > 1 {
      Ascending(u[..|u| - 1]);
      assert u[|u| - 2] < u[|u| - 1];
    }
  }

  /** All unmatched closings stand before all unmatched openings, in text order. */
  lemma UnmatchedInOrder(w: Word)
    ensures Increasing(Scanned(w).closings + Scanned(w).stack)
  {
    ScanIsNormalForm(w);
    var u := Scanned(w).closings + Scanned(w).stack;
    forall i | 0 < i < |u| ensures u[i - 1] < u[i] {
      assert BalancedGap(w, u, i);
    }
    Ascending(u);
  }

  // ----- counting -----------------------------------------------------------------------------

  /** Closings minus openings. */
  function Excess(w: Word): int {
    if w == [] then 0 else Excess(w[..|w| - 1]) + (if w[|w| - 1] then -1 else 1)
  }

  ghost predicate LargestExcess(w: Word, most: int) {
    && (exists n :: 0 <= n <= |w| && Excess(w[..n]) == most)
    && (forall n :: 0 <= n <= |w| ==> Excess(w[..n]) <= most)
  }

  lemma LargestOneMore(w: Word, b: bool, most: int)
    requires LargestExcess(w, most)
    ensures var now := Excess(w + [b]);
      LargestExcess(w + [b], if now > most then now else most)
  {
    hide Excess;
    var w' := w + [b];
    assert forall n :: 0 <= n <= |w| ==> w'[..n] == w[..n];
    assert w'[..|w'|] == w';
    var n :| 0 <= n <= |w| && Excess(w[..n]) == most;
    assert Excess(w'[..n]) == most;
  }

  /** There are as many unmatched closings as the largest excess of closings over openings in
      any prefix, and unmatched openings make up the difference to the whole word. */
  lemma {:induction false} UnmatchedCounts(w: Word)
    ensures LargestExcess(w, |Scanned(w).closings|)
    ensures |Scanned(w).closings| - |Scanned(w).stack| == Excess(w)
  {
    hide LargestExcess;
    if w == [] {
      NoExcess();
    } else {
      var init, last := w[..|w| - 1], w[|w| - 1];
      UnmatchedCounts(init);
      LargestOneMore(init, last, |Scanned(init).closings|);
      assert w == init + [last];
    }
  }

  lemma NoExcess()
    ensures LargestExcess([], 0)
  {
    var w: Word := [];
    assert w[..0] == [];
  }

  // ----- the delimiters of a text ---------------------------------------------------------------

  /** A delimiter found at an offset, in this step of the scan. */
  datatype Token = Token(open: bool, at: nat, step: nat)

  datatype Delimiters = Delimiters(opening: string, closing: string) {
    /** What the tool registry demands. */
    predicate Valid() { opening != "" && closing != "" && opening != closing }
  }

  predicate StandsAt(text: string, s: string, index: nat) {
    index + |s| <= |text| && text[index..index + |s|] == s
  }

  function Tokens(text: string, d: Delimiters, index: nat, step: nat): seq<Token>
    requires d.Valid()
    decreases |text| - index
  {
    if index >= |text| then []
    else if StandsAt(text, d.opening, index) then [Token(true, index, step + 1)] + Tokens(text, d, index + |d.opening|, step + 1)
    else if StandsAt(text, d.closing, index) then [Token(false, index, step + 1)] + Tokens(text, d, index + |d.closing|, step + 1)
    else Tokens(text, d, index + 1, step + 1)
  }

  function Steps(text: string, d: Delimiters, index: nat): nat
    requires d.Valid()
    decreases |text| - index
  {
    if index >= |text| then 0
    else if StandsAt(text, d.opening, index) then 1 + Steps(text, d, index + |d.opening|)
    else if StandsAt(text, d.closing, index) then 1 + Steps(text, d, index + |d.closing|)
    else 1 + Steps(text, d, index + 1)
  }

  function WordOf(tokens: seq<Token>): Word {
    seq(|tokens|, i requires 0 <= i < |tokens| => tokens[i].open)
  }

  /** The end of a token. */
  function Behind(t: Token, d: Delimiters): nat {
    t.at + if t.open then |d.opening| else |d.closing|
  }

  ghost predicate Clear(text: string, d: Delimiters, from: nat, end: nat) {
    forall i :: from <= i < end ==> !StandsAt(text, d.opening, i) && !StandsAt(text, d.closing, i)
  }

  /** Where the search for the `i`-th token starts: behind the one before it. */
  function SearchStart(tokens: seq<Token>, d: Delimiters, from: nat, i: nat): nat
    requires i <= |tokens|
  {
    if i == 0 then from else Behind(tokens[i - 1], d)
  }

  ghost predicate IsNext(text: string, d: Delimiters, start: nat, t: Token) {
    && start <= t.at && Clear(text, d, start, t.at)
    && t.open == StandsAt(text, d.opening, t.at)
    && (t.open || StandsAt(text, d.closing, t.at))
  }

  /** The tokens are the delimiters met going left to right: each is the first one behind the
      one before it, an opening if both stand there, and none follows the last. */
  ghost predicate AreTokens(text: string, d: Delimiters, tokens: seq<Token>, from: nat) {
    && (forall i :: 0 <= i < |tokens| ==> IsNext(text, d, SearchStart(tokens, d, from, i), tokens[i]))
    && Clear(text, d, SearchStart(tokens, d, from, |tokens|), |text|)
  }

  lemma PrependToken(text: string, d: Delimiters, t: Token, rest: seq<Token>)
    requires AreTokens(text, d, rest, Behind(t, d)) && IsNext(text, d, t.at, t)
    ensures AreTokens(text, d, [t] + rest, t.at)
  {
    hide IsNext, Clear, Behind;
    var tokens := [t] + rest;
    forall i | 0 < i <= |tokens|
      ensures SearchStart(tokens, d, t.at, i) == SearchStart(rest, d, Behind(t, d), i - 1)
      ensures i < |tokens| ==> IsNext(text, d, SearchStart(tokens, d, t.at, i), tokens[i])
    {
      if i < |tokens| { assert tokens[i] == rest[i - 1]; }
    }
  }

  lemma SearchStarts(tokens: seq<Token>, d: Delimiters, from: nat, i: nat)
    requires i <= |tokens|
    ensures SearchStart(tokens, d, from, i) == if i == 0 then from else Behind(tokens[i - 1], d)
  {
  }

  lemma SkipOne(text: string, d: Delimiters, index: nat, tokens: seq<Token>)
    requires AreTokens(text, d, tokens, index + 1)
    requires !StandsAt(text, d.opening, index) && !StandsAt(text, d.closing, index)
    ensures AreTokens(text, d, tokens, index)
  {
    hide StandsAt, Behind, SearchStart;
    forall i: nat | i <= |tokens|
      ensures SearchStart(tokens, d, index, i) == if i == 0 then index else SearchStart(tokens, d, index + 1, i)
      ensures i == 0 ==> SearchStart(tokens, d, index + 1, i) == index + 1
    {
      SearchStarts(tokens, d, index, i);
      SearchStarts(tokens, d, index + 1, i);
    }
    forall i | 0 <= i < |tokens| ensures IsNext(text, d, SearchStart(tokens, d, index, i), tokens[i]) {
      assert IsNext(text, d, SearchStart(tokens, d, index + 1, i), tokens[i]);
    }
  }

  lemma {:induction false} TokensAre(text: string, d: Delimiters, index: nat, step: nat)
    requires d.Valid()
    ensures AreTokens(text, d, Tokens(text, d, index, step), index)
    decreases |text| - index
  {
    hide StandsAt, AreTokens;
    if index >= |text| {
      NoTokens(text, d, index);
    } else if StandsAt(text, d.opening, index) || StandsAt(text, d.closing, index) {
      var t := Token(StandsAt(text, d.opening, index), index, step + 1);
      TokensAre(text, d, Behind(t, d), step + 1);
      PrependToken(text, d, t, Tokens(text, d, Behind(t, d), step + 1));
    } else {
      TokensAre(text, d, index + 1, step + 1);
      SkipOne(text, d, index, Tokens(text, d, index + 1, step + 1));
    }
  }

  lemma NoTokens(text: string, d: Delimiters, index: nat)
    requires index >= |text|
    ensures AreTokens(text, d, [], index)
  {
  }

  function Offsets(tokens: seq<Token>): seq<nat> {
    seq(|tokens|, i requires 0 <= i < |tokens| => tokens[i].at)
  }

  lemma TokensAscend(text: string, d: Delimiters, tokens: seq<Token>, from: nat)
    requires d.Valid() && AreTokens(text, d, tokens, from)
    ensures Increasing(Offsets(tokens))
  {
    hide StandsAt, Clear, SearchStart;
    forall i | 0 < i < |tokens| ensures Offsets(tokens)[i - 1] < Offsets(tokens)[i] {
      assert IsNext(text, d, SearchStart(tokens, d, from, i), tokens[i]);
      SearchStarts(tokens, d, from, i);
      assert tokens[i - 1].at < Behind(tokens[i - 1], d);
    }
    Ascending(Offsets(tokens));
  }

  // ----- steps -----------------------------------------------------------------------------------

  /** The characters of the delimiters behind the first of each. */
  function Passed(tokens: seq<Token>, d: Delimiters): int {
    if tokens == [] then 0
    else Passed(tokens[..|tokens| - 1], d) + (if tokens[|tokens| - 1].open then |d.opening| else |d.closing|) - 1
  }

  lemma {:induction false} PassedFirst(t: Token, rest: seq<Token>, d: Delimiters)
    ensures Passed([t] + rest, d) == (if t.open then |d.opening| else |d.closing|) - 1 + Passed(rest, d)
  {
    if rest == [] {
      assert [t] + rest == [t] && [t][..0] == [];
    } else {
      var init, last := rest[..|rest| - 1], rest[|rest| - 1];
      PassedFirst(t, init, d);
      assert ([t] + rest)[..|rest|] == [t] + init;
    }
  }

  /** The scan takes a step for each character, but one for each delimiter; and a delimiter is
      met at the step that the characters and delimiters before it, and itself, make. */
  lemma {:induction false} StepsAre(text: string, d: Delimiters, index: nat, step: nat)
    requires d.Valid() && index <= |text|
    ensures var tokens := Tokens(text, d, index, step);
      Steps(text, d, index) == |text| - index - Passed(tokens, d) && MetAt(tokens, d, index, step)
    decreases |text| - index
  {
    hide StandsAt, Passed, MetAt;
    if index < |text| {
      if StandsAt(text, d.opening, index) || StandsAt(text, d.closing, index) {
        var t := Token(StandsAt(text, d.opening, index), index, step + 1);
        DelimiterFits(text, d, t);
        var rest := Tokens(text, d, Behind(t, d), step + 1);
        StepsAre(text, d, Behind(t, d), step + 1);
        PassedFirst(t, rest, d);
        MetPrepend(t, rest, d, step);
      } else {
        StepsAre(text, d, index + 1, step + 1);
        MetLater(Tokens(text, d, index + 1, step + 1), d, index, step);
      }
    } else {
      NothingMet(d, index, step);
    }
  }

  /** Each token is met at the step that the characters and delimiters before it, and itself,
      make when the scan stands at `index` after `step` steps. */
  ghost predicate MetAt(tokens: seq<Token>, d: Delimiters, index: nat, step: nat) {
    forall i :: 0 <= i < |tokens| ==> tokens[i].step == step + 1 + (tokens[i].at - index) - Passed(tokens[..i], d)
  }

  lemma NothingMet(d: Delimiters, index: nat, step: nat)
    ensures MetAt([], d, index, step) && Passed([], d) == 0
  {
  }

  lemma DelimiterFits(text: string, d: Delimiters, t: Token)
    requires StandsAt(text, if t.open then d.opening else d.closing, t.at)
    ensures Behind(t, d) <= |text|
  {
  }

  lemma MetLater(tokens: seq<Token>, d: Delimiters, index: nat, step: nat)
    requires MetAt(tokens, d, index + 1, step + 1)
    ensures MetAt(tokens, d, index, step)
  {
    hide Passed;
  }

  lemma MetPrepend(t: Token, rest: seq<Token>, d: Delimiters, step: nat)
    requires t.step == step + 1 && MetAt(rest, d, Behind(t, d), step + 1)
    ensures MetAt([t] + rest, d, t.at, step)
  {
    hide Passed;
    NothingMet(d, 0, 0);
    var tokens := [t] + rest;
    forall i | 0 <= i < |tokens| ensures tokens[i].step == step + 1 + (tokens[i].at - t.at) - Passed(tokens[..i], d) {
      if i == 0 {
        assert tokens[..0] == [];
      } else {
        PassedFirst(t, rest[..i - 1], d);
        assert tokens[..i] == [t] + rest[..i - 1];
      }
    }
  }

  // ----- positions ------------------------------------------------------------------------------

  function Newlines(text: string): nat {
    if text == "" then 0 else Newlines(text[..|text| - 1]) + (if text[|text| - 1] == '\n' then 1 else 0)
  }

  /** The offset behind the last newline. */
  function LineStart(text: string): (start: nat)
    ensures start <= |text| && '\n' !in text[start..] && (start > 0 ==> text[start - 1] == '\n')
  {
    if text == "" then 0
    else if text[|text| - 1] == '\n' then |text|
    else
      var start := LineStart(text[..|text| - 1]);
      assert text[start..] == text[..|text| - 1][start..] + [text[|text| - 1]];
      start
  }

  datatype Position = Position(line: nat, column: nat)

  /** Lines and columns count from 1. */
  function PositionOf(text: string, offset: nat): Position
    requires offset <= |text|
  {
    Position(Newlines(text[..offset]) + 1, offset - LineStart(text[..offset]) + 1)
  }

  lemma {:induction false} NewlinesAre(text: string)
    ensures Newlines(text) == |set i: nat | i < |text| && text[i] == '\n'|
  {
    var all := set i: nat | i < |text| && text[i] == '\n';
    if text == "" {
      assert all == {};
    } else {
      var n := |text| - 1;
      NewlinesAre(text[..n]);
      assert all == (set i: nat | i < |text[..n]| && text[..n][i] == '\n') + (if text[n] == '\n' then {n} else {});
    }
  }

  /** The line of a place is one more than the newlines before it, and its column one more
      than the characters between it and the last of them, or the start of the text. */
  lemma PositionIs(text: string, offset: nat)
    requires offset <= |text|
    ensures PositionOf(text, offset).line == 1 + |set i: nat | i < offset && text[i] == '\n'|
    ensures var p := PositionOf(text, offset);
      var start := offset + 1 - p.column;
      && 1 <= p.column <= offset + 1
      && (start > 0 ==> text[start - 1] == '\n')
      && forall i :: start <= i < offset ==> text[i] != '\n'
  {
    var before := text[..offset];
    NewlinesAre(before);
    assert (set i: nat | i < |before| && before[i] == '\n') == set i: nat | i < offset && text[i] == '\n';
    var start := LineStart(before);
    assert forall i :: start <= i < offset ==> before[start..][i - start] == text[i];
  }

  predicate Before(a: Position, b: Position) {
    a.line < b.line || (a.line == b.line && a.column < b.column)
  }

  /** Positions are ordered as offsets are, so they determine them. */
  lemma {:induction false} PositionsIncrease(text: string, i: nat, j: nat)
    requires i < j <= |text|
    ensures Before(PositionOf(text, i), PositionOf(text, j))
    decreases j
  {
    assert text[..j][..j - 1] == text[..j - 1];
    if i < j - 1 { PositionsIncrease(text, i, j - 1); }
  }

  // ----- the tool ---------------------------------------------------------------------------------

  datatype Match = Match(position: Position, value: string, steps: nat)

  ghost predicate InText(tokens: seq<Token>, text: string) {
    forall i :: 0 <= i < |tokens| ==> tokens[i].at <= |text|
  }

  function ClosingMatches(text: string, d: Delimiters, tokens: seq<Token>, closings: seq<nat>): seq<Match>
    requires InText(tokens, text) && Below(closings, |tokens|)
  {
    seq(|closings|, i requires 0 <= i < |closings| =>
      Match(PositionOf(text, tokens[closings[i]].at), d.closing, tokens[closings[i]].step))
  }

  function Positions(text: string, tokens: seq<Token>, stack: seq<nat>): seq<Position>
    requires InText(tokens, text) && Below(stack, |tokens|)
  {
    seq(|stack|, i requires 0 <= i < |stack| => PositionOf(text, tokens[stack[i]].at))
  }

  function OpeningMatches(d: Delimiters, positions: seq<Position>, steps: nat): seq<Match> {
    seq(|positions|, i requires 0 <= i < |positions| => Match(positions[i], d.opening, steps))
  }

  ghost predicate Below(indices: seq<nat>, n: nat) {
    forall i :: 0 <= i < |indices| ==> indices[i] < n
  }

  lemma {:induction false} ScanBelow(w: Word)
    ensures Below(Scanned(w).closings, |w|) && Below(Scanned(w).stack, |w|)
  {
    if w != [] { ScanBelow(w[..|w| - 1]); }
  }

  lemma {:induction false} TokensInText(text: string, d: Delimiters, index: nat, step: nat)
    requires d.Valid()
    ensures InText(Tokens(text, d, index, step), text)
    decreases |text| - index
  {
    if index < |text| {
      if StandsAt(text, d.opening, index) {
        TokensInText(text, d, index + |d.opening|, step + 1);
      } else if StandsAt(text, d.closing, index) {
        TokensInText(text, d, index + |d.closing|, step + 1);
      } else {
        TokensInText(text, d, index + 1, step + 1);
      }
    }
  }

  /** What the tool reports when `used` steps were taken before: the unmatched closings, then
      the unmatched openings. */
  ghost function Unbalanced(text: string, d: Delimiters, used: nat): seq<Match>
    requires d.Valid()
  {
    var tokens := Tokens(text, d, 0, used);
    var scan := Scanned(WordOf(tokens));
    TokensInText(text, d, 0, used);
    ScanBelow(WordOf(tokens));
    ClosingMatches(text, d, tokens, scan.closings)
    + OpeningMatches(d, Positions(text, tokens, scan.stack), used + Steps(text, d, 0))
  }

  /** The report is about this delimiter, at its place in the text. */
  ghost predicate Reports(text: string, d: Delimiters, r: Match, t: Token) {
    && r.value == (if t.open then d.opening else d.closing)
    && t.at + |r.value| <= |text| && text[t.at..t.at + |r.value|] == r.value
    && r.position == PositionOf(text, t.at)
  }

  /** A report for each of these, closings with the step they were met at, then openings with
      the last one. */
  ghost predicate ReportsOn(text: string, d: Delimiters, tokens: seq<Token>, closings: seq<nat>, openings: seq<nat>,
                            r: seq<Match>, last: nat)
  {
    && |r| == |closings| + |openings|
    && (forall i :: 0 <= i < |closings| ==>
          closings[i] < |tokens| && Reports(text, d, r[i], tokens[closings[i]]) && r[i].steps == tokens[closings[i]].step)
    && (forall i :: 0 <= i < |openings| ==>
          openings[i] < |tokens| && Reports(text, d, r[|closings| + i], tokens[openings[i]]) && r[|closings| + i].steps == last)
  }

  /** What is reported: of the delimiters of the text, the closings and the openings of the
      normal form, in order. */
  lemma ReportsAre(text: string, d: Delimiters, used: nat, closings: seq<nat>, openings: seq<nat>)
    requires d.Valid() && NormalForm(WordOf(Tokens(text, d, 0, used)), closings, openings)
    ensures ReportsOn(text, d, Tokens(text, d, 0, used), closings, openings, Unbalanced(text, d, used), used + Steps(text, d, 0))
  {
    hide Scanned, Tokens, PositionOf, Steps, NormalForm, StandsAt, Reports;
    var tokens := Tokens(text, d, 0, used);
    var w, r, last := WordOf(tokens), Unbalanced(text, d, used), used + Steps(text, d, 0);
    ScanIsTheNormalForm(w, closings, openings);
    ScanBelow(w);
    TokensInText(text, d, 0, used);
    TokensStand(text, d, used);
    ScanKinds(w);
    forall i | 0 <= i < |closings| ensures Reports(text, d, r[i], tokens[closings[i]]) {
      assert w[closings[i]] == tokens[closings[i]].open;
      ReportOf(text, d, tokens[closings[i]], r[i].steps);
    }
    forall i | 0 <= i < |openings| ensures Reports(text, d, r[|closings| + i], tokens[openings[i]]) {
      assert w[openings[i]] == tokens[openings[i]].open;
      ReportOf(text, d, tokens[openings[i]], last);
    }
  }

  lemma ReportOf(text: string, d: Delimiters, t: Token, steps: nat)
    requires StandsAt(text, if t.open then d.opening else d.closing, t.at)
    ensures t.at <= |text| && Reports(text, d, Match(PositionOf(text, t.at), if t.open then d.opening else d.closing, steps), t)
  {
    hide PositionOf;
  }

  lemma TokensStand(text: string, d: Delimiters, used: nat)
    requires d.Valid()
    ensures var tokens := Tokens(text, d, 0, used);
      forall i :: 0 <= i < |tokens| ==>
        StandsAt(text, if tokens[i].open then d.opening else d.closing, tokens[i].at)
  {
    hide Tokens, StandsAt, Clear;
    TokensAre(text, d, 0, used);
    var tokens := Tokens(text, d, 0, used);
    forall i | 0 <= i < |tokens| ensures StandsAt(text, if tokens[i].open then d.opening else d.closing, tokens[i].at) {
      assert IsNext(text, d, SearchStart(tokens, d, 0, i), tokens[i]);
    }
  }

  /** Unmatched closings close and unmatched openings open. */
  lemma ScanKinds(w: Word)
    ensures forall i :: 0 <= i < |Scanned(w).closings| ==> Scanned(w).closings[i] < |w| && !w[Scanned(w).closings[i]]
    ensures forall i :: 0 <= i < |Scanned(w).stack| ==> Scanned(w).stack[i] < |w| && w[Scanned(w).stack[i]]
  {
    hide Scanned, BalancedGap;
    ScanIsNormalForm(w);
  }

  /** Nothing is reported exactly if the delimiters of the text are balanced. */
  lemma ReportsNothingIff(text: string, d: Delimiters, used: nat)
    requires d.Valid()
    ensures Unbalanced(text, d, used) == [] <==> Balanced(WordOf(Tokens(text, d, 0, used)))
  {
    hide Balanced, Scanned, Tokens;
    NothingUnmatchedIff(WordOf(Tokens(text, d, 0, used)));
  }

  /** Reports come in the order of their positions, which the ordering of the evidence keeps. */
  lemma ReportsInOrder(text: string, d: Delimiters, used: nat)
    requires d.Valid()
    ensures var r := Unbalanced(text, d, used); forall i, j :: 0 <= i < j < |r| ==> Before(r[i].position, r[j].position)
  {
    hide PositionOf, Scanned, Tokens, Before, AreTokens, StandsAt;
    var tokens := Tokens(text, d, 0, used);
    var scan := Scanned(WordOf(tokens));
    var u := scan.closings + scan.stack;
    TokensInText(text, d, 0, used);
    ScanBelow(WordOf(tokens));
    UnmatchedInOrder(WordOf(tokens));
    TokensAre(text, d, 0, used);
    var r := Unbalanced(text, d, used);
    assert |r| == |u| && Below(u, |tokens|);
    assert forall i :: 0 <= i < |r| ==> r[i].position == PositionOf(text, tokens[u[i]].at);
    TokensAscend(text, d, tokens, 0);
    forall i, j | 0 <= i < j < |r| ensures Before(r[i].position, r[j].position) {
      assert u[i] < u[j] < |Offsets(tokens)|;
      assert Offsets(tokens)[u[i]] < Offsets(tokens)[u[j]];
      PositionsIncrease(text, tokens[u[i]].at, tokens[u[j]].at);
    }
  }

  /** Where the scan of the text stands: the tokens before `index` are done, and stack and
      matches are what the scan over them leaves. */
  ghost predicate At(text: string, d: Delimiters, used: nat, index: nat, steps: nat, done: seq<Token>,
                     matches: seq<Match>, stack: seq<Position>)
    requires d.Valid()
  {
    var scan := Scanned(WordOf(done));
    && done + Tokens(text, d, index, steps) == Tokens(text, d, 0, used)
    && used + Steps(text, d, 0) == steps + Steps(text, d, index)
    && InText(done, text) && Below(scan.closings, |done|) && Below(scan.stack, |done|)
    && matches == ClosingMatches(text, d, done, scan.closings)
    && stack == Positions(text, done, scan.stack)
  }

  lemma AtStart(text: string, d: Delimiters, used: nat)
    requires d.Valid()
    ensures At(text, d, used, 0, used, [], [], [])
  {
    assert WordOf([]) == [] && [] + Tokens(text, d, 0, used) == Tokens(text, d, 0, used);
  }

  lemma AtToken(text: string, d: Delimiters, used: nat, index: nat, steps: nat, done: seq<Token>, matches: seq<Match>, stack: seq<Position>)
    requires d.Valid() && At(text, d, used, index, steps, done, matches, stack) && index < |text|
    requires StandsAt(text, d.opening, index) || StandsAt(text, d.closing, index)
    ensures var open := StandsAt(text, d.opening, index);
      var position := PositionOf(text, index);
      At(text, d, used, index + (if open then |d.opening| else |d.closing|), steps + 1, done + [Token(open, index, steps + 1)],
         if open || stack != [] then matches else matches + [Match(position, d.closing, steps + 1)],
         if open then stack + [position] else if stack != [] then stack[..|stack| - 1] else [])
  {
    hide StandsAt, PositionOf, Scanned, ClosingMatches, Positions, Tokens, Steps, WordOf, Advance, Below, InText;
    var open := StandsAt(text, d.opening, index);
    var t := Token(open, index, steps + 1);
    StepScan(text, d, done, t, Scanned(WordOf(done)));
    StackLength(text, done, Scanned(WordOf(done)).stack);
    TokenMet(text, d, index, steps);
    var next := Tokens(text, d, index + (if open then |d.opening| else |d.closing|), steps + 1);
    assert (done + [t]) + next == done + ([t] + next);
  }

  lemma TokenMet(text: string, d: Delimiters, index: nat, steps: nat)
    requires d.Valid() && index < |text| && (StandsAt(text, d.opening, index) || StandsAt(text, d.closing, index))
    ensures var open := StandsAt(text, d.opening, index);
      var after := index + (if open then |d.opening| else |d.closing|);
      && after <= |text|
      && Tokens(text, d, index, steps) == [Token(open, index, steps + 1)] + Tokens(text, d, after, steps + 1)
      && Steps(text, d, index) == 1 + Steps(text, d, after)
  {
  }

  lemma StackLength(text: string, tokens: seq<Token>, stack: seq<nat>)
    requires InText(tokens, text) && Below(stack, |tokens|)
    ensures |Positions(text, tokens, stack)| == |stack|
  {
  }

  lemma AtSkip(text: string, d: Delimiters, used: nat, index: nat, steps: nat, done: seq<Token>, matches: seq<Match>, stack: seq<Position>)
    requires d.Valid() && At(text, d, used, index, steps, done, matches, stack) && index < |text|
    requires !StandsAt(text, d.opening, index) && !StandsAt(text, d.closing, index)
    ensures At(text, d, used, index + 1, steps + 1, done, matches, stack)
  {
    hide StandsAt, PositionOf, Scanned;
  }

  lemma AtSteps(text: string, d: Delimiters, used: nat, index: nat, steps: nat, done: seq<Token>, matches: seq<Match>, stack: seq<Position>)
    requires d.Valid() && At(text, d, used, index, steps, done, matches, stack)
    ensures used + Steps(text, d, 0) >= steps + (if index < |text| then 1 else 0)
    ensures index >= |text| ==> used + Steps(text, d, 0) == steps && Unbalanced(text, d, used) == matches + OpeningMatches(d, stack, steps)
  {
    hide StandsAt, PositionOf, Scanned;
    if index >= |text| { assert done + [] == done; }
  }

  lemma {:induction false} ClosingsGrow(a: Word, b: Word)
    ensures |Scanned(a).closings| <= |Scanned(a + b).closings|
  {
    if b == [] {
      assert a + b == a;
    } else {
      ClosingsGrow(a, b[..|b| - 1]);
      assert (a + b)[..|a + b| - 1] == a + b[..|b| - 1];
    }
  }

  /** What was found so far is no more than what will be reported. */
  lemma AtMatches(text: string, d: Delimiters, used: nat, index: nat, steps: nat, done: seq<Token>, matches: seq<Match>, stack: seq<Position>)
    requires d.Valid() && At(text, d, used, index, steps, done, matches, stack)
    ensures |matches| <= |Unbalanced(text, d, used)|
  {
    hide StandsAt, PositionOf, Scanned;
    var rest := Tokens(text, d, index, steps);
    assert WordOf(done + rest) == WordOf(done) + WordOf(rest);
    ClosingsGrow(WordOf(done), WordOf(rest));
  }

  // ----- the budget of a tool run ---------------------------------------------------------------------

  datatype ToolLimits = ToolLimits(maxSteps: nat, maxMatches: nat, maxOutputItems: nat)

  datatype LimitExceeded = MaxSteps | SoftTime | MaxMatches | MaxOutputItems

  /** The counters a tool's rules share. Time is the number of steps that the clock, which
      does not go back, lets pass before the deadline. */
  class ExecutionBudget {
    const limits: ToolLimits
    const timely: nat
    var steps: nat
    var matches: nat
    var outputs: nat

    constructor (limits: ToolLimits, timely: nat)
      ensures this.limits == limits && this.timely == timely && steps == matches == outputs == 0
    {
      this.limits, this.timely := limits, timely;
      steps, matches, outputs := 0, 0, 0;
    }

    /** The totals that a limit holds down. */
    predicate Exceeds(limit: LimitExceeded, moreSteps: nat, moreMatches: nat)
      reads this
    {
      match limit
      case MaxSteps => steps + moreSteps > limits.maxSteps
      case SoftTime => steps + moreSteps > timely
      case MaxMatches => matches + moreMatches > limits.maxMatches
      case MaxOutputItems => outputs + moreMatches > limits.maxOutputItems
    }

    predicate Allows(moreSteps: nat, moreMatches: nat)
      reads this
    {
      && steps + moreSteps <= limits.maxSteps && steps + moreSteps <= timely
      && matches + moreMatches <= limits.maxMatches && outputs + moreMatches <= limits.maxOutputItems
    }

    method Step() returns (error: Option<LimitExceeded>)
      modifies this
      ensures steps == old(steps) + 1 && matches == old(matches) && outputs == old(outputs)
      ensures error == if steps > limits.maxSteps then Some(MaxSteps) else if steps > timely then Some(SoftTime) else None
    {
      steps := steps + 1;
      if steps > limits.maxSteps { return Some(MaxSteps); }
      if steps > timely { return Some(SoftTime); }
      return None;
    }

    method AddMatch() returns (error: Option<LimitExceeded>)
      modifies this
      ensures steps == old(steps) && matches == old(matches) + 1
      ensures error == if matches > limits.maxMatches then Some(MaxMatches)
                       else if old(outputs) + 1 > limits.maxOutputItems then Some(MaxOutputItems) else None
      ensures error == None ==> outputs == old(outputs) + 1
    {
      matches := matches + 1;
      if matches > limits.maxMatches { return Some(MaxMatches); }
      outputs := outputs + 1;
      if outputs > limits.maxOutputItems { return Some(MaxOutputItems); }
      return None;
    }
  }

  /** The scan, each report counted as it comes. It succeeds exactly if the budget allows its
      steps and its reports, and fails by a limit that they exceed. */
  method BalancedDelimiter(text: string, d: Delimiters, budget: ExecutionBudget) returns (result: Result<seq<Match>, LimitExceeded>)
    requires d.Valid() && budget.Allows(0, 0)
    modifies budget
    ensures result.Ok? <==> old(budget.Allows(Steps(text, d, 0), |Unbalanced(text, d, budget.steps)|))
    ensures result.Ok? <==>
      var n := |Unbalanced(text, d, old(budget.steps))|;
      && old(budget.steps) + Steps(text, d, 0) <= budget.limits.maxSteps && old(budget.steps) + Steps(text, d, 0) <= budget.timely
      && old(budget.matches) + n <= budget.limits.maxMatches && old(budget.outputs) + n <= budget.limits.maxOutputItems
    ensures result.Err? ==> old(budget.Exceeds(result.error, Steps(text, d, 0), |Unbalanced(text, d, budget.steps)|))
    ensures result.Ok? ==> result.value == Unbalanced(text, d, old(budget.steps))
    ensures result.Ok? ==> budget.steps == old(budget.steps) + Steps(text, d, 0)
    ensures result.Ok? ==> budget.matches == old(budget.matches) + |result.value| && budget.outputs == old(budget.outputs) + |result.value|
  {
    hide StandsAt, PositionOf, At, Unbalanced, Steps, Tokens;
    ghost var used, m0, o0 := budget.steps, budget.matches, budget.outputs;
    var matches: seq<Match> := [];
    var stack: seq<Position> := [];
    var index := 0;
    ghost var done: seq<Token> := [];
    AtStart(text, d, used);
    while index < |text|
      invariant At(text, d, used, index, budget.steps, done, matches, stack) && budget.Allows(0, 0)
      invariant budget.matches == m0 + |matches| && budget.outputs == o0 + |matches|
      decreases |text| - index
    {
      AtSteps(text, d, used, index, budget.steps, done, matches, stack);
      ghost var before := budget.steps;
      var error := budget.Step();
      if error.Some? { return Err(error.value); }
      if StandsAt(text, d.opening, index) {
        AtToken(text, d, used, index, before, done, matches, stack);
        done := done + [Token(true, index, budget.steps)];
        stack := stack + [PositionOf(text, index)];
        index := index + |d.opening|;
      } else if StandsAt(text, d.closing, index) {
        AtToken(text, d, used, index, before, done, matches, stack);
        done := done + [Token(false, index, budget.steps)];
        var position := PositionOf(text, index);
        index := index + |d.closing|;
        if stack != [] {
          stack := stack[..|stack| - 1];
        } else {
          matches := matches + [Match(position, d.closing, budget.steps)];
          AtMatches(text, d, used, index, budget.steps, done, matches, stack);
          error := budget.AddMatch();
          if error.Some? { return Err(error.value); }
        }
      } else {
        AtSkip(text, d, used, index, before, done, matches, stack);
        index := index + 1;
      }
    }
    AtSteps(text, d, used, index, budget.steps, done, matches, stack);
    result := ReportOpenings(text, d, used, stack, matches, budget);
  }

  /** The openings left on the stack are reported last. */
  method ReportOpenings(text: string, d: Delimiters, ghost used: nat, stack: seq<Position>, closings: seq<Match>, budget: ExecutionBudget)
    returns (result: Result<seq<Match>, LimitExceeded>)
    requires d.Valid() && budget.Allows(0, 0)
    requires Unbalanced(text, d, used) == closings + OpeningMatches(d, stack, budget.steps)
    modifies budget
    ensures budget.steps == old(budget.steps)
    ensures result.Ok? <==> old(budget.Allows(0, |stack|))
    ensures result.Ok? ==> result.value == Unbalanced(text, d, used)
    ensures result.Ok? ==> budget.matches == old(budget.matches) + |stack| && budget.outputs == old(budget.outputs) + |stack|
    ensures result.Err? ==> (result.error.MaxMatches? || result.error.MaxOutputItems?) && old(budget.Exceeds(result.error, 0, |stack|))
  {
    hide Unbalanced;
    var matches := closings;
    for i := 0 to |stack|
      invariant budget.steps == old(budget.steps) && budget.Allows(0, 0)
      invariant budget.matches == old(budget.matches) + i && budget.outputs == old(budget.outputs) + i
      invariant matches == closings + OpeningMatches(d, stack[..i], budget.steps)
    {
      matches := matches + [Match(stack[i], d.opening, budget.steps)];
      var error := budget.AddMatch();
      if error.Some? { return Err(error.value); }
    }
    assert stack[..|stack|] == stack;
    return Ok(matches);
  }

  /** One more token: what the stack of positions and the matches become. */
  lemma StepScan(text: string, d: Delimiters, done: seq<Token>, t: Token, scan: Scan)
    requires InText(done, text) && t.at <= |text| && scan == Scanned(WordOf(done))
    requires Below(scan.closings, |done|) && Below(scan.stack, |done|)
    ensures var scan', done' := Advance(scan, t.open, |done|), done + [t];
      && scan' == Scanned(WordOf(done')) && InText(done', text)
      && Below(scan'.closings, |done'|) && Below(scan'.stack, |done'|)
      && (var matches := ClosingMatches(text, d, done, scan.closings);
          ClosingMatches(text, d, done', scan'.closings) ==
            if t.open || scan.stack != [] then matches
            else matches + [Match(PositionOf(text, t.at), d.closing, t.step)])
      && (var stack := Positions(text, done, scan.stack);
          Positions(text, done', scan'.stack) ==
            if t.open then stack + [PositionOf(text, t.at)]
            else if stack != [] then stack[..|stack| - 1] else [])
  {
    hide PositionOf, Scanned;
    assert WordOf(done + [t]) == WordOf(done) + [t.open];
    ScannedOneMore(WordOf(done), t.open);
  }
}
