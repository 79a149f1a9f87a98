/** Adjacency expansion of search hits: every hit grows by `neighbors` chunks on each side, windows
    that touch fuse into one span, and each span stands at the place of its best-ranked hit. */
module Expansion {
  import opened Ids

  datatype Doc = Doc(collection: nat, document: nat)
  datatype Key = Key(doc: Doc, index: nat)

  /** A ranked search result; `key` is `None` when it cannot be expanded. */
  datatype Hit = Hit(key: Option<Key>, text: string, rank: nat)

  datatype Span = Span(start: nat, end: nat)

  /** A stored chunk: its text, and the page it is on if that is known. */
  datatype Chunk = Chunk(text: string, page: Option<int>)

  /** A fetched chunk with its index in its document. */
  datatype Piece = Piece(index: nat, text: string, page: Option<int>)

  function PieceOf(index: nat, chunk: Chunk): Piece {
    Piece(index, chunk.text, chunk.page)
  }

  /** A result that passed through, or one grown into the span `span` of `doc`; `hit` is the
      position of the result it stands for. */
  datatype Output =
    | Passed(hit: nat, text: string, rank: nat)
    | Grown(hit: nat, doc: Doc, span: Span, kept: seq<Piece>, text: string, pages: Option<(int, int)>, rank: nat)

  // ---- windows and spans ---------------------------------------------------------------

  predicate Holds(s: Span, k: int) {
    s.start <= k <= s.end
  }

  ghost predicate Covered(spans: seq<Span>, k: int) {
    exists s :: s in spans && Holds(s, k)
  }

  predicate Proper(spans: seq<Span>) {
    forall s :: s in spans ==> s.start <= s.end
  }

  /** In ascending order, with at least one uncovered place between neighbours. */
  predicate Separated(spans: seq<Span>) {
    forall i, j :: 0 <= i < j < |spans| ==> spans[i].end + 1 < spans[j].start
  }

  predicate Below(a: Span, b: Span) {
    a.start < b.start || (a.start == b.start && a.end <= b.end)
  }

  predicate Ordered(spans: seq<Span>) {
    forall i, j :: 0 <= i < j < |spans| ==> Below(spans[i], spans[j])
  }

  function Insert(s: Span, spans: seq<Span>): seq<Span> {
    if spans == [] || Below(s, spans[0]) then [s] + spans else [spans[0]] + Insert(s, spans[1..])
  }

  function Sorted(spans: seq<Span>): seq<Span> {
    if spans == [] then [] else Insert(spans[0], Sorted(spans[1..]))
  }

  lemma {:induction false} InsertKeeps(s: Span, spans: seq<Span>)
    requires Ordered(spans)
    ensures Ordered(Insert(s, spans))
    ensures forall x :: x in Insert(s, spans) <==> x == s || x in spans
  {
    if spans != [] && !Below(s, spans[0]) {
      InsertKeeps(s, spans[1..]);
      var rest := Insert(s, spans[1..]);
      assert forall x :: x in rest ==> Below(spans[0], x);
      assert forall x :: x in spans <==> x == spans[0] || x in spans[1..];
    }
  }

  lemma {:induction false} SortedIsOrdered(spans: seq<Span>)
    ensures Ordered(Sorted(spans))
    ensures forall x :: x in Sorted(spans) <==> x in spans
  {
    if spans != [] {
      SortedIsOrdered(spans[1..]);
      InsertKeeps(spans[0], Sorted(spans[1..]));
      assert forall x :: x in spans <==> x == spans[0] || x in spans[1..];
    }
  }

  /** `_merge_intervals`: separated spans that cover exactly what the windows cover. */
  method MergeIntervals(windows: seq<Span>) returns (spans: seq<Span>)
    requires Proper(windows)
    ensures Proper(spans) && Separated(spans)
    ensures forall k :: Covered(spans, k) <==> Covered(windows, k)
  {
    var sorted := Sorted(windows);
    SortedIsOrdered(windows);
    spans := [];
    for i := 0 to |sorted|
      invariant Proper(spans) && Separated(spans)
      invariant forall k :: Covered(spans, k) <==> Covered(sorted[..i], k)
      invariant spans != [] ==> i > 0 && spans[|spans| - 1].start <= sorted[i - 1].start
    {
      var w := sorted[i];
      ghost var before := spans;
      assert sorted[..i + 1] == sorted[..i] + [w];
      if spans != [] && w.start <= spans[|spans| - 1].end + 1 {
        var last := spans[|spans| - 1];
        spans := spans[..|spans| - 1] + [Span(last.start, if last.end < w.end then w.end else last.end)];
        Fused(before, w, spans);
      } else {
        spans := spans + [w];
      }
      CoveredSnoc(sorted[..i], w);
      CoveredSnoc(before, w);
    }
    assert sorted[..|sorted|] == sorted;
  }

  lemma CoveredSnoc(spans: seq<Span>, w: Span)
    ensures forall k :: Covered(spans + [w], k) <==> Covered(spans, k) || Holds(w, k)
  {
    assert w in spans + [w];
    assert forall s :: s in spans + [w] <==> s in spans || s == w;
  }

  lemma Fused(spans: seq<Span>, w: Span, fused: seq<Span>)
    requires spans != [] && Proper(spans) && w.start <= w.end
    requires var last := spans[|spans| - 1];
      && last.start <= w.start <= last.end + 1
      && fused == spans[..|spans| - 1] + [Span(last.start, if last.end < w.end then w.end else last.end)]
    ensures forall k :: Covered(fused, k) <==> Covered(spans, k) || Holds(w, k)
  {
    var last, first := spans[|spans| - 1], spans[..|spans| - 1];
    CoveredSnoc(first, last);
    CoveredSnoc(first, fused[|spans| - 1]);
    assert spans == first + [last];
  }

  // ---- fitting a span to the budget ----------------------------------------------------

  function TextTotal(run: seq<Piece>): nat {
    if run == [] then 0 else |run[0].text| + TextTotal(run[1..])
  }

  function Size(run: seq<Piece>): int {
    TextTotal(run) + 2 * (|run| - 1)
  }

  /** The texts with a blank line between them. */
  function Joined(run: seq<Piece>): string {
    if run == [] then ""
    else if |run| == 1 then run[0].text
    else run[0].text + "\n\n" + Joined(run[1..])
  }

  predicate LeftGoes(run: seq<Piece>, hits: set<nat>)
    requires run != []
  {
    var left, right := run[0], run[|run| - 1];
    left.index !in hits && (right.index in hits || |left.text| >= |right.text|)
  }

  predicate Settled(run: seq<Piece>, hits: set<nat>, budget: int) {
    |run| <= 1 || Size(run) <= budget || (run[0].index in hits && run[|run| - 1].index in hits)
  }

  function Fit(run: seq<Piece>, hits: set<nat>, budget: int): seq<Piece> {
    if Settled(run, hits, budget) then run
    else if LeftGoes(run, hits) then Fit(run[1..], hits, budget)
    else Fit(run[..|run| - 1], hits, budget)
  }

  /** `_fit_budget`: drops from the two ends, one at a time. */
  method FitBudget(ordered: seq<Piece>, hits: set<nat>, budget: int) returns (kept: seq<Piece>)
    ensures kept == Fit(ordered, hits, budget)
  {
    hide Size, Fit;
    if ordered == [] {
      FitSettled(ordered, hits, budget);
      return [];
    }
    var lo, hi := 0, |ordered| - 1;
    assert ordered[lo..hi + 1] == ordered;
    while lo < hi && Size(ordered[lo..hi + 1]) > budget
      invariant 0 <= lo <= hi < |ordered|
      invariant Fit(ordered[lo..hi + 1], hits, budget) == Fit(ordered, hits, budget)
    {
      var left, right := ordered[lo].index !in hits, ordered[hi].index !in hits;
      if !left && !right { break; }
      FitShrinks(ordered, lo, hi, hits, budget);
      if left && (!right || |ordered[lo].text| >= |ordered[hi].text|) {
        lo := lo + 1;
      } else {
        hi := hi - 1;
      }
    }
    kept := ordered[lo..hi + 1];
    FitSettled(kept, hits, budget);
  }

  /** Nothing more is dropped from what fits, is a single chunk, or has a hit at both ends. */
  lemma FitSettled(run: seq<Piece>, hits: set<nat>, budget: int)
    requires |run| <= 1 || Size(run) <= budget || (run[0].index in hits && run[|run| - 1].index in hits)
    ensures Fit(run, hits, budget) == run
  {
  }

  /** One drop from an end of `ordered[lo..hi + 1]`: never a hit, and the longer of two others,
      the left one on a tie. */
  lemma FitShrinks(ordered: seq<Piece>, lo: nat, hi: nat, hits: set<nat>, budget: int)
    requires lo < hi < |ordered| && Size(ordered[lo..hi + 1]) > budget
    requires ordered[lo].index !in hits || ordered[hi].index !in hits
    ensures Fit(ordered[lo..hi + 1], hits, budget) ==
      if ordered[lo].index !in hits && (ordered[hi].index in hits || |ordered[lo].text| >= |ordered[hi].text|)
      then Fit(ordered[lo + 1..hi + 1], hits, budget) else Fit(ordered[lo..hi], hits, budget)
  {
    hide Size, Fit;
    var run := ordered[lo..hi + 1];
    Ends(ordered, lo, hi);
    FitStep(run, hits, budget);
  }

  lemma Ends(ordered: seq<Piece>, lo: nat, hi: nat)
    requires lo < hi < |ordered|
    ensures var run := ordered[lo..hi + 1];
      && |run| > 1 && run[0] == ordered[lo] && run[|run| - 1] == ordered[hi]
      && run[1..] == ordered[lo + 1..hi + 1] && run[..|run| - 1] == ordered[lo..hi]
  {
  }

  lemma FitStep(run: seq<Piece>, hits: set<nat>, budget: int)
    requires !Settled(run, hits, budget)
    ensures Fit(run, hits, budget) == Fit(if LeftGoes(run, hits) then run[1..] else run[..|run| - 1], hits, budget)
  {
  }

  /** The budget was needed for the drop that left `run[lo..hi]`: with one more chunk it is over. */
  predicate Needed(run: seq<Piece>, lo: nat, hi: nat, budget: int)
    requires lo <= hi <= |run|
  {
    || (lo == 0 && hi == |run|)
    || (lo > 0 && Size(run[lo - 1..hi]) > budget)
    || (hi < |run| && Size(run[lo..hi + 1]) > budget)
  }

  ghost predicate Trimmed(run: seq<Piece>, hits: set<nat>, budget: int, lo: nat, hi: nat) {
    && lo <= hi <= |run| && Fit(run, hits, budget) == run[lo..hi]
    && Settled(run[lo..hi], hits, budget) && Needed(run, lo, hi, budget)
    && forall j :: 0 <= j < |run| && run[j].index in hits ==> lo <= j < hi
  }

  /** What is kept is one contiguous part holding every hit; it fits the budget, or is one chunk,
      or has hits at both ends; and it was cut only because one more chunk was over the budget. */
  lemma {:induction false} FitTrims(run: seq<Piece>, hits: set<nat>, budget: int)
    ensures exists lo: nat, hi: nat :: Trimmed(run, hits, budget, lo, hi)
    decreases |run|
  {
    hide Size, Fit, Settled, Trimmed;
    if Settled(run, hits, budget) {
      TrimNone(run, hits, budget);
    } else {
      FitStep(run, hits, budget);
      NotSettled(run, hits, budget);
      var left := LeftGoes(run, hits);
      var rest := if left then run[1..] else run[..|run| - 1];
      FitTrims(rest, hits, budget);
      var lo: nat, hi: nat :| Trimmed(rest, hits, budget, lo, hi);
      if left { TrimLeft(run, hits, budget, lo, hi); } else { TrimRight(run, hits, budget, lo, hi); }
    }
  }

  lemma NotSettled(run: seq<Piece>, hits: set<nat>, budget: int)
    ensures !Settled(run, hits, budget) ==> |run| > 1 && Size(run) > budget
    ensures !Settled(run, hits, budget) && !LeftGoes(run, hits) ==> run[|run| - 1].index !in hits
  {
  }

  lemma TrimNone(run: seq<Piece>, hits: set<nat>, budget: int)
    requires Settled(run, hits, budget)
    ensures Trimmed(run, hits, budget, 0, |run|)
  {
    assert run[0..|run|] == run;
  }

  lemma TrimLeft(run: seq<Piece>, hits: set<nat>, budget: int, lo: nat, hi: nat)
    requires run != [] && Size(run) > budget && LeftGoes(run, hits)
    requires Fit(run, hits, budget) == Fit(run[1..], hits, budget) && Trimmed(run[1..], hits, budget, lo, hi)
    ensures Trimmed(run, hits, budget, lo + 1, hi + 1)
  {
    hide Size, Fit, Settled, Needed;
    var rest := run[1..];
    assert rest[lo..hi] == run[lo + 1..hi + 1];
    assert forall j :: 0 < j < |run| ==> run[j] == rest[j - 1];
    NeededLeft(run, lo, hi, budget);
  }

  lemma TrimRight(run: seq<Piece>, hits: set<nat>, budget: int, lo: nat, hi: nat)
    requires run != [] && Size(run) > budget && run[|run| - 1].index !in hits
    requires Fit(run, hits, budget) == Fit(run[..|run| - 1], hits, budget) && Trimmed(run[..|run| - 1], hits, budget, lo, hi)
    ensures Trimmed(run, hits, budget, lo, hi)
  {
    hide Size, Fit, Settled, Needed;
    var rest := run[..|run| - 1];
    assert rest[lo..hi] == run[lo..hi];
    NeededRight(run, lo, hi, budget);
  }

  lemma NeededLeft(run: seq<Piece>, lo: nat, hi: nat, budget: int)
    requires run != [] && Size(run) > budget && lo <= hi < |run| && Needed(run[1..], lo, hi, budget)
    ensures Needed(run, lo + 1, hi + 1, budget)
  {
    hide Size;
    var rest := run[1..];
    assert run[0..|run|] == run;
    if lo > 0 { assert rest[lo - 1..hi] == run[lo..hi + 1]; }
    if hi < |rest| { assert rest[lo..hi + 1] == run[lo + 1..hi + 2]; }
  }

  lemma NeededRight(run: seq<Piece>, lo: nat, hi: nat, budget: int)
    requires run != [] && Size(run) > budget && lo <= hi < |run| && Needed(run[..|run| - 1], lo, hi, budget)
    ensures Needed(run, lo, hi, budget)
  {
    hide Size;
    var rest := run[..|run| - 1];
    assert run[0..|run|] == run;
    if lo > 0 { assert rest[lo - 1..hi] == run[lo - 1..hi]; }
    if hi < |rest| { assert rest[lo..hi + 1] == run[lo..hi + 1]; }
  }

  /** The size the budget is checked against is the exact length of the text assembled. */
  lemma {:induction false} SizeIsExact(run: seq<Piece>)
    requires run != []
    ensures |Joined(run)| == Size(run)
  {
    if |run| > 1 { SizeIsExact(run[1..]); } else { assert run == [run[0]] && TextTotal(run[1..]) == 0; }
  }

  /** Where the text of the chunk at place `j` starts: after the texts before it and a blank line for each. */
  function At(run: seq<Piece>, j: nat): nat
    requires j <= |run|
  {
    TextTotal(run[..j]) + 2 * j
  }

  lemma AtStep(run: seq<Piece>, j: nat)
    requires 0 < j <= |run|
    ensures At(run, j) == |run[0].text| + 2 + At(run[1..], j - 1)
  {
    assert run[..j][1..] == run[1..][..j - 1];
  }

  predicate StandsAt(whole: string, at: nat, part: string, first: bool, last: bool) {
    && at + |part| <= |whole| && whole[at..at + |part|] == part
    && (first ==> at == 0) && (!first ==> at >= 2 && whole[at - 2..at] == "\n\n")
    && (last ==> at + |part| == |whole|)
  }

  /** The texts stand in order, each after the whole of those before it, with one blank line between. */
  lemma {:induction false} JoinedAt(run: seq<Piece>, j: nat)
    requires j < |run|
    ensures StandsAt(Joined(run), At(run, j), run[j].text, j == 0, j == |run| - 1)
  {
    if j == 0 {
      JoinedFirst(run);
    } else {
      hide TextTotal, Joined, At, StandsAt;
      JoinedAt(run[1..], j - 1);
      AtStep(run, j);
      JoinedStep(run);
      StandsPast(run[0].text, Joined(run[1..]), At(run[1..], j - 1), run[j].text, j == 1, j == |run| - 1);
    }
  }

  lemma JoinedFirst(run: seq<Piece>)
    requires run != []
    ensures StandsAt(Joined(run), At(run, 0), run[0].text, true, |run| == 1)
  {
    hide Joined, TextTotal, Size;
    assert run[..0] == [] && TextTotal([]) == 0 by { NoText(); }
    if |run| == 1 {
      assert Joined(run) == run[0].text by { JoinedOne(run); }
    } else {
      JoinedStep(run);
      var rest := "\n\n" + Joined(run[1..]);
      assert Joined(run) == run[0].text + rest;
    }
  }

  lemma NoText()
    ensures TextTotal([]) == 0
  {
  }

  lemma JoinedOne(run: seq<Piece>)
    requires |run| == 1
    ensures Joined(run) == run[0].text
  {
  }

  lemma JoinedStep(run: seq<Piece>)
    requires |run| > 1
    ensures Joined(run) == run[0].text + "\n\n" + Joined(run[1..])
  {
  }

  lemma StandsPast(before: string, rest: string, at: nat, part: string, first: bool, last: bool)
    requires StandsAt(rest, at, part, first, last)
    ensures StandsAt(before + "\n\n" + rest, |before| + 2 + at, part, false, last)
  {
    var text, to := before + "\n\n" + rest, |before| + 2 + at;
    assert text[to..to + |part|] == rest[at..at + |part|];
    assert at >= 2 ==> text[to - 2..to] == rest[at - 2..at];
  }

  ghost predicate IsPart(part: string, whole: string) {
    exists pre: string, post: string :: whole == pre + part + post
  }

  lemma {:induction false} JoinedHolds(run: seq<Piece>, j: nat)
    requires j < |run|
    ensures IsPart(run[j].text, Joined(run))
  {
    if |run| == 1 {
      assert Joined(run) == "" + run[0].text + "";
    } else if j == 0 {
      assert Joined(run) == "" + run[0].text + ("\n\n" + Joined(run[1..]));
    } else {
      JoinedHolds(run[1..], j - 1);
      var pre: string, post: string :| Joined(run[1..]) == pre + run[j].text + post;
      assert Joined(run) == (run[0].text + "\n\n" + pre) + run[j].text + post;
    }
  }

  // ---- the pages of a span -------------------------------------------------------------

  function Pages(run: seq<Piece>): set<int> {
    set p | p in run && p.page.Some? :: p.page.value
  }

  /** The lowest and the highest page known, unless all that is known is a single page or nothing. */
  predicate IsPageRange(run: seq<Piece>, range: Option<(int, int)>) {
    match range
    case None => forall x, y :: x in Pages(run) && y in Pages(run) ==> x == y
    case Some((lo, hi)) => lo < hi && lo in Pages(run) && hi in Pages(run) && forall x :: x in Pages(run) ==> lo <= x <= hi
  }

  /** The lowest and highest page, `None` when none is known. */
  function PageBounds(run: seq<Piece>): (bounds: Option<(int, int)>)
    ensures bounds.None? <==> Pages(run) == {}
    ensures bounds.Some? ==> bounds.value.0 in Pages(run) && bounds.value.1 in Pages(run)
    ensures bounds.Some? ==> forall x :: x in Pages(run) ==> bounds.value.0 <= x <= bounds.value.1
  {
    if run == [] then None
    else
      PagesStep(run);
      var rest := PageBounds(run[1..]);
      match run[0].page
      case None => rest
      case Some(x) =>
        if rest.None? then Some((x, x))
        else Some((if x < rest.value.0 then x else rest.value.0, if x > rest.value.1 then x else rest.value.1))
  }

  lemma PagesStep(run: seq<Piece>)
    requires run != []
    ensures Pages(run) == (if run[0].page.Some? then {run[0].page.value} else {}) + Pages(run[1..])
  {
    assert run == [run[0]] + run[1..];
    assert forall p :: p in run <==> p == run[0] || p in run[1..];
    if run[0].page.Some? { assert run[0] in run && run[0].page.value in Pages(run); }
    forall x | x in Pages(run[1..]) ensures x in Pages(run) {
      var p :| p in run[1..] && p.page.Some? && p.page.value == x;
      assert p in run;
    }
  }

  /** `_page_range` */
  function PageRange(run: seq<Piece>): (range: Option<(int, int)>)
    ensures IsPageRange(run, range)
  {
    var bounds := PageBounds(run);
    if bounds.Some? && bounds.value.0 != bounds.value.1 then bounds else None
  }

  lemma OnePageRange(run: seq<Piece>, a: Option<(int, int)>, b: Option<(int, int)>)
    requires IsPageRange(run, a) && IsPageRange(run, b)
    ensures a == b
  {
  }

  // ---- what an expansion must be -------------------------------------------------------

  predicate IsHit(r: Hit, doc: Doc) {
    r.key.Some? && r.key.value.doc == doc
  }

  /** Place `k` of the document is within `n` of one of its hits. */
  predicate Near(results: seq<Hit>, n: int, doc: Doc, k: int) {
    exists i :: 0 <= i < |results| && IsHit(results[i], doc)
      && k >= 0 && results[i].key.value.index - n <= k <= results[i].key.value.index + n
  }

  /** A longest run of places near a hit. */
  ghost predicate IsSpan(results: seq<Hit>, n: int, doc: Doc, span: Span) {
    && span.start <= span.end && (forall k :: Holds(span, k) ==> Near(results, n, doc, k))
    && !Near(results, n, doc, span.start - 1) && !Near(results, n, doc, span.end + 1)
  }

  function HitIndexes(results: seq<Hit>, doc: Doc): (hits: set<nat>)
  {
    set i | 0 <= i < |results| && IsHit(results[i], doc) :: results[i].key.value.index
  }

  /** The stored chunks of a document from `start` to `end`, in order. */
  function Run(stored: map<Key, Chunk>, doc: Doc, start: nat, end: int): seq<Piece>
    decreases end - start + 1
  {
    if start > end then []
    else
      (if Key(doc, start) in stored then [PieceOf(start, stored[Key(doc, start)])] else [])
      + Run(stored, doc, start + 1, end)
  }

  predicate InSpan(r: Hit, doc: Doc, span: Span) {
    IsHit(r, doc) && Holds(span, r.key.value.index)
  }

  ghost predicate Faithful(results: seq<Hit>, n: int, budget: int, stored: map<Key, Chunk>, o: Output) {
    && o.hit < |results|
    && match o {
         case Passed(i, text, _) => results[i].key.None? && text == results[i].text
         case Grown(i, doc, span, kept, text, pages, _) =>
           var run := Run(stored, doc, span.start, span.end);
           && IsSpan(results, n, doc, span) && InSpan(results[i], doc, span)
           && (forall j :: 0 <= j < i ==> !InSpan(results[j], doc, span))
           && kept == Fit(run, HitIndexes(results, doc), budget)
           && text == (if run == [] then results[i].text else Joined(kept))
           && IsPageRange(kept, pages)
       }
  }

  predicate StandsFor(o: Output, results: seq<Hit>, i: nat)
    requires i < |results|
  {
    match o
    case Passed(hit, _, _) => hit == i
    case Grown(_, doc, span, _, _, _, _) => InSpan(results[i], doc, span)
  }

  predicate Represented(out: seq<Output>, results: seq<Hit>, i: nat)
    requires i < |results|
  {
    exists m :: 0 <= m < |out| && StandsFor(out[m], results, i)
  }

  ghost predicate Increasing(out: seq<Output>) {
    forall l, m :: 0 <= l < m < |out| ==> out[l].hit < out[m].hit
  }

  ghost predicate Expanded(results: seq<Hit>, n: int, budget: int, stored: map<Key, Chunk>, out: seq<Output>) {
    && Increasing(out)
    && (forall m :: 0 <= m < |out| ==> Faithful(results, n, budget, stored, out[m]) && out[m].rank == m + 1)
    && forall i :: 0 <= i < |results| ==> Represented(out, results, i)
  }

  function Untouched(results: seq<Hit>): seq<Output> {
    seq(|results|, i requires 0 <= i < |results| => Passed(i, results[i].text, results[i].rank))
  }

  predicate Expandable(results: seq<Hit>) {
    exists i :: 0 <= i < |results| && results[i].key.Some?
  }

  // ---- the code ------------------------------------------------------------------------

  function WindowOf(index: nat, n: nat): Span {
    Span(if index < n then 0 else index - n, index + n)
  }

  function WindowsOf(windows: map<Doc, seq<Span>>, doc: Doc): seq<Span> {
    if doc in windows then windows[doc] else []
  }

  /** The `windows` table built so far is right for the results read so far. */
  ghost predicate WindowsTable(windows: map<Doc, seq<Span>>, results: seq<Hit>, n: int) {
    forall doc :: Proper(WindowsOf(windows, doc))
      && forall k :: Covered(WindowsOf(windows, doc), k) <==> Near(results, n, doc, k)
  }

  lemma NearSnoc(results: seq<Hit>, r: Hit, n: nat, doc: Doc, k: int)
    ensures Near(results + [r], n, doc, k) <==>
      Near(results, n, doc, k) || (IsHit(r, doc) && Holds(WindowOf(r.key.value.index, n), k))
  {
    var more := results + [r];
    assert more[|results|] == r;
    if Near(results, n, doc, k) {
      var i :| 0 <= i < |results| && IsHit(results[i], doc)
        && k >= 0 && results[i].key.value.index - n <= k <= results[i].key.value.index + n;
      assert more[i] == results[i];
    }
  }

  method Windows(results: seq<Hit>, n: nat) returns (windows: map<Doc, seq<Span>>)
    ensures WindowsTable(windows, results, n)
    ensures forall i :: 0 <= i < |results| && results[i].key.Some? ==> results[i].key.value.doc in windows
  {
    hide Near, Covered;
    windows := map[];
    NoWindows(n);
    for i := 0 to |results|
      invariant WindowsTable(windows, results[..i], n)
      invariant forall j :: 0 <= j < i && results[j].key.Some? ==> results[j].key.value.doc in windows
    {
      ghost var before := windows;
      assert results[..i + 1] == results[..i] + [results[i]];
      if results[i].key.Some? {
        var key := results[i].key.value;
        windows := windows[key.doc := WindowsOf(windows, key.doc) + [WindowOf(key.index, n)]];
      }
      WindowAdded(before, windows, results[..i], results[i], n);
    }
    assert results[..|results|] == results;
  }

  lemma NoWindows(n: nat)
    ensures WindowsTable(map[], [], n)
  {
  }

  lemma WindowAdded(before: map<Doc, seq<Span>>, after: map<Doc, seq<Span>>, results: seq<Hit>, r: Hit, n: nat)
    requires WindowsTable(before, results, n)
    requires after == if r.key.None? then before
                      else before[r.key.value.doc := WindowsOf(before, r.key.value.doc) + [WindowOf(r.key.value.index, n)]]
    ensures WindowsTable(after, results + [r], n)
  {
    hide Near, Covered, WindowOf;
    forall doc ensures Proper(WindowsOf(after, doc)) {
      ProperWindow(before, r, n, doc);
    }
    forall doc, k ensures Covered(WindowsOf(after, doc), k) <==> Near(results + [r], n, doc, k) {
      NearSnoc(results, r, n, doc, k);
      assert Near(results, n, doc, k) <==> Covered(WindowsOf(before, doc), k);
      if IsHit(r, doc) { CoveredSnoc(WindowsOf(before, doc), WindowOf(r.key.value.index, n)); }
    }
  }

  lemma ProperWindow(windows: map<Doc, seq<Span>>, r: Hit, n: nat, doc: Doc)
    requires Proper(WindowsOf(windows, doc))
    ensures IsHit(r, doc) ==> Proper(WindowsOf(windows, doc) + [WindowOf(r.key.value.index, n)])
  {
  }

  /** Separated spans covering exactly the places near a hit are its longest runs. */
  lemma MergedAreSpans(spans: seq<Span>, results: seq<Hit>, n: int, doc: Doc)
    requires Proper(spans) && Separated(spans)
    requires forall k :: Covered(spans, k) <==> Near(results, n, doc, k)
    ensures forall s :: s in spans ==> IsSpan(results, n, doc, s)
  {
    hide Near;
    forall s | s in spans ensures IsSpan(results, n, doc, s) {
      assert forall k :: Holds(s, k) ==> Covered(spans, k);
      assert !Covered(spans, s.start - 1) && !Covered(spans, s.end + 1);
    }
  }

  ghost predicate SpansTable(spans: map<Doc, seq<Span>>, results: seq<Hit>, n: int) {
    forall doc :: doc in spans ==>
      && (forall s :: s in spans[doc] ==> IsSpan(results, n, doc, s))
      && forall k :: Near(results, n, doc, k) ==> Covered(spans[doc], k)
  }

  method Spans(windows: map<Doc, seq<Span>>, ghost results: seq<Hit>, ghost n: int) returns (spans: map<Doc, seq<Span>>)
    requires WindowsTable(windows, results, n)
    ensures spans.Keys == windows.Keys && SpansTable(spans, results, n)
  {
    hide Near, Covered, IsSpan;
    spans := map[];
    var todo := windows.Keys;
    while todo != {}
      invariant spans.Keys + todo == windows.Keys
      invariant SpansTable(spans, results, n)
    {
      var doc :| doc in todo;
      assert windows[doc] == WindowsOf(windows, doc);
      var merged := MergeIntervals(windows[doc]);
      MergedAreSpans(merged, results, n, doc);
      spans := spans[doc := merged];
      todo := todo - {doc};
    }
  }

  /** `span_for`: the span that holds `index`. */
  method SpanFor(spans: seq<Span>, index: nat) returns (span: Span)
    ensures Holds(span, index) && (Covered(spans, index) ==> span in spans)
  {
    for j := 0 to |spans|
      invariant forall l :: 0 <= l < j ==> !Holds(spans[l], index)
    {
      if Holds(spans[j], index) { return spans[j]; }
    }
    return Span(index, index);
  }

  /** Every key the windows ask for, and no other. */
  method Requested(results: seq<Hit>, n: nat) returns (need: set<Key>)
    ensures forall doc, k: nat :: Key(doc, k) in need <==> Near(results, n, doc, k)
  {
    hide Near;
    need := {};
    forall doc, k: nat ensures !Near([], n, doc, k) { NotNear(n, doc, k); }
    for i := 0 to |results|
      invariant forall doc, k: nat :: Key(doc, k) in need <==> Near(results[..i], n, doc, k)
    {
      assert results[..i + 1] == results[..i] + [results[i]];
      forall doc, k: nat ensures Near(results[..i + 1], n, doc, k) <==>
        Near(results[..i], n, doc, k) || (IsHit(results[i], doc) && Holds(WindowOf(results[i].key.value.index, n), k))
      {
        NearSnoc(results[..i], results[i], n, doc, k);
      }
      if results[i].key.Some? {
        var key := results[i].key.value;
        var w := WindowOf(key.index, n);
        need := need + set k: nat | w.start <= k <= w.end :: Key(key.doc, k);
      }
    }
    assert results[..|results|] == results;
  }

  lemma NotNear(n: int, doc: Doc, k: int)
    ensures !Near([], n, doc, k)
  {
  }

  /** Fetching only what was asked for is enough for a span. */
  lemma {:induction false} RunAsked(stored: map<Key, Chunk>, fetched: map<Key, Chunk>, doc: Doc, start: nat, end: int)
    requires forall k: nat :: start <= k <= end ==> (Key(doc, k) in fetched <==> Key(doc, k) in stored)
    requires forall key :: key in fetched ==> key in stored && fetched[key] == stored[key]
    ensures Run(fetched, doc, start, end) == Run(stored, doc, start, end)
    decreases end - start + 1
  {
    if start <= end { RunAsked(stored, fetched, doc, start + 1, end); }
  }

  /** `_build_span` */
  method BuildSpan(results: seq<Hit>, hit: nat, doc: Doc, span: Span, fetched: map<Key, Chunk>, budget: int)
    returns (o: Output)
    requires hit < |results|
    ensures o.Grown? && o.hit == hit && o.doc == doc && o.span == span
    ensures var run := Run(fetched, doc, span.start, span.end);
      && o.kept == Fit(run, HitIndexes(results, doc), budget)
      && o.text == (if run == [] then results[hit].text else Joined(o.kept))
    ensures forall i, j :: 0 <= i < j < |o.kept| ==> o.kept[i].index < o.kept[j].index
    ensures forall j :: 0 <= j < |o.kept| ==>
      var at, text := TextTotal(o.kept[..j]) + 2 * j, o.kept[j].text;
      && at + |text| <= |o.text| && o.text[at..at + |text|] == text
      && (j > 0 ==> at >= 2 && o.text[at - 2..at] == "\n\n")
      && (j == |o.kept| - 1 ==> at + |text| == |o.text|)
    ensures IsPageRange(o.kept, o.pages)
  {
    hide Run, Fit, HitIndexes, Joined, TextTotal, Size, StandsAt;
    var ordered := Run(fetched, doc, span.start, span.end);
    if ordered == [] {
      assert Fit(ordered, HitIndexes(results, doc), budget) == [] by { FitNone(ordered, HitIndexes(results, doc), budget); }
      return Grown(hit, doc, span, [], results[hit].text, None, 0);
    }
    var kept := FitBudget(ordered, HitIndexes(results, doc), budget);
    o := Grown(hit, doc, span, kept, Joined(kept), PageRange(kept), 0);
    FitAscends(ordered, HitIndexes(results, doc), budget) by { RunAscends(fetched, doc, span.start, span.end); }
    JoinedInOrder(kept);
  }

  lemma JoinedInOrder(run: seq<Piece>)
    ensures forall j :: 0 <= j < |run| ==>
      var at, text := TextTotal(run[..j]) + 2 * j, run[j].text;
      && at + |text| <= |Joined(run)| && Joined(run)[at..at + |text|] == text
      && (j > 0 ==> at >= 2 && Joined(run)[at - 2..at] == "\n\n")
      && (j == |run| - 1 ==> at + |text| == |Joined(run)|)
  {
    hide Joined, TextTotal;
    forall j | 0 <= j < |run|
      ensures var at, text := TextTotal(run[..j]) + 2 * j, run[j].text;
        && at + |text| <= |Joined(run)| && Joined(run)[at..at + |text|] == text
        && (j > 0 ==> at >= 2 && Joined(run)[at - 2..at] == "\n\n")
        && (j == |run| - 1 ==> at + |text| == |Joined(run)|)
    {
      JoinedAt(run, j);
    }
  }

  /** The state of the walk after the first `i` results. */
  ghost predicate Walked(results: seq<Hit>, n: int, budget: int, stored: map<Key, Chunk>, out: seq<Output>, i: nat)
    requires i <= |results|
  {
    && Increasing(out)
    && (forall m :: 0 <= m < |out| ==> out[m].hit < i && Faithful(results, n, budget, stored, out[m]))
    && forall j :: 0 <= j < i ==> Represented(out, results, j)
  }

  predicate Emitted(emitted: set<(Doc, Span)>, out: seq<Output>) {
    && (forall m :: 0 <= m < |out| && out[m].Grown? ==> (out[m].doc, out[m].span) in emitted)
    && forall e :: e in emitted ==> exists m :: 0 <= m < |out| && out[m].Grown? && e == (out[m].doc, out[m].span)
  }

  lemma WalkSnoc(results: seq<Hit>, n: int, budget: int, stored: map<Key, Chunk>, out: seq<Output>, i: nat, o: Output)
    requires i < |results| && Walked(results, n, budget, stored, out, i)
    requires o.hit == i && Faithful(results, n, budget, stored, o) && StandsFor(o, results, i)
    ensures Walked(results, n, budget, stored, out + [o], i + 1)
  {
    hide Faithful, StandsFor;
    var more := out + [o];
    assert more[|out|] == o;
    forall j | 0 <= j < i + 1 ensures Represented(more, results, j) {
      if j < i {
        assert Represented(out, results, j);
        var m :| 0 <= m < |out| && StandsFor(out[m], results, j);
        assert more[m] == out[m];
      }
    }
  }

  lemma WalkSkip(results: seq<Hit>, n: int, budget: int, stored: map<Key, Chunk>, out: seq<Output>, i: nat,
                 doc: Doc, span: Span, emitted: set<(Doc, Span)>)
    requires i < |results| && Walked(results, n, budget, stored, out, i) && InSpan(results[i], doc, span)
    requires Emitted(emitted, out) && (doc, span) in emitted
    ensures Walked(results, n, budget, stored, out, i + 1)
  {
    hide Faithful;
    var m :| 0 <= m < |out| && out[m].Grown? && (doc, span) == (out[m].doc, out[m].span);
    assert StandsFor(out[m], results, i);
  }

  /** Two longest runs in one document are the same or leave a gap. */
  lemma SpansApart(results: seq<Hit>, n: int, doc: Doc, a: Span, b: Span)
    requires IsSpan(results, n, doc, a) && IsSpan(results, n, doc, b)
    ensures a == b || a.end + 1 < b.start || b.end + 1 < a.start
  {
    hide Near;
    if a.start < b.start {
      assert Holds(a, b.start - 1) ==> Near(results, n, doc, b.start - 1);
    } else if b.start < a.start {
      assert Holds(b, a.start - 1) ==> Near(results, n, doc, a.start - 1);
    } else {
      assert a.end < b.end <==> a.end < b.end && Holds(b, a.end + 1);
      assert b.end < a.end <==> b.end < a.end && Holds(a, b.end + 1);
    }
  }

  lemma FirstInSpan(results: seq<Hit>, n: int, budget: int, stored: map<Key, Chunk>, out: seq<Output>, i: nat,
                    doc: Doc, span: Span, emitted: set<(Doc, Span)>)
    requires i < |results| && Walked(results, n, budget, stored, out, i)
    requires Emitted(emitted, out) && (doc, span) !in emitted && IsSpan(results, n, doc, span)
    ensures forall j :: 0 <= j < i ==> !InSpan(results[j], doc, span)
  {
    hide IsSpan;
    forall j | 0 <= j < i ensures !InSpan(results[j], doc, span) {
      assert Represented(out, results, j);
      var m :| 0 <= m < |out| && StandsFor(out[m], results, j);
      if InSpan(results[j], doc, span) && out[m].Grown? {
        SpansApart(results, n, doc, span, out[m].span);
      }
    }
  }

  lemma HitIsNear(results: seq<Hit>, n: nat, i: nat)
    requires i < |results| && results[i].key.Some?
    ensures Near(results, n, results[i].key.value.doc, results[i].key.value.index)
  {
  }

  /** `expand_spans` */
  method ExpandSpans(results: seq<Hit>, neighbors: int, budget: int, stored: map<Key, Chunk>) returns (out: seq<Output>)
    ensures neighbors <= 0 || (forall r :: r in results ==> r.key.None?) ==>
      && |out| == |results|
      && forall i :: 0 <= i < |results| ==> out[i] == Passed(i, results[i].text, results[i].rank)
    ensures neighbors > 0 && (exists r :: r in results && r.key.Some?) ==>
      && Expanded(results, neighbors, budget, stored, out)
      && (forall m :: 0 <= m < |out| ==> out[m].rank == m + 1 && out[m].hit < |results|)
      && forall l, m :: 0 <= l < m < |out| ==> out[l].hit < out[m].hit
  {
    if neighbors <= 0 || !Expandable(results) { return Untouched(results); }
    hide Expanded;
    var need := Requested(results, neighbors);
    var fetched := map key | key in need && key in stored :: stored[key];
    var windows := Windows(results, neighbors);
    var spans := Spans(windows, results, neighbors);
    out := Walk(results, neighbors, budget, stored, need, fetched, spans);
    out := Renumber(out, results, neighbors, budget, stored);
    RankedByHit(results, neighbors, budget, stored, out);
  }

  lemma RankedByHit(results: seq<Hit>, n: int, budget: int, stored: map<Key, Chunk>, out: seq<Output>)
    requires Expanded(results, n, budget, stored, out)
    ensures forall m :: 0 <= m < |out| ==> out[m].rank == m + 1 && out[m].hit < |results|
    ensures forall l, m :: 0 <= l < m < |out| ==> out[l].hit < out[m].hit
  {
    hide IsSpan, Fit, Run, HitIndexes, Joined, Represented;
    assert forall m :: 0 <= m < |out| ==> Faithful(results, n, budget, stored, out[m]);
  }

  method Walk(results: seq<Hit>, n: nat, budget: int, ghost stored: map<Key, Chunk>, ghost need: set<Key>,
              fetched: map<Key, Chunk>, spans: map<Doc, seq<Span>>) returns (out: seq<Output>)
    requires SpansTable(spans, results, n)
    requires forall i :: 0 <= i < |results| && results[i].key.Some? ==> results[i].key.value.doc in spans
    requires forall doc, k: nat :: Key(doc, k) in need <==> Near(results, n, doc, k)
    requires fetched == map key | key in need && key in stored :: stored[key]
    ensures Walked(results, n, budget, stored, out, |results|)
  {
    hide Near, Covered, IsSpan, Walked, Fit, Run, HitIndexes, Joined, Faithful;
    out := [];
    var emitted: set<(Doc, Span)> := {};
    NothingWalked(results, n, budget, stored);
    for i := 0 to |results|
      invariant Walked(results, n, budget, stored, out, i)
      invariant Emitted(emitted, out)
    {
      if results[i].key.None? {
        var o := Passed(i, results[i].text, 0);
        PassedIsFaithful(results, n, budget, stored, o);
        WalkSnoc(results, n, budget, stored, out, i, o);
        EmittedKept(emitted, out, o);
        out := out + [o];
      } else {
        var doc, index := results[i].key.value.doc, results[i].key.value.index;
        HitIsNear(results, n, i);
        var span := SpanFor(spans[doc], index);
        assert IsSpan(results, n, doc, span);
        if (doc, span) in emitted {
          WalkSkip(results, n, budget, stored, out, i, doc, span, emitted);
        } else {
          FirstInSpan(results, n, budget, stored, out, i, doc, span, emitted);
          var o := BuildSpan(results, i, doc, span, fetched, budget);
          GrownIsFaithful(results, n, budget, stored, need, fetched, o);
          WalkSnoc(results, n, budget, stored, out, i, o);
          EmittedGrows(emitted, out, o);
          emitted := emitted + {(doc, span)};
          out := out + [o];
        }
      }
    }
  }

  lemma NothingWalked(results: seq<Hit>, n: int, budget: int, stored: map<Key, Chunk>)
    ensures Walked(results, n, budget, stored, [], 0)
  {
  }

  lemma PassedIsFaithful(results: seq<Hit>, n: int, budget: int, stored: map<Key, Chunk>, o: Output)
    requires o.Passed? && o.hit < |results| && results[o.hit].key.None? && o.text == results[o.hit].text
    ensures Faithful(results, n, budget, stored, o)
  {
  }

  lemma GrownIsFaithful(results: seq<Hit>, n: int, budget: int, stored: map<Key, Chunk>, need: set<Key>,
                        fetched: map<Key, Chunk>, o: Output)
    requires forall doc, k: nat :: Key(doc, k) in need <==> Near(results, n, doc, k)
    requires fetched == map key | key in need && key in stored :: stored[key]
    requires o.Grown? && o.hit < |results| && IsSpan(results, n, o.doc, o.span) && InSpan(results[o.hit], o.doc, o.span)
    requires forall j :: 0 <= j < o.hit ==> !InSpan(results[j], o.doc, o.span)
    requires var run := Run(fetched, o.doc, o.span.start, o.span.end);
      && o.kept == Fit(run, HitIndexes(results, o.doc), budget)
      && o.text == (if run == [] then results[o.hit].text else Joined(o.kept))
    requires IsPageRange(o.kept, o.pages)
    ensures Faithful(results, n, budget, stored, o)
  {
    hide Near, Fit, Run, HitIndexes, Joined;
    assert forall k :: Holds(o.span, k) ==> Near(results, n, o.doc, k);
    assert forall k: nat :: o.span.start <= k <= o.span.end ==> Holds(o.span, k) && Key(o.doc, k) in need;
    RunAsked(stored, fetched, o.doc, o.span.start, o.span.end);
  }

  lemma EmittedKept(emitted: set<(Doc, Span)>, out: seq<Output>, o: Output)
    requires Emitted(emitted, out) && o.Passed?
    ensures Emitted(emitted, out + [o])
  {
    var more := out + [o];
    forall e | e in emitted ensures exists m :: 0 <= m < |more| && more[m].Grown? && e == (more[m].doc, more[m].span) {
      var m :| 0 <= m < |out| && out[m].Grown? && e == (out[m].doc, out[m].span);
      assert more[m] == out[m];
    }
  }

  lemma EmittedGrows(emitted: set<(Doc, Span)>, out: seq<Output>, o: Output)
    requires Emitted(emitted, out) && o.Grown?
    ensures Emitted(emitted + {(o.doc, o.span)}, out + [o])
  {
    var more := out + [o];
    assert more[|out|] == o;
    forall e | e in emitted ensures exists m :: 0 <= m < |more| && more[m].Grown? && e == (more[m].doc, more[m].span) {
      var m :| 0 <= m < |out| && out[m].Grown? && e == (out[m].doc, out[m].span);
      assert more[m] == out[m];
    }
  }

  method Renumber(out: seq<Output>, ghost results: seq<Hit>, ghost n: int, ghost budget: int, ghost stored: map<Key, Chunk>)
    returns (ranked: seq<Output>)
    requires Walked(results, n, budget, stored, out, |results|)
    ensures Expanded(results, n, budget, stored, ranked)
  {
    hide Walked, Expanded;
    ranked := [];
    for m := 0 to |out|
      invariant |ranked| == m
      invariant forall l :: 0 <= l < m ==> ranked[l] == out[l].(rank := l + 1)
    {
      ranked := ranked + [out[m].(rank := m + 1)];
    }
    RenumberedIsExpanded(out, ranked, results, n, budget, stored);
  }

  lemma RenumberedIsExpanded(out: seq<Output>, ranked: seq<Output>, results: seq<Hit>, n: int, budget: int, stored: map<Key, Chunk>)
    requires Walked(results, n, budget, stored, out, |results|)
    requires |ranked| == |out| && forall l :: 0 <= l < |out| ==> ranked[l] == out[l].(rank := l + 1)
    ensures Expanded(results, n, budget, stored, ranked)
  {
    hide IsSpan, Fit, Run, HitIndexes, Joined, InSpan;
    forall m | 0 <= m < |out| ensures Faithful(results, n, budget, stored, ranked[m]) {
      assert Faithful(results, n, budget, stored, out[m]);
    }
    forall i | 0 <= i < |results| ensures Represented(ranked, results, i) {
      assert Represented(out, results, i);
      var m :| 0 <= m < |out| && StandsFor(out[m], results, i);
      assert StandsFor(ranked[m], results, i);
    }
  }

  // ---- what an expansion gives ---------------------------------------------------------

  /** Spans of one document in different outputs leave a gap between them. */
  lemma OutputsAreApart(results: seq<Hit>, n: int, budget: int, stored: map<Key, Chunk>, out: seq<Output>, l: nat, m: nat)
    requires Expanded(results, n, budget, stored, out)
    requires l < |out| && m < |out| && l != m && out[l].Grown? && out[m].Grown? && out[l].doc == out[m].doc
    ensures out[l].span.end + 1 < out[m].span.start || out[m].span.end + 1 < out[l].span.start
  {
    hide IsSpan, Fit, Run, HitIndexes, Joined, Represented;
    assert Faithful(results, n, budget, stored, out[l]) && Faithful(results, n, budget, stored, out[m]);
    SpansApart(results, n, out[l].doc, out[l].span, out[m].span);
  }

  /** Together the spans cover every place near a hit. */
  lemma OutputsCover(results: seq<Hit>, n: int, budget: int, stored: map<Key, Chunk>, out: seq<Output>, doc: Doc, k: int)
    requires Expanded(results, n, budget, stored, out)
    ensures (exists i :: 0 <= i < |results| && results[i].key.Some? && results[i].key.value.doc == doc
                         && k >= 0 && results[i].key.value.index - n <= k <= results[i].key.value.index + n)
      <==> exists m :: 0 <= m < |out| && out[m].Grown? && out[m].doc == doc && out[m].span.start <= k <= out[m].span.end
  {
    assert Near(results, n, doc, k) <==>
      exists i :: 0 <= i < |results| && results[i].key.Some? && results[i].key.value.doc == doc
                  && k >= 0 && results[i].key.value.index - n <= k <= results[i].key.value.index + n;
    hide Fit, Run, HitIndexes, Joined;
    if m :| 0 <= m < |out| && out[m].Grown? && out[m].doc == doc && Holds(out[m].span, k) {
      assert Faithful(results, n, budget, stored, out[m]);
    }
    if Near(results, n, doc, k) {
      var i :| 0 <= i < |results| && IsHit(results[i], doc)
        && k >= 0 && results[i].key.value.index - n <= k <= results[i].key.value.index + n;
      assert Represented(out, results, i);
      var m :| 0 <= m < |out| && StandsFor(out[m], results, i);
      assert Faithful(results, n, budget, stored, out[m]);
      NearIsInSpan(results, n, doc, out[m].span, i, k);
    }
  }

  /** A span that holds a hit holds the hit's whole window. */
  lemma NearIsInSpan(results: seq<Hit>, n: int, doc: Doc, span: Span, i: nat, k: int)
    requires IsSpan(results, n, doc, span) && i < |results| && InSpan(results[i], doc, span)
    requires k >= 0 && results[i].key.value.index - n <= k <= results[i].key.value.index + n
    ensures Holds(span, k)
  {
    var index := results[i].key.value.index;
    assert k > span.end ==> Near(results, n, doc, span.end + 1);
    assert k < span.start ==> Near(results, n, doc, span.start - 1);
  }

  lemma {:induction false} RunHolds(stored: map<Key, Chunk>, doc: Doc, start: nat, end: int)
    ensures forall p :: p in Run(stored, doc, start, end) <==>
      start <= p.index <= end && Key(doc, p.index) in stored && p == PieceOf(p.index, stored[Key(doc, p.index)])
    decreases end - start + 1
  {
    if start <= end { RunHolds(stored, doc, start + 1, end); }
  }

  lemma {:induction false} RunAscends(stored: map<Key, Chunk>, doc: Doc, start: nat, end: int)
    ensures InOrder(Run(stored, doc, start, end))
    decreases end - start + 1
  {
    if start <= end {
      hide Run;
      RunAscends(stored, doc, start + 1, end);
      RunHolds(stored, doc, start + 1, end);
      RunStep(stored, doc, start, end);
    }
  }

  lemma RunStep(stored: map<Key, Chunk>, doc: Doc, start: nat, end: int)
    requires start <= end
    ensures var rest := Run(stored, doc, start + 1, end);
      Run(stored, doc, start, end) ==
        if Key(doc, start) in stored then [PieceOf(start, stored[Key(doc, start)])] + rest else rest
  {
  }

  predicate InOrder(run: seq<Piece>) {
    forall i, j :: 0 <= i < j < |run| ==> run[i].index < run[j].index
  }

  lemma FitHolds(run: seq<Piece>, hits: set<nat>, budget: int)
    ensures forall p :: p in Fit(run, hits, budget) ==> p in run
    ensures forall p :: p in run && p.index in hits ==> p in Fit(run, hits, budget)
  {
    hide Fit, Settled, Needed;
    FitTrims(run, hits, budget);
    var lo: nat, hi: nat :| Trimmed(run, hits, budget, lo, hi);
    forall p | p in run && p.index in hits ensures p in Fit(run, hits, budget) {
      var j :| 0 <= j < |run| && run[j] == p;
      assert p == run[lo..hi][j - lo];
    }
  }

  /** No stored chunk is used by two outputs. */
  lemma NoChunkTwice(results: seq<Hit>, n: int, budget: int, stored: map<Key, Chunk>, out: seq<Output>,
                     l: nat, m: nat, p: Piece, q: Piece)
    requires Expanded(results, n, budget, stored, out)
    requires l < |out| && m < |out| && l != m && out[l].Grown? && out[m].Grown? && out[l].doc == out[m].doc
    requires p in out[l].kept && q in out[m].kept
    ensures p.index != q.index
  {
    OutputsAreApart(results, n, budget, stored, out, l, m);
    KeptIsInSpan(results, n, budget, stored, out[l]);
    KeptIsInSpan(results, n, budget, stored, out[m]);
  }

  lemma KeptIsInSpan(results: seq<Hit>, n: int, budget: int, stored: map<Key, Chunk>, o: Output)
    requires Faithful(results, n, budget, stored, o) && o.Grown?
    ensures forall p :: p in o.kept ==>
      Holds(o.span, p.index) && Key(o.doc, p.index) in stored && p == PieceOf(p.index, stored[Key(o.doc, p.index)])
  {
    hide IsSpan, Fit, Run, HitIndexes, Joined;
    var run := Run(stored, o.doc, o.span.start, o.span.end);
    FitHolds(run, HitIndexes(results, o.doc), budget);
    RunHolds(stored, o.doc, o.span.start, o.span.end);
  }

  /** The text shown holds the texts of the kept chunks whole, each as it is stored, in the order of
      their indexes and with exactly one blank line between. */
  lemma TextIsInOrder(results: seq<Hit>, n: int, budget: int, stored: map<Key, Chunk>, o: Output, j: nat)
    requires Faithful(results, n, budget, stored, o) && o.Grown? && j < |o.kept|
    ensures forall l :: 0 <= l < j ==> o.kept[l].index < o.kept[j].index
    ensures Key(o.doc, o.kept[j].index) in stored && o.kept[j].text == stored[Key(o.doc, o.kept[j].index)].text
    ensures var at, text := TextTotal(o.kept[..j]) + 2 * j, o.kept[j].text;
      && at + |text| <= |o.text| && o.text[at..at + |text|] == text
      && (j > 0 ==> at >= 2 && o.text[at - 2..at] == "\n\n")
      && (j == 0 ==> at == 0) && (j == |o.kept| - 1 ==> at + |text| == |o.text|)
  {
    hide IsSpan, Fit, Run, HitIndexes, Joined, TextTotal, Settled, Needed;
    var run, hits := Run(stored, o.doc, o.span.start, o.span.end), HitIndexes(results, o.doc);
    FitAscends(run, hits, budget) by { RunAscends(stored, o.doc, o.span.start, o.span.end); }
    assert o.kept[j] in o.kept;
    KeptIsInSpan(results, n, budget, stored, o);
    JoinedAt(o.kept, j);
  }

  lemma FitAscends(run: seq<Piece>, hits: set<nat>, budget: int)
    requires InOrder(run)
    ensures InOrder(Fit(run, hits, budget)) && (Fit(run, hits, budget) != [] ==> run != [])
  {
    hide Fit, Settled, Needed;
    FitTrims(run, hits, budget);
  }

  /** A result that cannot be expanded passes through, once, with its own text. */
  lemma PassesOnce(results: seq<Hit>, n: int, budget: int, stored: map<Key, Chunk>, out: seq<Output>, i: nat)
    requires Expanded(results, n, budget, stored, out) && i < |results| && results[i].key.None?
    ensures exists m :: 0 <= m < |out| && out[m] == Passed(i, results[i].text, m + 1)
                        && forall l :: 0 <= l < |out| && l != m ==> out[l].hit != i
  {
    hide IsSpan, Fit, Run, HitIndexes, Joined;
    assert Represented(out, results, i);
    var m :| 0 <= m < |out| && StandsFor(out[m], results, i);
    assert Faithful(results, n, budget, stored, out[m]);
    assert out[m] == Passed(i, results[i].text, m + 1);
  }

  /** What is kept is unbroken: a stored chunk between two kept ones is kept too. */
  lemma KeptIsUnbroken(results: seq<Hit>, n: int, budget: int, stored: map<Key, Chunk>, o: Output, i: nat, k: nat, j: nat)
    requires Faithful(results, n, budget, stored, o) && o.Grown? && i < |o.kept| && j < |o.kept|
    requires o.kept[i].index <= k <= o.kept[j].index && Key(o.doc, k) in stored
    ensures PieceOf(k, stored[Key(o.doc, k)]) in o.kept
  {
    hide IsSpan, Fit, Run, HitIndexes, Joined, Settled, Needed;
    var run, hits := Run(stored, o.doc, o.span.start, o.span.end), HitIndexes(results, o.doc);
    FitTrims(run, hits, budget);
    var lo: nat, hi: nat :| Trimmed(run, hits, budget, lo, hi);
    RunAscends(stored, o.doc, o.span.start, o.span.end);
    var p := PieceOf(k, stored[Key(o.doc, k)]);
    InRun(results, n, budget, stored, o, i, p, j);
    BetweenKept(run, lo, hi, i, p, j);
  }

  lemma InRun(results: seq<Hit>, n: int, budget: int, stored: map<Key, Chunk>, o: Output, i: nat, p: Piece, j: nat)
    requires Faithful(results, n, budget, stored, o) && o.Grown? && i < |o.kept| && j < |o.kept|
    requires o.kept[i].index <= p.index <= o.kept[j].index
    requires Key(o.doc, p.index) in stored && p == PieceOf(p.index, stored[Key(o.doc, p.index)])
    ensures p in Run(stored, o.doc, o.span.start, o.span.end)
  {
    hide IsSpan, Fit, Run, HitIndexes, Joined, Settled, Needed;
    RunHolds(stored, o.doc, o.span.start, o.span.end);
    KeptIsInSpan(results, n, budget, stored, o);
    assert o.kept[i] in o.kept && o.kept[j] in o.kept;
  }

  lemma BetweenKept(run: seq<Piece>, lo: nat, hi: nat, i: nat, p: Piece, j: nat)
    requires InOrder(run) && lo <= hi <= |run| && lo + i < hi && lo + j < hi && p in run
    requires run[lo..hi][i].index <= p.index <= run[lo..hi][j].index
    ensures p in run[lo..hi]
  {
    Between(run, lo + i, p, lo + j);
    var m :| lo + i <= m <= lo + j && run[m] == p;
    assert run[lo..hi][m - lo] == p;
  }

  lemma Between(run: seq<Piece>, i: nat, p: Piece, j: nat)
    requires InOrder(run) && i < |run| && j < |run| && p in run && run[i].index <= p.index <= run[j].index
    ensures exists m :: i <= m <= j && run[m] == p
  {
    var m :| 0 <= m < |run| && run[m] == p;
    if m < i || j < m { assert false; }
  }

  /** The text of every stored hit is in one output, its span's, and in no other. */
  lemma HitTextIsKeptOnce(results: seq<Hit>, n: int, budget: int, stored: map<Key, Chunk>, out: seq<Output>, i: nat)
    requires Expanded(results, n, budget, stored, out)
    requires i < |results| && results[i].key.Some? && results[i].key.value in stored
    ensures exists m :: 0 <= m < |out| && out[m].hit <= i && OnlyKeeper(out, m, results[i].key.value, stored)
  {
    hide IsSpan, Fit, Run, HitIndexes, Joined;
    var key := results[i].key.value;
    assert Represented(out, results, i);
    var m :| 0 <= m < |out| && StandsFor(out[m], results, i);
    var o := out[m];
    assert Faithful(results, n, budget, stored, o);
    var p := PieceOf(key.index, stored[key]);
    var run := Run(stored, o.doc, o.span.start, o.span.end);
    RunHolds(stored, o.doc, o.span.start, o.span.end);
    FitHolds(run, HitIndexes(results, o.doc), budget);
    HitIndexHolds(results, i);
    assert p in o.kept;
    var j :| 0 <= j < |o.kept| && o.kept[j] == p;
    JoinedHolds(o.kept, j);
    assert KeepsHit(o, key, stored);
    forall l | 0 <= l < |out| && l != m ensures !KeepsHit(out[l], key, stored) {
      if KeepsHit(out[l], key, stored) { NoChunkTwice(results, n, budget, stored, out, l, m, p, p); }
    }
    assert OnlyKeeper(out, m, key, stored);
  }

  lemma HitIndexMeans(results: seq<Hit>, doc: Doc, index: nat)
    ensures index in HitIndexes(results, doc) <==> exists i :: 0 <= i < |results| && results[i].key == Some(Key(doc, index))
  {
    if i :| 0 <= i < |results| && results[i].key == Some(Key(doc, index)) { HitIndexHolds(results, i); }
    if index in HitIndexes(results, doc) {
      var i :| 0 <= i < |results| && IsHit(results[i], doc) && results[i].key.value.index == index;
      assert results[i].key == Some(Key(doc, index));
    }
  }

  lemma HitIndexHolds(results: seq<Hit>, i: nat)
    requires i < |results| && results[i].key.Some?
    ensures results[i].key.value.index in HitIndexes(results, results[i].key.value.doc)
  {
    assert IsHit(results[i], results[i].key.value.doc);
  }

  ghost predicate KeepsHit(o: Output, key: Key, stored: map<Key, Chunk>)
    requires key in stored
  {
    o.Grown? && o.doc == key.doc && PieceOf(key.index, stored[key]) in o.kept && IsPart(stored[key].text, o.text)
  }

  ghost predicate OnlyKeeper(out: seq<Output>, m: nat, key: Key, stored: map<Key, Chunk>)
    requires key in stored && m < |out|
  {
    forall l :: 0 <= l < |out| ==> (KeepsHit(out[l], key, stored) <==> l == m)
  }

  /** The assembled text fits the budget, or is a single chunk, or has a hit at both ends. */
  lemma BudgetIsMet(results: seq<Hit>, n: int, budget: int, stored: map<Key, Chunk>, o: Output)
    requires Faithful(results, n, budget, stored, o) && o.Grown?
    ensures || o.kept == [] || |o.text| <= budget || |o.kept| == 1
            || (&& (exists i :: 0 <= i < |results| && results[i].key == Some(Key(o.doc, o.kept[0].index)))
                && exists i :: 0 <= i < |results| && results[i].key == Some(Key(o.doc, o.kept[|o.kept| - 1].index)))
    ensures o.kept == [] ==> o.text == results[o.hit].text
  {
    hide IsSpan, Fit, Run, HitIndexes, Joined, Size;
    var run := Run(stored, o.doc, o.span.start, o.span.end);
    FitTrims(run, HitIndexes(results, o.doc), budget);
    FitNone(run, HitIndexes(results, o.doc), budget);
    if o.kept != [] {
      SizeIsExact(o.kept);
      HitIndexMeans(results, o.doc, o.kept[0].index);
      HitIndexMeans(results, o.doc, o.kept[|o.kept| - 1].index);
    }
  }

  lemma {:induction false} FitNone(run: seq<Piece>, hits: set<nat>, budget: int)
    ensures Fit(run, hits, budget) == [] <==> run == []
    decreases |run|
  {
    if !Settled(run, hits, budget) {
      FitNone(if LeftGoes(run, hits) then run[1..] else run[..|run| - 1], hits, budget);
    }
  }

  predicate HasHit(out: seq<Output>, hit: nat) {
    exists m :: 0 <= m < |out| && out[m].hit == hit
  }

  lemma {:induction false} SameIncreasing(a: seq<Output>, b: seq<Output>, m: nat)
    requires Increasing(a) && Increasing(b) && m < |a|
    requires forall h :: HasHit(a, h) <==> HasHit(b, h)
    ensures m < |b| && a[m].hit == b[m].hit
  {
    hide HasHit;
    forall l | 0 <= l < m ensures l < |b| && a[l].hit == b[l].hit { SameIncreasing(a, b, l); }
    var j := PlaceOf(a, b, m);
    if j > m {
      var i := PlaceOf(b, a, m);
      assert a[i].hit < a[m].hit;
    }
  }

  lemma PlaceOf(a: seq<Output>, b: seq<Output>, m: nat) returns (j: nat)
    requires m < |a| && forall h :: HasHit(a, h) <==> HasHit(b, h)
    ensures j < |b| && b[j].hit == a[m].hit
  {
    assert HasHit(a, a[m].hit);
    j :| 0 <= j < |b| && b[j].hit == a[m].hit;
  }

  lemma SameHits(results: seq<Hit>, n: int, budget: int, stored: map<Key, Chunk>, a: seq<Output>, b: seq<Output>, m: nat)
    requires Expanded(results, n, budget, stored, a) && Expanded(results, n, budget, stored, b) && m < |a|
    ensures exists l :: 0 <= l < |b| && SameButRank(a[m], b[l])
  {
    hide IsSpan, Fit, Run, HitIndexes, Joined;
    var i := a[m].hit;
    assert Faithful(results, n, budget, stored, a[m]);
    assert Represented(b, results, i);
    var l :| 0 <= l < |b| && StandsFor(b[l], results, i);
    assert Faithful(results, n, budget, stored, b[l]);
    if a[m].Grown? {
      SpansApart(results, n, a[m].doc, a[m].span, b[l].span);
      OnePageRange(a[m].kept, a[m].pages, b[l].pages);
    }
    assert SameButRank(a[m], b[l]);
  }

  predicate SameButRank(a: Output, b: Output) {
    a == b.(rank := a.rank)
  }

  /** An expansion is determined by its inputs: the specification leaves the code no choice. */
  lemma ExpansionIsUnique(results: seq<Hit>, n: int, budget: int, stored: map<Key, Chunk>, a: seq<Output>, b: seq<Output>)
    requires Expanded(results, n, budget, stored, a) && Expanded(results, n, budget, stored, b)
    ensures a == b
  {
    hide Faithful, Represented, HasHit, SameButRank;
    forall h ensures HasHit(a, h) <==> HasHit(b, h) {
      if HasHit(a, h) { HitShared(results, n, budget, stored, a, b, h); }
      if HasHit(b, h) { HitShared(results, n, budget, stored, b, a, h); }
    }
    SameLength(a, b);
    forall m | 0 <= m < |a| ensures a[m] == b[m] {
      SameIncreasing(a, b, m);
      SameHits(results, n, budget, stored, a, b, m);
      SamePlace(a, b, m);
    }
  }

  lemma HitShared(results: seq<Hit>, n: int, budget: int, stored: map<Key, Chunk>, a: seq<Output>, b: seq<Output>, h: nat)
    requires Expanded(results, n, budget, stored, a) && Expanded(results, n, budget, stored, b) && HasHit(a, h)
    ensures HasHit(b, h)
  {
    hide Faithful, Represented;
    var m :| 0 <= m < |a| && a[m].hit == h;
    SameHits(results, n, budget, stored, a, b, m);
    var l :| 0 <= l < |b| && SameButRank(a[m], b[l]);
    assert b[l].hit == h;
  }

  lemma SameLength(a: seq<Output>, b: seq<Output>)
    requires Increasing(a) && Increasing(b)
    requires forall h :: HasHit(a, h) <==> HasHit(b, h)
    ensures |a| == |b|
  {
    hide HasHit;
    if a != [] { SameIncreasing(a, b, |a| - 1); }
    if b != [] { SameIncreasing(b, a, |b| - 1); }
  }

  lemma SamePlace(a: seq<Output>, b: seq<Output>, m: nat)
    requires Increasing(b) && m < |a| && m < |b| && a[m].hit == b[m].hit && a[m].rank == b[m].rank
    requires exists l :: 0 <= l < |b| && SameButRank(a[m], b[l])
    ensures a[m] == b[m]
  {
    var l :| 0 <= l < |b| && SameButRank(a[m], b[l]);
    assert b[l].hit == b[m].hit;
  }
}
