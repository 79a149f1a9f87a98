/** How parsers cut text: overlapping token windows, greedy packing of paragraphs, and the running
    stack of headings that tags every page. */
module Chunking {
  import opened Ids

  // ---- sliding windows -----------------------------------------------------------------

  /** Every window without the tokens the next one repeats, and the last window whole. */
  function Reassembled<T>(windows: seq<seq<T>>, overlap: nat): seq<T> {
    if windows == [] then []
    else if |windows| == 1 || |windows[0]| < overlap then windows[0]
    else windows[0][..|windows[0]| - overlap] + Reassembled(windows[1..], overlap)
  }

  function TokenTotal<T>(windows: seq<seq<T>>): nat {
    if windows == [] then 0 else |windows[0]| + TokenTotal(windows[1..])
  }

  /** `b` begins with the last `overlap` tokens of `a`, and goes on. */
  predicate Shares<T(==)>(a: seq<T>, b: seq<T>, overlap: nat) {
    overlap < |a| && overlap < |b| && b[..overlap] == a[|a| - overlap..]
  }

  /** Where Python's `tokens[start : start + max]` ends among `n` tokens; a negative end counts back
      from the last token. */
  function Reach(start: nat, max: int, n: nat): nat {
    var stop := start + max;
    if stop >= n then n else if stop >= 0 then stop else if n + stop >= 0 then n + stop else 0
  }

  function Window<T>(tokens: seq<T>, max: int, start: nat): seq<T> {
    var end := Reach(start, max, |tokens|);
    if start < end then tokens[start..end] else []
  }

  /** The windows from `start` on, up to the first empty one. */
  function Cuts<T>(tokens: seq<T>, max: int, step: nat, start: nat): seq<seq<T>>
    requires step > 0
    decreases |tokens| - start
  {
    if start >= |tokens| || |Window(tokens, max, start)| == 0 then []
    else
      [Window(tokens, max, start)]
      + if start + max >= |tokens| then [] else Cuts(tokens, max, step, start + step)
  }

  lemma CutsNext<T>(tokens: seq<T>, max: int, step: nat, start: nat)
    requires step > 0 && start < |tokens|
    ensures var w := Window(tokens, max, start);
      Cuts(tokens, max, step, start) ==
        if |w| == 0 then []
        else [w] + if start + max >= |tokens| then [] else Cuts(tokens, max, step, start + step)
  {
  }

  lemma CutsStep<T>(tokens: seq<T>, max: nat, step: nat, start: nat)
    requires step > 0 && start < |tokens| && max > 0
    ensures var ws := Cuts(tokens, max, step, start);
      && ws != [] && ws[0] == tokens[start..Reach(start, max, |tokens|)]
      && ws[1..] == if start + max >= |tokens| then [] else Cuts(tokens, max, step, start + step)
  {
  }

  lemma CutsEnd<T>(tokens: seq<T>, max: int, step: nat, start: nat)
    requires step > 0 && start >= |tokens|
    ensures Cuts(tokens, max, step, start) == []
  {
  }

  /** The windows as text, without those that come out empty. */
  function Texts<T>(windows: seq<seq<T>>, render: seq<T> -> string): seq<string> {
    if windows == [] then []
    else (if render(windows[0]) == "" then [] else [render(windows[0])]) + Texts(windows[1..], render)
  }

  lemma {:induction false} TextsSnoc<T>(windows: seq<seq<T>>, w: seq<T>, render: seq<T> -> string)
    ensures Texts(windows + [w], render) == Texts(windows, render) + if render(w) == "" then [] else [render(w)]
  {
    if windows == [] {
      assert [w][1..] == [];
    } else {
      assert (windows + [w])[1..] == windows[1..] + [w];
      TextsSnoc(windows[1..], w, render);
    }
  }

  /** `texts` are what the windows at `at` render to: exactly those that render to something. */
  predicate TextsAt<T>(windows: seq<seq<T>>, render: seq<T> -> string, at: seq<nat>, texts: seq<string>) {
    && Ascending(at) && |at| == |texts|
    && (forall k :: 0 <= k < |at| ==> at[k] < |windows| && texts[k] == render(windows[at[k]]))
    && forall i :: 0 <= i < |windows| ==> (i in at <==> render(windows[i]) != "")
  }

  lemma {:induction false} TextsMean<T>(windows: seq<seq<T>>, render: seq<T> -> string) returns (at: seq<nat>)
    ensures TextsAt(windows, render, at, Texts(windows, render))
    decreases |windows|
  {
    if windows == [] { return []; }
    hide TextsAt;
    var init, last := windows[..|windows| - 1], windows[|windows| - 1];
    assert windows == init + [last];
    var rest := TextsMean(init, render);
    TextsSnoc(init, last, render);
    TextsAtSnoc(init, last, render, rest, Texts(init, render));
    at := if render(last) == "" then rest else rest + [|init|];
    assert render(last) == "" ==> Texts(init, render) + [] == Texts(init, render);
  }

  lemma TextsAtSnoc<T>(windows: seq<seq<T>>, w: seq<T>, render: seq<T> -> string, at: seq<nat>, texts: seq<string>)
    requires TextsAt(windows, render, at, texts)
    ensures if render(w) == "" then TextsAt(windows + [w], render, at, texts)
            else TextsAt(windows + [w], render, at + [|windows|], texts + [render(w)])
  {
    var more := at + [|windows|];
    assert |windows| !in at;
    assert forall i :: 0 <= i < |windows| ==> (i in more <==> i in at);
    assert more[|at|] == |windows|;
  }

  /** `sliding_window`; `None` is the refused overlap. `tokens` is the encoding of the text, `decode`
      turns tokens back into text and `strip` trims white space. */
  method SlidingWindow<T(==)>(text: string, tokens: seq<T>, decode: seq<T> -> string, strip: string -> string,
                              max: int, overlap: int) returns (r: Option<seq<string>>)
    ensures r.None? <==> text != "" && strip(text) != "" && overlap >= max
    ensures r.Some? ==>
      r.value == (if text == "" || strip(text) == "" then []
                  else if |tokens| <= max then [text]
                  else Texts(Cuts(tokens, max, max - overlap, 0), (w: seq<T>) => strip(decode(w))))
  {
    if text == "" || strip(text) == "" { return Some([]); }
    if overlap >= max { return None; }
    if |tokens| <= max { return Some([text]); }
    var windows := TokenWindows(tokens, max, overlap);
    var render := (w: seq<T>) => strip(decode(w));
    var texts: seq<string> := [];
    for i := 0 to |windows|
      invariant texts == Texts(windows[..i], render)
    {
      assert windows[..i + 1] == windows[..i] + [windows[i]];
      TextsSnoc(windows[..i], windows[i], render);
      if render(windows[i]) != "" { texts := texts + [render(windows[i])]; }
    }
    assert windows[..|windows|] == windows;
    r := Some(texts);
  }

  /** The window loop. */
  method TokenWindows<T(==)>(tokens: seq<T>, max: int, overlap: int) returns (windows: seq<seq<T>>)
    requires overlap < max
    ensures windows == Cuts(tokens, max, max - overlap, 0)
  {
    hide Cuts, Window;
    var step := max - overlap;
    windows := [];
    var start := 0;
    assert windows + Cuts(tokens, max, step, 0) == Cuts(tokens, max, step, 0);
    while start < |tokens|
      invariant 0 <= start
      invariant windows + Cuts(tokens, max, step, start) == Cuts(tokens, max, step, 0)
      decreases |tokens| - start
    {
      var window := Window(tokens, max, start);
      CutsNext(tokens, max, step, start);
      if |window| == 0 {
        assert windows + [] == windows;
        return;
      }
      ghost var rest := if start + max >= |tokens| then [] else Cuts(tokens, max, step, start + step);
      assert windows + ([window] + rest) == windows + [window] + rest;
      windows := windows + [window];
      if start + max >= |tokens| {
        assert windows + [] == windows;
        return;
      }
      start := start + step;
    }
    CutsEnd(tokens, max, step, start);
    assert windows + [] == windows;
  }

  /** Every window but the last is full and shares exactly the overlap with the next. */
  predicate Chained<T(==)>(windows: seq<seq<T>>, max: nat, overlap: nat) {
    && (forall w :: w in windows ==> |w| <= max)
    && (|windows| > 1 ==>
          |windows[0]| == max && Shares(windows[0], windows[1], overlap) && Chained(windows[1..], max, overlap))
  }

  /** With an overlap that is not negative the windows reassemble to the text. */
  lemma {:induction false} WindowsReassemble<T>(tokens: seq<T>, max: nat, overlap: nat, start: nat)
    requires overlap < max && start < |tokens|
    ensures Reassembled(Cuts(tokens, max, max - overlap, start), overlap) == tokens[start..]
    decreases |tokens| - start
  {
    hide Cuts;
    var step := max - overlap;
    CutsStep(tokens, max, step, start);
    if start + max < |tokens| {
      WindowsReassemble(tokens, max, overlap, start + step);
      CutsStep(tokens, max, step, start + step);
      assert tokens[start..start + max][..step] + tokens[start + step..] == tokens[start..];
    }
  }

  lemma {:induction false} WindowsChain<T>(tokens: seq<T>, max: nat, overlap: nat, start: nat)
    requires overlap < max && start < |tokens|
    ensures Chained(Cuts(tokens, max, max - overlap, start), max, overlap)
    decreases |tokens| - start
  {
    hide Cuts;
    var step := max - overlap;
    var ws := Cuts(tokens, max, step, start);
    CutsStep(tokens, max, step, start);
    assert ws == [ws[0]] + ws[1..];
    if start + max < |tokens| {
      WindowsChain(tokens, max, overlap, start + step);
      CutsStep(tokens, max, step, start + step);
      NextShares(tokens, max, overlap, start);
    }
  }

  /** The window after a full one begins with its last `overlap` tokens. */
  lemma NextShares<T>(tokens: seq<T>, max: nat, overlap: nat, start: nat)
    requires overlap < max && start + max < |tokens|
    ensures var next := start + max - overlap;
      Shares(tokens[start..start + max], tokens[next..Reach(next, max, |tokens|)], overlap)
  {
    var next := start + max - overlap;
    Slice(tokens, next, Reach(next, max, |tokens|), 0, overlap);
    Slice(tokens, start, start + max, max - overlap, max);
  }

  lemma Slice<T>(tokens: seq<T>, lo: nat, hi: nat, i: nat, j: nat)
    requires lo <= hi <= |tokens| && i <= j <= hi - lo
    ensures tokens[lo..hi][i..j] == tokens[lo + i..lo + j]
  {
    var a, b := tokens[lo..hi][i..j], tokens[lo + i..lo + j];
    assert |a| == |b| && forall k :: 0 <= k < |a| ==> a[k] == b[k];
  }

  lemma {:induction false} WindowsHold<T>(tokens: seq<T>, max: nat, step: nat, start: nat)
    requires 0 < step && start < |tokens|
    ensures step <= max ==> TokenTotal(Cuts(tokens, max, step, start)) >= |tokens| - start
    ensures step > max ==> TokenTotal(Cuts(tokens, max, step, start)) <= |tokens| - start
    ensures step > max && start + max < |tokens| ==> TokenTotal(Cuts(tokens, max, step, start)) < |tokens| - start
    decreases |tokens| - start
  {
    var ws := Cuts(tokens, max, step, start);
    var w := tokens[start..Reach(start, max, |tokens|)];
    if max == 0 {
      assert ws == [];
    } else if start + max >= |tokens| {
      assert ws == [w] && ws[1..] == [];
    } else {
      var rest := Cuts(tokens, max, step, start + step);
      assert ws == [w] + rest && ws[1..] == rest;
      if start + step < |tokens| { WindowsHold(tokens, max, step, start + step); }
    }
  }

  /** Nothing refuses a negative overlap, and with one, text longer than a window always loses tokens:
      the windows hold enough tokens exactly when the overlap is not negative. */
  lemma TokensAreLost<T>(tokens: seq<T>, max: nat, overlap: int)
    requires 0 < max < |tokens| && overlap < max
    ensures TokenTotal(Cuts(tokens, max, max - overlap, 0)) >= |tokens| <==> overlap >= 0
  {
    WindowsHold(tokens, max, max - overlap, 0);
  }

  /** Token `p` is in some window from `start` on, of a text of `n` tokens. */
  predicate InWindow(n: nat, max: int, step: nat, start: nat, p: nat)
    requires step > 0
    decreases n - start
  {
    && start < n && start < Reach(start, max, n)
    && (start <= p < Reach(start, max, n) || (start + max < n && InWindow(n, max, step, start + step, p)))
  }

  /** The windows are the slices `InWindow` speaks of. */
  lemma {:induction false} CutsHold<T(!new)>(tokens: seq<T>, max: int, step: nat, start: nat, p: nat)
    requires step > 0 && InWindow(|tokens|, max, step, start, p)
    ensures p < |tokens| && exists w :: w in Cuts(tokens, max, step, start) && tokens[p] in w
    decreases |tokens| - start
  {
    var w, end := Window(tokens, max, start), Reach(start, max, |tokens|);
    var ws := Cuts(tokens, max, step, start);
    assert w == ws[0];
    if start <= p < end {
      assert w[p - start] == tokens[p];
      assert w in ws;
    } else {
      CutsHold(tokens, max, step, start + step, p);
      var x :| x in Cuts(tokens, max, step, start + step) && tokens[p] in x;
      assert ws == [w] + Cuts(tokens, max, step, start + step);
      assert x in ws;
    }
  }

  lemma {:induction false} KeptFrom(n: nat, max: nat, step: nat, start: nat, p: nat)
    requires 0 < step <= max && start <= p < n
    ensures InWindow(n, max, step, start, p)
    decreases n - start
  {
    if p >= Reach(start, max, n) { KeptFrom(n, max, step, start + step, p); }
  }

  lemma {:induction false} NeverBefore(n: nat, max: int, step: nat, start: nat, p: nat)
    requires step > 0 && p < start
    ensures !InWindow(n, max, step, start, p)
    decreases n - start
  {
    if start < n { NeverBefore(n, max, step, start + step, p); }
  }

  lemma {:induction false} LastIsLost(n: nat, max: int, step: nat, start: nat)
    requires step > 0 && max <= 0 && n > 0
    ensures !InWindow(n, max, step, start, n - 1)
    decreases n - start
  {
    if start < n { LastIsLost(n, max, step, start + step); }
  }

  predicate Kept(n: nat, max: int, overlap: int, p: nat)
    requires overlap < max
  {
    InWindow(n, max, max - overlap, 0, p)
  }

  /** Whatever the window size, positive or not: for text longer than that, every token is in some
      window if and only if the overlap is not negative. */
  lemma EveryTokenIsKept(n: nat, max: int, overlap: int)
    requires max < n && overlap < max && n > 0
    ensures (forall p: nat :: p < n ==> Kept(n, max, overlap, p)) <==> overlap >= 0
  {
    if overlap >= 0 {
      forall p: nat | p < n ensures Kept(n, max, overlap, p) { KeptFrom(n, max, max - overlap, 0, p); }
    } else if max > 0 {
      NeverBefore(n, max, max - overlap, max - overlap, max);
      assert !Kept(n, max, overlap, max);
    } else {
      LastIsLost(n, max, max - overlap, 0);
      assert !Kept(n, max, overlap, n - 1);
    }
  }

  // ---- packing paragraphs --------------------------------------------------------------

  /** A paragraph and its token count. */
  datatype Para = Para(text: string, tokens: nat)

  datatype Segment = Packed(paras: seq<Para>) | Windowed(para: Para)

  function Sum(paras: seq<Para>): nat {
    if paras == [] then 0 else Sum(paras[..|paras| - 1]) + paras[|paras| - 1].tokens
  }

  /** What may be put in one segment: at least one paragraph, within the cap unless it is alone. */
  predicate Fits(paras: seq<Para>, max: nat) {
    paras != [] && (Sum(paras) <= max || |paras| == 1)
  }

  function Flat(groups: seq<seq<Para>>): seq<Para> {
    if groups == [] then [] else groups[0] + Flat(groups[1..])
  }

  /** How many paragraphs fit in a first segment that already holds the first `n`. */
  function FirstLen(paras: seq<Para>, max: nat, n: nat): (f: nat)
    requires 1 <= n <= |paras|
    ensures n <= f <= |paras|
    decreases |paras| - n
  {
    if n < |paras| && Sum(paras[..n + 1]) <= max then FirstLen(paras, max, n + 1) else n
  }

  /** Fill each segment as far as it goes. */
  function Greedy(paras: seq<Para>, max: nat): seq<seq<Para>>
    decreases |paras|
  {
    if paras == [] then []
    else var f := FirstLen(paras, max, 1); [paras[..f]] + Greedy(paras[f..], max)
  }

  function Group(s: Segment): seq<Para> {
    match s
    case Packed(paras) => paras
    case Windowed(para) => [para]
  }

  function Groups(segments: seq<Segment>): seq<seq<Para>> {
    seq(|segments|, i requires 0 <= i < |segments| => Group(segments[i]))
  }

  lemma {:induction false} SumMonotone(paras: seq<Para>, i: nat, j: nat)
    requires i <= j <= |paras|
    ensures Sum(paras[..i]) <= Sum(paras[..j])
  {
    if i < j {
      assert paras[..j][..j - 1] == paras[..j - 1];
      SumMonotone(paras, i, j - 1);
    }
  }

  lemma {:induction false} FirstLenIs(paras: seq<Para>, max: nat, n: nat, f: nat)
    requires 1 <= n <= f <= |paras| && (n < f ==> Sum(paras[..f]) <= max)
    requires f < |paras| ==> Sum(paras[..f + 1]) > max
    ensures FirstLen(paras, max, n) == f
    decreases f - n
  {
    if n < f {
      SumMonotone(paras, n + 1, f);
      FirstLenIs(paras, max, n + 1, f);
    }
  }

  lemma {:induction false} FirstLenFits(paras: seq<Para>, max: nat, n: nat)
    requires 1 <= n <= |paras| && (n == 1 || Sum(paras[..n]) <= max)
    ensures var f := FirstLen(paras, max, n); f == 1 || Sum(paras[..f]) <= max
    decreases |paras| - n
  {
    if n < |paras| && Sum(paras[..n + 1]) <= max { FirstLenFits(paras, max, n + 1); }
  }

  /** Greedy segments keep every paragraph, in order, and each may be a segment. */
  lemma {:induction false} GreedyIsValid(paras: seq<Para>, max: nat)
    ensures Flat(Greedy(paras, max)) == paras
    ensures forall g :: g in Greedy(paras, max) ==> Fits(g, max)
    decreases |paras|
  {
    if paras != [] {
      var f := FirstLen(paras, max, 1);
      FirstLenFits(paras, max, 1);
      GreedyIsValid(paras[f..], max);
      assert paras[..f] + paras[f..] == paras;
    }
  }

  lemma {:induction false} SumSplit(a: seq<Para>, b: seq<Para>)
    ensures Sum(a + b) == Sum(a) + Sum(b)
  {
    if b == [] {
      assert a + b == a;
    } else {
      assert (a + b)[..|a + b| - 1] == a + b[..|b| - 1];
      SumSplit(a, b[..|b| - 1]);
    }
  }

  /** What does not reach past the greedy first segment may be at most as long as it. */
  lemma {:induction false} FirstLenIsMost(paras: seq<Para>, max: nat, n: nat, a: nat)
    requires 1 <= n <= |paras| && 1 <= a <= |paras| && Fits(paras[..a], max)
    ensures a <= FirstLen(paras, max, n)
    decreases |paras| - n
  {
    if n < a {
      SumMonotone(paras, n + 1, a);
      FirstLenIsMost(paras, max, n + 1, a);
    }
  }

  /** The first segment of a list reaches at least as far when the list begins later. */
  lemma ReachesAsFar(paras: seq<Para>, max: nat)
    requires |paras| > 1
    ensures var f := FirstLen(paras, max, 1); f > 1 ==> f - 1 <= FirstLen(paras[1..], max, 1)
  {
    var f := FirstLen(paras, max, 1);
    FirstLenFits(paras, max, 1);
    if f > 1 {
      var rest := paras[1..];
      assert paras[..f] == [paras[0]] + rest[..f - 1];
      SumSplit([paras[0]], rest[..f - 1]);
      FirstLenIsMost(rest, max, 1, f - 1);
    }
  }

  /** Fewer paragraphs never need more segments. */
  lemma {:induction false} FewerNeedFewer(paras: seq<Para>, max: nat, k: nat)
    requires k <= |paras|
    ensures |Greedy(paras[k..], max)| <= |Greedy(paras, max)|
    decreases |paras|, k
  {
    hide Greedy, FirstLen;
    if k == 0 {
      assert paras[0..] == paras;
    } else if k > 1 {
      FewerNeedFewer(paras, max, 1);
      FewerNeedFewer(paras[1..], max, k - 1);
      assert paras[1..][k - 1..] == paras[k..];
    } else if |paras| > 1 {
      var f, rest := FirstLen(paras, max, 1), paras[1..];
      GreedyStep(paras, max);
      if f > 1 {
        GreedyStep(rest, max);
        ReachesAsFar(paras, max);
        var g := FirstLen(rest, max, 1);
        FewerNeedFewer(paras[f..], max, g + 1 - f);
        assert paras[f..][g + 1 - f..] == rest[g..];
      }
    } else {
      GreedyNone(max);
    }
  }

  lemma GreedyStep(paras: seq<Para>, max: nat)
    requires paras != []
    ensures |Greedy(paras, max)| == 1 + |Greedy(paras[FirstLen(paras, max, 1)..], max)|
  {
  }

  /** No way of cutting the paragraphs, in order, into segments within the cap uses fewer segments. */
  lemma {:induction false} GreedyIsFewest(paras: seq<Para>, max: nat, groups: seq<seq<Para>>)
    requires Flat(groups) == paras && forall g :: g in groups ==> Fits(g, max)
    ensures |Greedy(paras, max)| <= |groups|
    decreases |groups|
  {
    if groups != [] {
      var a := |groups[0]|;
      assert groups[0] in groups;
      assert paras[..a] == groups[0] && paras[a..] == Flat(groups[1..]);
      var f := FirstLen(paras, max, 1);
      FirstLenIsMost(paras, max, 1, a);
      GreedyIsFewest(paras[a..], max, groups[1..]);
      FewerNeedFewer(paras[a..], max, f - a);
      assert paras[a..][f - a..] == paras[f..];
    }
  }

  /** With a full buffer the next greedy segment is the buffer. */
  lemma BufferIsNext(buf: seq<Para>, para: Para, rest: seq<Para>, max: nat)
    requires buf != [] && Sum(buf) <= max && Sum(buf) + para.tokens > max
    ensures Greedy(buf + [para] + rest, max) == [buf] + Greedy([para] + rest, max)
  {
    var all := buf + [para] + rest;
    assert all[..|buf|] == buf && all[..|buf| + 1] == buf + [para] && all[|buf|..] == [para] + rest;
    SumSplit(buf, [para]);
    assert Sum([para]) == para.tokens by { assert [para][..0] == []; }
    FirstLenIs(all, max, 1, |buf|);
  }

  lemma OversizeIsAlone(para: Para, rest: seq<Para>, max: nat)
    requires para.tokens > max
    ensures Greedy([para] + rest, max) == [[para]] + Greedy(rest, max)
  {
    var all := [para] + rest;
    assert all[..1] == [para] && all[1..] == rest && [para][..0] == [];
    if |all| > 1 { SumMonotone(all, 1, 2); }
    FirstLenIs(all, max, 1, 1);
  }

  lemma LastSegment(buf: seq<Para>, max: nat)
    requires buf != [] && Sum(buf) <= max
    ensures Greedy(buf, max) == [buf]
  {
    assert buf[..|buf|] == buf;
    FirstLenIs(buf, max, 1, |buf|);
  }

  lemma GroupsSnoc(segments: seq<Segment>, s: Segment)
    ensures Groups(segments + [s]) == Groups(segments) + [Group(s)]
  {
  }

  predicate WellMade(s: Segment, max: nat) {
    match s
    case Packed(paras) => paras != [] && Sum(paras) <= max
    case Windowed(para) => para.tokens > max
  }

  /** `_segment`, on paragraphs already split and counted. */
  method PackParagraphs(paragraphs: seq<Para>, max: nat) returns (segments: seq<Segment>)
    ensures Groups(segments) == Greedy(paragraphs, max)
    ensures forall s :: s in segments ==> WellMade(s, max)
  {
    hide Greedy, Groups, Group;
    segments := [];
    var buf: seq<Para>, bufTokens := [], 0;
    NoGroups();
    assert paragraphs[0..] == paragraphs && [] + paragraphs == paragraphs;
    for i := 0 to |paragraphs|
      invariant bufTokens == Sum(buf) <= max
      invariant forall s :: s in segments ==> WellMade(s, max)
      invariant Groups(segments) + Greedy(buf + paragraphs[i..], max) == Greedy(paragraphs, max)
    {
      var para, rest := paragraphs[i], paragraphs[i + 1..];
      assert buf + paragraphs[i..] == buf + [para] + rest && [] + [para] + rest == [para] + rest;
      if para.tokens > max {
        if buf != [] {
          BufferIsNext(buf, para, rest, max);
          segments := Flush(segments, buf);
        }
        OversizeIsAlone(para, rest, max);
        GroupsSnoc(segments, Windowed(para));
        GroupOfWindowed(para);
        segments := segments + [Windowed(para)];
        buf, bufTokens := [], 0;
        assert [] + rest == rest;
      } else if bufTokens + para.tokens > max {
        if buf != [] {
          BufferIsNext(buf, para, rest, max);
          segments := Flush(segments, buf);
        }
        buf, bufTokens := [para], para.tokens;
        assert [para][..0] == [];
      } else {
        SumSplit(buf, [para]);
        assert [para][..0] == [];
        buf, bufTokens := buf + [para], bufTokens + para.tokens;
      }
    }
    assert buf + paragraphs[|paragraphs|..] == buf;
    if buf != [] {
      LastSegment(buf, max);
      segments := Flush(segments, buf);
    } else {
      GreedyNone(max);
    }
  }

  lemma NoGroups()
    ensures Groups([]) == []
  {
  }

  lemma GreedyNone(max: nat)
    ensures Greedy([], max) == []
  {
  }

  lemma GroupOfWindowed(para: Para)
    ensures Group(Windowed(para)) == [para]
  {
  }

  method Flush(segments: seq<Segment>, buf: seq<Para>) returns (more: seq<Segment>)
    ensures more == segments + [Packed(buf)] && Groups(more) == Groups(segments) + [buf]
  {
    GroupsSnoc(segments, Packed(buf));
    more := segments + [Packed(buf)];
  }

  // ---- the running stack of headings ---------------------------------------------------

  datatype Heading = Heading(level: nat, title: string)

  /** The `i`th heading still governs: none after it has an equal or smaller level. */
  predicate Governs(hs: seq<Heading>, i: nat) {
    i < |hs| && forall j :: i < j < |hs| ==> hs[j].level > hs[i].level
  }

  /** The headings that govern the end of the list, in order. */
  function Governing(hs: seq<Heading>, n: nat): seq<Heading>
    requires n <= |hs|
  {
    if n == 0 then [] else Governing(hs, n - 1) + if Governs(hs, n - 1) then [hs[n - 1]] else []
  }

  function Section(hs: seq<Heading>): seq<Heading> {
    Governing(hs, |hs|)
  }

  /** The headings of `stack` below `level`. */
  function Below(stack: seq<Heading>, level: nat): seq<Heading> {
    if stack == [] then []
    else Below(stack[..|stack| - 1], level) + if stack[|stack| - 1].level < level then [stack[|stack| - 1]] else []
  }

  predicate Rising(stack: seq<Heading>) {
    forall i, j :: 0 <= i < j < |stack| ==> stack[i].level < stack[j].level
  }

  lemma BelowSnoc(stack: seq<Heading>, h: Heading, level: nat)
    ensures Below(stack + [h], level) == Below(stack, level) + if h.level < level then [h] else []
  {
    assert (stack + [h])[..|stack|] == stack;
  }

  /** One more heading keeps, of those that governed, the ones above it in the hierarchy. */
  lemma {:induction false} GoverningSnoc(hs: seq<Heading>, h: Heading, n: nat)
    requires n <= |hs|
    ensures Governing(hs + [h], n) == Below(Governing(hs, n), h.level)
  {
    if n > 0 {
      GoverningSnoc(hs, h, n - 1);
      GovernsSnoc(hs, h, n - 1);
      assert (hs + [h])[n - 1] == hs[n - 1];
      assert !Governs(hs, n - 1) ==> Governing(hs, n) == Governing(hs, n - 1);
      if Governs(hs, n - 1) { BelowSnoc(Governing(hs, n - 1), hs[n - 1], h.level); }
    }
  }

  lemma GovernsSnoc(hs: seq<Heading>, h: Heading, i: nat)
    requires i < |hs|
    ensures Governs(hs + [h], i) <==> Governs(hs, i) && hs[i].level < h.level
  {
    var more := hs + [h];
    assert forall j :: 0 <= j < |hs| ==> more[j] == hs[j];
    assert more[|hs|] == h;
  }

  lemma SectionSnoc(hs: seq<Heading>, h: Heading)
    ensures Section(hs + [h]) == Below(Section(hs), h.level) + [h]
  {
    GoverningSnoc(hs, h, |hs|);
    assert Governs(hs + [h], |hs|);
  }

  lemma {:induction false} BelowAll(stack: seq<Heading>, level: nat)
    requires forall i :: 0 <= i < |stack| ==> stack[i].level < level
    ensures Below(stack, level) == stack
  {
    if stack != [] { BelowAll(stack[..|stack| - 1], level); }
  }

  lemma {:induction false} BelowRises(stack: seq<Heading>, level: nat)
    requires Rising(stack)
    ensures Rising(Below(stack, level)) && forall h :: h in Below(stack, level) ==> h in stack && h.level < level
  {
    if stack != [] {
      BelowRises(stack[..|stack| - 1], level);
      assert forall h :: h in stack[..|stack| - 1] ==> h in stack && h.level < stack[|stack| - 1].level;
    }
  }

  lemma {:induction false} SectionRises(hs: seq<Heading>)
    ensures Rising(Section(hs))
  {
    if hs != [] {
      var init, h := hs[..|hs| - 1], hs[|hs| - 1];
      assert hs == init + [h];
      SectionRises(init);
      SectionSnoc(init, h);
      BelowRises(Section(init), h.level);
      var b := Below(Section(init), h.level);
      assert forall i :: 0 <= i < |b| ==> b[i] in b;
    }
  }

  /** The loop of `parse` that folds one heading into the running stack. */
  method PushHeading(stack: seq<Heading>, h: Heading, ghost hs: seq<Heading>) returns (after: seq<Heading>)
    requires stack == Section(hs)
    ensures after == Section(hs + [h])
  {
    after := stack;
    SectionRises(hs);
    while after != [] && after[|after| - 1].level >= h.level
      invariant after <= stack && Rising(after)
      invariant Below(after, h.level) == Below(stack, h.level)
      decreases |after|
    {
      after := after[..|after| - 1];
    }
    BelowAll(after, h.level);
    SectionSnoc(hs, h);
    after := after + [h];
  }

  // ---- the heading lines of a page -----------------------------------------------------

  const MAX_WORDS := 25

  /** A line of the layout: the size of its largest span if it has text, its words, and the level of
      the section number it begins with, if it does. */
  datatype Line = Line(size: Option<real>, words: seq<string>, level: Option<nat>)

  predicate IsHeadingLine(line: Line, minSize: real) {
    line.size.Some? && line.size.value >= minSize && 0 < |line.words| <= MAX_WORDS
  }

  function JoinedWith(parts: seq<string>, between: string): string {
    if parts == [] then ""
    else if |parts| == 1 then parts[0]
    else parts[0] + between + JoinedWith(parts[1..], between)
  }

  /** A title with the wrapped lines that follow it and still fit, up to the next numbered line. */
  function Wrapped(words: seq<string>, lines: seq<Line>, minSize: real): seq<string>
    decreases |lines|
  {
    if lines == [] then words
    else if !IsHeadingLine(lines[0], minSize) then Wrapped(words, lines[1..], minSize)
    else if lines[0].level.Some? then words
    else if |words| + |lines[0].words| <= MAX_WORDS then Wrapped(words + lines[0].words, lines[1..], minSize)
    else Wrapped(words, lines[1..], minSize)
  }

  /** One heading for each numbered heading line, in order, with what is wrapped onto it. */
  function Headings(lines: seq<Line>, minSize: real): seq<Heading> {
    if lines == [] then []
    else if !IsHeadingLine(lines[0], minSize) || lines[0].level.None? then Headings(lines[1..], minSize)
    else
      [Heading(lines[0].level.value, JoinedWith(Wrapped(lines[0].words, lines[1..], minSize), " "))]
      + Headings(lines[1..], minSize)
  }

  /** No title outgrows a heading, however many heading-size lines follow it. */
  lemma {:induction false} WrappedStaysShort(words: seq<string>, lines: seq<Line>, minSize: real)
    requires |words| <= 25
    ensures words <= Wrapped(words, lines, minSize) && |Wrapped(words, lines, minSize)| <= 25
    decreases |lines|
  {
    if lines != [] {
      var more := if IsHeadingLine(lines[0], minSize) && lines[0].level.None? && |words| + |lines[0].words| <= MAX_WORDS
                  then words + lines[0].words else words;
      WrappedStaysShort(more, lines[1..], minSize);
    }
  }

  datatype Raw = Raw(level: nat, words: seq<string>)

  function Titled(raw: seq<Raw>): seq<Heading> {
    seq(|raw|, i requires 0 <= i < |raw| => Heading(raw[i].level, JoinedWith(raw[i].words, " ")))
  }

  /** What the headings met so far come to, once the remaining lines have been read. */
  function Finished(raw: seq<Raw>, lines: seq<Line>, minSize: real): seq<Heading> {
    if raw == [] then Headings(lines, minSize)
    else
      var last := raw[|raw| - 1];
      Titled(raw[..|raw| - 1] + [Raw(last.level, Wrapped(last.words, lines, minSize))]) + Headings(lines, minSize)
  }

  lemma FinishedStep(raw: seq<Raw>, lines: seq<Line>, minSize: real, after: seq<Raw>)
    requires lines != []
    requires after ==
      if !IsHeadingLine(lines[0], minSize) then raw
      else if lines[0].level.Some? then raw + [Raw(lines[0].level.value, lines[0].words)]
      else if raw != [] && |raw[|raw| - 1].words| + |lines[0].words| <= MAX_WORDS
      then raw[..|raw| - 1] + [Raw(raw[|raw| - 1].level, raw[|raw| - 1].words + lines[0].words)]
      else raw
    ensures Finished(after, lines[1..], minSize) == Finished(raw, lines, minSize)
  {
    if IsHeadingLine(lines[0], minSize) && lines[0].level.Some? {
      var h := Raw(lines[0].level.value, Wrapped(lines[0].words, lines[1..], minSize));
      assert after[..|raw|] == raw;
      TitledSnoc(raw, h);
      if raw != [] { assert raw[..|raw| - 1] + [raw[|raw| - 1]] == raw; }
    }
  }

  lemma TitledSnoc(raw: seq<Raw>, h: Raw)
    ensures Titled(raw + [h]) == Titled(raw) + [Heading(h.level, JoinedWith(h.words, " "))]
  {
  }

  /** `_page_headings` */
  method PageHeadings(lines: seq<Line>, minSize: real) returns (headings: seq<Heading>)
    ensures headings == Headings(lines, minSize)
  {
    var raw: seq<Raw> := [];
    assert lines[0..] == lines;
    for i := 0 to |lines|
      invariant Finished(raw, lines[i..], minSize) == Headings(lines, minSize)
    {
      ghost var before := raw;
      var line := lines[i];
      assert lines[i..][0] == line && lines[i..][1..] == lines[i + 1..];
      if IsHeadingLine(line, minSize) {
        if line.level.Some? {
          raw := raw + [Raw(line.level.value, line.words)];
        } else if raw != [] && |raw[|raw| - 1].words| + |line.words| <= MAX_WORDS {
          var last := raw[|raw| - 1];
          raw := raw[..|raw| - 1] + [Raw(last.level, last.words + line.words)];
        }
      }
      FinishedStep(before, lines[i..], minSize, raw);
    }
    assert raw != [] ==> raw[..|raw| - 1] + [raw[|raw| - 1]] == raw;
    headings := Titled(raw);
  }

  // ---- one chunk per page --------------------------------------------------------------

  datatype Page = Page(lines: seq<Line>, text: string)
  datatype PageChunk = PageChunk(page: nat, total: nat, index: nat, path: Option<string>, level: Option<nat>, body: string)

  function Titles(section: seq<Heading>): (titles: seq<string>)
    ensures |titles| == |section| && forall i :: 0 <= i < |section| ==> titles[i] == section[i].title
  {
    seq(|section|, i requires 0 <= i < |section| => section[i].title)
  }

  /** The chunk of a page under the headings that govern its end: tagged with their titles and the
      level of the last, and its text after the titles. */
  function ChunkUnder(section: seq<Heading>, page: nat, total: nat, index: nat, text: string): PageChunk {
    var path := JoinedWith(Titles(section), " > ");
    PageChunk(page, total, index, if path == "" then None else Some(path),
              if section == [] then None else Some(section[|section| - 1].level),
              if path == "" then text else path + "\n\n" + text)
  }

  /** All headings on the first `n` pages, in reading order. */
  function HeadingsUpTo(pages: seq<Page>, minSize: real, n: nat): seq<Heading>
    requires n <= |pages|
  {
    if n == 0 then [] else HeadingsUpTo(pages, minSize, n - 1) + Headings(pages[n - 1].lines, minSize)
  }

  /** One chunk for each of the first `n` pages with text, numbered in order and tagged with the
      headings that govern the end of its page. */
  function PageChunks(pages: seq<Page>, minSize: real, n: nat): seq<PageChunk>
    requires n <= |pages|
  {
    if n == 0 then []
    else
      var before := PageChunks(pages, minSize, n - 1);
      if pages[n - 1].text == "" then before
      else before + [ChunkUnder(Section(HeadingsUpTo(pages, minSize, n)), n, |pages|, |before|, pages[n - 1].text)]
  }

  /** The headings that govern are the last of each level reached: nested ever deeper, and the last
      heading read is always one of them. */
  lemma SectionNests(hs: seq<Heading>)
    ensures Rising(Section(hs)) && (hs != [] ==> Section(hs) != [] && Section(hs)[|Section(hs)| - 1] == hs[|hs| - 1])
  {
    SectionRises(hs);
    if hs != [] {
      assert hs == hs[..|hs| - 1] + [hs[|hs| - 1]];
      SectionSnoc(hs[..|hs| - 1], hs[|hs| - 1]);
    }
  }

  /** The page loop of `parse`; page texts come trimmed. */
  method ParsePages(pages: seq<Page>, minSize: real) returns (chunks: seq<PageChunk>)
    ensures chunks == PageChunks(pages, minSize, |pages|)
  {
    hide Section, Headings, ChunkUnder, HeadingsUpTo, PageChunks;
    PagesStart(pages, minSize);
    chunks := [];
    var stack: seq<Heading>, chunkIndex := [], 0;
    for n := 0 to |pages|
      invariant stack == Section(HeadingsUpTo(pages, minSize, n))
      invariant chunks == PageChunks(pages, minSize, n) && chunkIndex == |chunks|
    {
      PagesStep(pages, minSize, n);
      var headings := PageHeadings(pages[n].lines, minSize);
      stack := FoldHeadings(stack, headings, HeadingsUpTo(pages, minSize, n));
      if pages[n].text != "" {
        chunks := chunks + [ChunkUnder(stack, n + 1, |pages|, chunkIndex, pages[n].text)];
        chunkIndex := chunkIndex + 1;
      }
    }
  }

  lemma PagesStart(pages: seq<Page>, minSize: real)
    ensures PageChunks(pages, minSize, 0) == [] && Section(HeadingsUpTo(pages, minSize, 0)) == []
  {
  }

  lemma PagesStep(pages: seq<Page>, minSize: real, n: nat)
    requires n < |pages|
    ensures HeadingsUpTo(pages, minSize, n + 1) == HeadingsUpTo(pages, minSize, n) + Headings(pages[n].lines, minSize)
    ensures var before := PageChunks(pages, minSize, n);
      PageChunks(pages, minSize, n + 1) ==
        if pages[n].text == "" then before
        else before + [ChunkUnder(Section(HeadingsUpTo(pages, minSize, n + 1)), n + 1, |pages|, |before|, pages[n].text)]
  {
    hide Section, Headings, ChunkUnder;
  }

  /** A page's headings folded into the running stack. */
  method FoldHeadings(stack: seq<Heading>, headings: seq<Heading>, ghost before: seq<Heading>) returns (after: seq<Heading>)
    requires stack == Section(before)
    ensures after == Section(before + headings)
  {
    hide Section;
    after := stack;
    assert before + headings[..0] == before;
    for k := 0 to |headings|
      invariant after == Section(before + headings[..k])
    {
      after := PushHeading(after, headings[k], before + headings[..k]);
      assert before + headings[..k + 1] == before + headings[..k] + [headings[k]];
    }
    assert headings[..|headings|] == headings;
  }
}
