/** What the layout-aware parser gives, said by places: which lines a heading and its title are made
    of, which headings a section holds, and what the chunk of a page shows. */
module PageSections {
  import opened Ids
  import opened Chunking

  // ---- which lines a title is made of --------------------------------------------------

  /** Joining one more part puts it at the end. */
  lemma {:induction false} JoinedSnoc(parts: seq<string>, part: string, between: string)
    ensures JoinedWith([part], between) == part
    ensures parts != [] ==> JoinedWith(parts + [part], between) == JoinedWith(parts, between) + between + part
  {
    if |parts| == 1 {
      assert (parts + [part])[1..] == [part];
    } else if parts != [] {
      JoinedSnoc(parts[1..], part, between);
      assert (parts + [part])[1..] == parts[1..] + [part];
    }
  }

  /** Line `p` is a heading-size line without a number, and so is every heading-size line from `i` to it. */
  predicate Wrappable(lines: seq<Line>, minSize: real, i: nat, p: nat) {
    && i <= p < |lines| && IsHeadingLine(lines[p], minSize)
    && forall q :: i <= q <= p && IsHeadingLine(lines[q], minSize) ==> lines[q].level.None?
  }

  function WordsAt(lines: seq<Line>, places: seq<nat>): seq<string> {
    if places == [] then []
    else (if places[0] < |lines| then lines[places[0]].words else []) + WordsAt(lines, places[1..])
  }

  /** `all` is `words` and the words of the lines at `taken`: of the lines that could be wrapped onto
      them, in order, each one that fits the limit behind those taken before it. */
  ghost predicate Wraps(words: seq<string>, lines: seq<Line>, minSize: real, i: nat, taken: seq<nat>, all: seq<string>) {
    && Ascending(taken) && all == words + WordsAt(lines, taken)
    && (forall k :: 0 <= k < |taken| ==>
          Wrappable(lines, minSize, i, taken[k]) && |words| + |WordsAt(lines, taken[..k + 1])| <= 25)
    && forall p: nat, k: nat :: Wrappable(lines, minSize, i, p) && LiesAt(taken, p, k) ==>
          |words| + |WordsAt(lines, taken[..k])| + |lines[p].words| > 25
  }

  /** `p` lies strictly between the places before `k` and those from `k` on. */
  predicate LiesAt(taken: seq<nat>, p: nat, k: nat) {
    k <= |taken| && (k > 0 ==> taken[k - 1] < p) && (k < |taken| ==> p < taken[k])
  }

  lemma {:induction false} WrapPlaces(words: seq<string>, lines: seq<Line>, minSize: real, i: nat) returns (taken: seq<nat>)
    requires i <= |lines|
    ensures Wraps(words, lines, minSize, i, taken, Wrapped(words, lines[i..], minSize))
    decreases |lines| - i
  {
    hide Wraps;
    if i == |lines| {
      taken := [];
      NothingWraps(words, lines, minSize, i);
      return;
    }
    assert lines[i..][0] == lines[i] && lines[i..][1..] == lines[i + 1..];
    if !IsHeadingLine(lines[i], minSize) {
      taken := WrapPlaces(words, lines, minSize, i + 1);
      LineSkipped(words, lines, minSize, i, taken, Wrapped(words, lines[i + 1..], minSize));
    } else if lines[i].level.Some? {
      taken := [];
      NothingWraps(words, lines, minSize, i);
    } else if |words| + |lines[i].words| <= 25 {
      var more := words + lines[i].words;
      var rest := WrapPlaces(more, lines, minSize, i + 1);
      LineTaken(words, lines, minSize, i, rest, Wrapped(more, lines[i + 1..], minSize));
      taken := [i] + rest;
    } else {
      taken := WrapPlaces(words, lines, minSize, i + 1);
      LineTooLong(words, lines, minSize, i, taken, Wrapped(words, lines[i + 1..], minSize));
    }
  }

  lemma NothingWraps(words: seq<string>, lines: seq<Line>, minSize: real, i: nat)
    requires i <= |lines| && (i == |lines| || (IsHeadingLine(lines[i], minSize) && lines[i].level.Some?))
    ensures Wraps(words, lines, minSize, i, [], words)
  {
    hide Wrappable, IsHeadingLine;
    forall p: nat ensures !Wrappable(lines, minSize, i, p) {
      if Wrappable(lines, minSize, i, p) { WrapsNext(lines, minSize, i, p); }
    }
    assert words == words + WordsAt(lines, []);
  }

  /** What is wrapped onto a line stands behind lines that could be wrapped onto it too. */
  lemma WrapsNext(lines: seq<Line>, minSize: real, i: nat, p: nat)
    requires Wrappable(lines, minSize, i, p)
    ensures i <= p < |lines| && (IsHeadingLine(lines[i], minSize) ==> lines[i].level.None?)
    ensures p == i || Wrappable(lines, minSize, i + 1, p)
  {
    hide IsHeadingLine;
  }

  lemma WrappableStep(lines: seq<Line>, minSize: real, i: nat, p: nat)
    requires i < |lines| && (IsHeadingLine(lines[i], minSize) ==> lines[i].level.None?)
    ensures Wrappable(lines, minSize, i, p) <==>
      (p == i && IsHeadingLine(lines[i], minSize)) || Wrappable(lines, minSize, i + 1, p)
    ensures Wrappable(lines, minSize, i, p) ==> i <= p < |lines|
    ensures Wrappable(lines, minSize, i + 1, p) ==> i < p
  {
    hide IsHeadingLine;
  }

  lemma LineSkipped(words: seq<string>, lines: seq<Line>, minSize: real, i: nat, taken: seq<nat>, all: seq<string>)
    requires i < |lines| && !IsHeadingLine(lines[i], minSize)
    requires Wraps(words, lines, minSize, i + 1, taken, all)
    ensures Wraps(words, lines, minSize, i, taken, all)
  {
    hide WordsAt, Wrappable, IsHeadingLine;
    forall k | 0 <= k < |taken| ensures Wrappable(lines, minSize, i, taken[k]) {
      WrappableStep(lines, minSize, i, taken[k]);
    }
    forall p: nat, k: nat | Wrappable(lines, minSize, i, p) && LiesAt(taken, p, k)
      ensures p < |lines| && |words| + |WordsAt(lines, taken[..k])| + |lines[p].words| > 25
    {
      WrappableStep(lines, minSize, i, p);
    }
    assert forall k :: 0 <= k < |taken| ==>
      Wrappable(lines, minSize, i, taken[k]) && |words| + |WordsAt(lines, taken[..k + 1])| <= 25;
    assert forall p: nat, k: nat :: Wrappable(lines, minSize, i, p) && LiesAt(taken, p, k) ==>
      p < |lines| && |words| + |WordsAt(lines, taken[..k])| + |lines[p].words| > 25;
  }

  lemma LineTooLong(words: seq<string>, lines: seq<Line>, minSize: real, i: nat, taken: seq<nat>, all: seq<string>)
    requires i < |lines| && IsHeadingLine(lines[i], minSize) && lines[i].level.None?
    requires |words| + |lines[i].words| > 25
    requires Wraps(words, lines, minSize, i + 1, taken, all)
    ensures Wraps(words, lines, minSize, i, taken, all)
  {
    NoWords(lines, taken);
    hide WordsAt, Wrappable, IsHeadingLine;
    forall k | 0 <= k < |taken| ensures Wrappable(lines, minSize, i, taken[k]) && i < taken[k] {
      WrappableStep(lines, minSize, i, taken[k]);
    }
    forall p: nat, k: nat | Wrappable(lines, minSize, i, p) && LiesAt(taken, p, k)
      ensures p < |lines| && |words| + |WordsAt(lines, taken[..k])| + |lines[p].words| > 25
    {
      WrappableStep(lines, minSize, i, p);
    }
    assert forall k :: 0 <= k < |taken| ==>
      Wrappable(lines, minSize, i, taken[k]) && |words| + |WordsAt(lines, taken[..k + 1])| <= 25;
    assert forall p: nat, k: nat :: Wrappable(lines, minSize, i, p) && LiesAt(taken, p, k) ==>
      p < |lines| && |words| + |WordsAt(lines, taken[..k])| + |lines[p].words| > 25;
  }

  lemma NoWords(lines: seq<Line>, taken: seq<nat>)
    ensures WordsAt(lines, taken[..0]) == []
  {
  }

  lemma LineTaken(words: seq<string>, lines: seq<Line>, minSize: real, i: nat, rest: seq<nat>, all: seq<string>)
    requires i < |lines| && IsHeadingLine(lines[i], minSize) && lines[i].level.None?
    requires |words| + |lines[i].words| <= 25
    requires Wraps(words + lines[i].words, lines, minSize, i + 1, rest, all)
    ensures Wraps(words, lines, minSize, i, [i] + rest, all)
  {
    forall p: nat { WrappableStep(lines, minSize, i, p); }
    hide WordsAt, Wrappable, IsHeadingLine;
    var taken := [i] + rest;
    WordsBehind(lines, i, rest);
    WordsFirst(lines, i, rest);
    assert all == words + (lines[i].words + WordsAt(lines, rest));
    WrappableStep(lines, minSize, i, i);
    forall k | 0 <= k < |rest| ensures Wrappable(lines, minSize, i, rest[k]) && i < rest[k] {
      WrappableStep(lines, minSize, i, rest[k]);
    }
    TakenAscend(rest, i);
    forall k | 0 <= k < |taken|
      ensures Wrappable(lines, minSize, i, taken[k]) && |words| + |WordsAt(lines, taken[..k + 1])| <= 25
    {
      if k == 0 { NoWords(lines, rest); } else { assert taken[k] == rest[k - 1]; }
    }
    forall p: nat, k: nat | Wrappable(lines, minSize, i, p) && LiesAt(taken, p, k)
      ensures p < |lines| && |words| + |WordsAt(lines, taken[..k])| + |lines[p].words| > 25
    {
      WrappableStep(lines, minSize, i, p);
      LiesBehind(rest, i, p, k);
    }
  }

  lemma WordsBehind(lines: seq<Line>, i: nat, rest: seq<nat>)
    requires i < |lines|
    ensures forall k :: 0 <= k <= |rest| ==> WordsAt(lines, ([i] + rest)[..k + 1]) == lines[i].words + WordsAt(lines, rest[..k])
  {
    hide WordsAt;
    forall k | 0 <= k <= |rest| ensures WordsAt(lines, ([i] + rest)[..k + 1]) == lines[i].words + WordsAt(lines, rest[..k]) {
      assert ([i] + rest)[..k + 1] == [i] + rest[..k];
      WordsFirst(lines, i, rest[..k]);
    }
  }

  lemma TakenAscend(rest: seq<nat>, i: nat)
    requires Ascending(rest) && forall k :: 0 <= k < |rest| ==> i < rest[k]
    ensures Ascending([i] + rest)
  {
  }

  lemma LiesBehind(rest: seq<nat>, i: nat, p: nat, k: nat)
    requires i <= p && LiesAt([i] + rest, p, k) && forall j :: 0 <= j < |rest| ==> i < rest[j]
    ensures k > 0 && p > i && LiesAt(rest, p, k - 1)
  {
    assert forall j :: 0 < j <= |rest| ==> ([i] + rest)[j] == rest[j - 1];
  }

  lemma WordsFirst(lines: seq<Line>, i: nat, rest: seq<nat>)
    requires i < |lines|
    ensures WordsAt(lines, [i] + rest) == lines[i].words + WordsAt(lines, rest)
  {
    assert ([i] + rest)[1..] == rest;
  }

  predicate Numbered(line: Line, minSize: real) {
    IsHeadingLine(line, minSize) && line.level.Some?
  }

  /** `at` are the places of the numbered heading lines from `i` on. */
  ghost predicate NumberedAt(lines: seq<Line>, minSize: real, i: nat, at: seq<nat>) {
    Ascending(at) && forall p: nat :: p in at <==> i <= p < |lines| && Numbered(lines[p], minSize)
  }

  lemma {:induction false} HeadingPlaces(lines: seq<Line>, minSize: real, i: nat) returns (at: seq<nat>)
    requires i <= |lines|
    ensures NumberedAt(lines, minSize, i, at) && TitledAt(lines, minSize, at, Headings(lines[i..], minSize))
    decreases |lines| - i
  {
    hide NumberedAt, TitledAt, Numbered, Headings;
    if i == |lines| {
      at := [];
      NoHeadings(lines, minSize);
      return;
    }
    var rest := HeadingPlaces(lines, minSize, i + 1);
    NumberedFrom(lines, minSize, i, rest);
    TitledFrom(lines, minSize, i, rest, Headings(lines[i + 1..], minSize));
    HeadingsStep(lines, minSize, i);
    at := if Numbered(lines[i], minSize) then [i] + rest else rest;
  }

  /** The headings `hs` are made of the lines at `at` and those wrapped onto them. */
  predicate TitledAt(lines: seq<Line>, minSize: real, at: seq<nat>, hs: seq<Heading>) {
    |at| == |hs| && forall k :: 0 <= k < |at| ==> Titled(lines, minSize, at[k], hs[k])
  }

  predicate Titled(lines: seq<Line>, minSize: real, p: nat, h: Heading) {
    && p < |lines| && lines[p].level == Some(h.level)
    && h.title == JoinedWith(Wrapped(lines[p].words, lines[p + 1..], minSize), " ")
  }

  lemma NoHeadings(lines: seq<Line>, minSize: real)
    ensures NumberedAt(lines, minSize, |lines|, []) && TitledAt(lines, minSize, [], Headings(lines[|lines|..], minSize))
  {
  }

  lemma HeadingsStep(lines: seq<Line>, minSize: real, i: nat)
    requires i < |lines|
    ensures var rest := Headings(lines[i + 1..], minSize);
      if Numbered(lines[i], minSize)
      then |Headings(lines[i..], minSize)| > 0 && Headings(lines[i..], minSize)[1..] == rest
           && Titled(lines, minSize, i, Headings(lines[i..], minSize)[0])
      else Headings(lines[i..], minSize) == rest
  {
    hide Wrapped, JoinedWith, IsHeadingLine;
    assert lines[i..][0] == lines[i] && lines[i..][1..] == lines[i + 1..];
  }

  lemma NumberedFrom(lines: seq<Line>, minSize: real, i: nat, rest: seq<nat>)
    requires i < |lines| && NumberedAt(lines, minSize, i + 1, rest)
    ensures NumberedAt(lines, minSize, i, if Numbered(lines[i], minSize) then [i] + rest else rest)
  {
    hide Numbered;
    assert forall k :: 0 <= k < |rest| ==> rest[k] in rest;
    var at := [i] + rest;
    assert forall p :: p in at <==> p == i || p in rest;
    assert forall k :: 0 < k < |at| ==> at[k] == rest[k - 1];
  }

  lemma TitledFrom(lines: seq<Line>, minSize: real, i: nat, rest: seq<nat>, hs: seq<Heading>)
    requires TitledAt(lines, minSize, rest, hs)
    ensures forall all: seq<Heading> :: |all| > 0 && all[1..] == hs && Titled(lines, minSize, i, all[0]) ==>
      TitledAt(lines, minSize, [i] + rest, all)
  {
    hide Titled;
    forall all: seq<Heading> | |all| > 0 && all[1..] == hs && Titled(lines, minSize, i, all[0])
      ensures TitledAt(lines, minSize, [i] + rest, all)
    {
      var at := [i] + rest;
      forall k | 0 <= k < |at| ensures |at| == |all| && Titled(lines, minSize, at[k], all[k]) {
        if k > 0 { assert at[k] == rest[k - 1] && all[k] == hs[k - 1]; }
      }
    }
  }

  /** The headings of a page: one for each numbered heading line, in order, at that line's level; its
      title is the words of that line and of the lines wrapped onto it, with a space between. */
  lemma HeadingsMean(lines: seq<Line>, minSize: real, k: nat) returns (at: seq<nat>, taken: seq<nat>, words: seq<string>)
    requires k < |Headings(lines, minSize)|
    ensures NumberedAt(lines, minSize, 0, at) && |at| == |Headings(lines, minSize)| && at[k] < |lines|
    ensures Wraps(lines[at[k]].words, lines, minSize, at[k] + 1, taken, words)
    ensures lines[at[k]].level == Some(Headings(lines, minSize)[k].level)
    ensures Headings(lines, minSize)[k].title == JoinedWith(words, " ")
  {
    hide Wraps, Wrapped, JoinedWith, NumberedAt, Headings;
    assert lines[0..] == lines;
    at := HeadingPlaces(lines, minSize, 0);
    taken := WrapPlaces(lines[at[k]].words, lines, minSize, at[k] + 1);
    words := Wrapped(lines[at[k]].words, lines[at[k] + 1..], minSize);
  }

  // ---- sections and pages --------------------------------------------------------------

  /** `section` are the headings at `at`: exactly those among the first `n` that govern the end. */
  predicate GovernAt(hs: seq<Heading>, n: nat, at: seq<nat>, section: seq<Heading>)
    requires n <= |hs|
  {
    && Ascending(at) && |at| == |section|
    && (forall k :: 0 <= k < |at| ==> at[k] < n && section[k] == hs[at[k]])
    && forall i :: 0 <= i < n ==> (i in at <==> Governs(hs, i))
  }

  lemma {:induction false} GoverningPlaces(hs: seq<Heading>, n: nat) returns (at: seq<nat>)
    requires n <= |hs|
    ensures GovernAt(hs, n, at, Governing(hs, n))
  {
    hide Governs, Governing, GovernAt;
    GoverningStep(hs, n);
    at := [];
    if n > 0 {
      at := GoverningPlaces(hs, n - 1);
      GovernSnoc(hs, n - 1, at, Governing(hs, n - 1));
      if Governs(hs, n - 1) { at := at + [n - 1]; }
    }
  }

  lemma GoverningStep(hs: seq<Heading>, n: nat)
    requires n <= |hs|
    ensures n == 0 ==> Governing(hs, n) == [] && GovernAt(hs, n, [], [])
    ensures n > 0 && Governs(hs, n - 1) ==> Governing(hs, n) == Governing(hs, n - 1) + [hs[n - 1]]
    ensures n > 0 && !Governs(hs, n - 1) ==> Governing(hs, n) == Governing(hs, n - 1)
  {
    hide Governs;
  }

  lemma GovernSnoc(hs: seq<Heading>, n: nat, at: seq<nat>, section: seq<Heading>)
    requires n < |hs| && GovernAt(hs, n, at, section)
    ensures if Governs(hs, n) then GovernAt(hs, n + 1, at + [n], section + [hs[n]]) else GovernAt(hs, n + 1, at, section)
  {
    hide Governs;
    var more := at + [n];
    assert n !in at;
    assert forall i :: 0 <= i < n ==> (i in more <==> i in at);
    assert more[|at|] == n;
  }

  /** The section a list of headings ends in: the headings with no later one of an equal or smaller
      level, in order. */
  lemma SectionMeans(hs: seq<Heading>) returns (at: seq<nat>)
    ensures Ascending(at) && |at| == |Section(hs)|
    ensures forall k :: 0 <= k < |at| ==> at[k] < |hs| && Section(hs)[k] == hs[at[k]]
    ensures forall i :: 0 <= i < |hs| ==> (i in at <==> forall j :: i < j < |hs| ==> hs[j].level > hs[i].level)
  {
    at := GoverningPlaces(hs, |hs|);
  }

  lemma ChunksStep(pages: seq<Page>, minSize: real, n: nat)
    requires 0 < n <= |pages|
    ensures var before, chunks := PageChunks(pages, minSize, n - 1), PageChunks(pages, minSize, n);
      if pages[n - 1].text == "" then chunks == before
      else chunks == before + [ChunkUnder(Section(HeadingsUpTo(pages, minSize, n)), n, |pages|, |before|, pages[n - 1].text)]
  {
    hide Section, HeadingsUpTo, ChunkUnder;
  }

  lemma {:induction false} ChunkAt(pages: seq<Page>, minSize: real, n: nat, k: nat)
    requires n <= |pages| && k < |PageChunks(pages, minSize, n)|
    ensures var c := PageChunks(pages, minSize, n)[k];
      && 1 <= c.page <= n && pages[c.page - 1].text != ""
      && c == ChunkUnder(Section(HeadingsUpTo(pages, minSize, c.page)), c.page, |pages|, k, pages[c.page - 1].text)
  {
    hide Section, HeadingsUpTo, PageChunks;
    if n == 0 {
      NoChunks(pages, minSize);
    } else {
      ChunksStep(pages, minSize, n);
      if k < |PageChunks(pages, minSize, n - 1)| { ChunkAt(pages, minSize, n - 1, k); }
    }
  }

  lemma NoChunks(pages: seq<Page>, minSize: real)
    ensures PageChunks(pages, minSize, 0) == []
  {
  }

  predicate InOrder(chunks: seq<PageChunk>) {
    forall i, j :: 0 <= i < j < |chunks| ==> chunks[i].page < chunks[j].page
  }

  predicate HasPage(chunks: seq<PageChunk>, p: nat) {
    exists i :: 0 <= i < |chunks| && chunks[i].page == p
  }

  /** The pages with text get one chunk each, in order. */
  lemma {:induction false} PagesInOrder(pages: seq<Page>, minSize: real, n: nat)
    requires n <= |pages|
    ensures InOrder(PageChunks(pages, minSize, n))
    ensures forall p: nat :: HasPage(PageChunks(pages, minSize, n), p) <==> 1 <= p <= n && pages[p - 1].text != ""
  {
    hide Section, HeadingsUpTo, PageChunks;
    if n == 0 {
      NoChunks(pages, minSize);
    } else {
      PagesInOrder(pages, minSize, n - 1);
      ChunksStep(pages, minSize, n);
      var before := PageChunks(pages, minSize, n - 1);
      if pages[n - 1].text != "" { PageAdded(before, PageChunks(pages, minSize, n)[|before|], n); }
    }
  }

  lemma PageAdded(chunks: seq<PageChunk>, c: PageChunk, n: nat)
    requires InOrder(chunks) && c.page == n && forall p: nat :: HasPage(chunks, p) ==> p < n
    ensures InOrder(chunks + [c]) && forall p: nat :: HasPage(chunks + [c], p) <==> p == n || HasPage(chunks, p)
  {
    forall i | 0 <= i < |chunks| ensures chunks[i].page < n { assert HasPage(chunks, chunks[i].page); }
    var more := chunks + [c];
    forall p: nat ensures HasPage(more, p) <==> p == n || HasPage(chunks, p) {
      if i :| 0 <= i < |chunks| && chunks[i].page == p { assert more[i].page == p; }
      if p == n { assert more[|chunks|].page == p; }
    }
  }

  /** What a page's chunk says, by the headings read up to the end of its page: the level of the last
      of them, the titles of the section they end in, and the page's text after those titles. */
  lemma PageChunkMeans(pages: seq<Page>, minSize: real, k: nat)
    requires k < |PageChunks(pages, minSize, |pages|)|
    ensures var c := PageChunks(pages, minSize, |pages|)[k];
      && 1 <= c.page <= |pages| && c.index == k && c.total == |pages|
      && var hs := HeadingsUpTo(pages, minSize, c.page);
         var titles := Titles(Section(hs));
         && (hs == [] ==> c.level == None && c.path == None)
         && (hs != [] ==> c.level == Some(hs[|hs| - 1].level))
         && (c.path == None <==> JoinedWith(titles, " > ") == "") && (c.path.Some? ==> c.path.value == JoinedWith(titles, " > "))
         && c.body == match c.path { case None => pages[c.page - 1].text case Some(path) => path + "\n\n" + pages[c.page - 1].text }
  {
    hide Section, HeadingsUpTo, PageChunks, JoinedWith;
    ChunkAt(pages, minSize, |pages|, k);
    var hs := HeadingsUpTo(pages, minSize, PageChunks(pages, minSize, |pages|)[k].page);
    SectionNests(hs);
    if hs == [] { NoSection(); }
  }

  lemma NoSection()
    ensures Section([]) == [] && JoinedWith([], " > ") == ""
  {
  }
}
