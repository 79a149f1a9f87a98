/** Fusing the ranked lists of several collections: reciprocal-rank scores, a stable sort, a cut. */
module RankFusion {
  import opened Ids
  import opened Ordering

  datatype Hit = Hit(col: ColId, chunk: nat, score: real, rank: nat)

  /** The `place`th result of the `list`th collection. */
  datatype Tag = Tag(list: nat, place: nat)

  const RRF_K := 60

  function Rrf(place: nat): real {
    1.0 / (RRF_K + place + 1) as real
  }

  lemma RrfFalls(p: nat, q: nat)
    ensures p < q <==> Rrf(p) > Rrf(q)
  {
    if p < q { RrfLess(p, q); }
    if q < p { RrfLess(q, p); }
  }

  lemma RrfLess(p: nat, q: nat)
    requires p < q
    ensures Rrf(p) > Rrf(q)
  {
    var a, b := (RRF_K + p + 1) as real, (RRF_K + q + 1) as real;
    assert 0.0 < a < b;
    Reciprocals(a, b);
  }

  lemma Reciprocals(a: real, b: real)
    requires 0.0 < a < b
    ensures 1.0 / a > 1.0 / b
  {
    assert 1.0 / a - 1.0 / b == (b - a) / (a * b);
  }

  predicate Before(a: Tag, b: Tag) {
    a.place < b.place || (a.place == b.place && a.list < b.list)
  }

  predicate Valid(per: seq<seq<Hit>>, t: Tag) {
    t.list < |per| && t.place < |per[t.list]|
  }

  // ---- the reference order: take turns -------------------------------------------------

  /** One turn: the `place`th result of each of the first `n` collections that has one. */
  function Turn(per: seq<seq<Hit>>, n: nat, place: nat): seq<Tag>
    requires n <= |per|
  {
    if n == 0 then []
    else Turn(per, n - 1, place) + if place < |per[n - 1]| then [Tag(n - 1, place)] else []
  }

  /** The first `turns` turns. */
  function Turns(per: seq<seq<Hit>>, turns: nat): seq<Tag> {
    if turns == 0 then [] else Turns(per, turns - 1) + Turn(per, |per|, turns - 1)
  }

  function Longest(per: seq<seq<Hit>>): (n: nat)
    ensures forall i :: 0 <= i < |per| ==> |per[i]| <= n
  {
    if per == [] then 0
    else
      var n := Longest(per[..|per| - 1]);
      assert forall i :: 0 <= i < |per| - 1 ==> per[..|per| - 1][i] == per[i];
      if |per[|per| - 1]| > n then |per[|per| - 1]| else n
  }

  lemma {:induction false} TurnHas(per: seq<seq<Hit>>, n: nat, place: nat)
    requires n <= |per|
    ensures forall t :: t in Turn(per, n, place) <==> t.list < n && t.place == place && Valid(per, t)
    ensures Pairwise(Turn(per, n, place), (a, b) => Before(a, b))
  {
    if n > 0 {
      TurnHas(per, n - 1, place);
      if place < |per[n - 1]| {
        PairwiseSnoc(Turn(per, n - 1, place), Tag(n - 1, place), (a, b) => Before(a, b));
      } else {
        assert Turn(per, n, place) == Turn(per, n - 1, place);
      }
    }
  }

  lemma PairwiseAppend(a: seq<Tag>, b: seq<Tag>)
    requires Pairwise(a, (x, y) => Before(x, y)) && Pairwise(b, (x, y) => Before(x, y))
    requires forall x, y :: x in a && y in b ==> Before(x, y)
    ensures Pairwise(a + b, (x, y) => Before(x, y))
  {
  }

  lemma {:induction false} TurnsHas(per: seq<seq<Hit>>, turns: nat)
    ensures forall t :: t in Turns(per, turns) <==> t.place < turns && Valid(per, t)
    ensures Pairwise(Turns(per, turns), (a, b) => Before(a, b))
  {
    if turns > 0 {
      TurnsHas(per, turns - 1);
      TurnHas(per, |per|, turns - 1);
      PairwiseAppend(Turns(per, turns - 1), Turn(per, |per|, turns - 1));
    }
  }

  // ---- the order the code computes -----------------------------------------------------

  function ListTags(list: nat, n: nat): seq<Tag> {
    if n == 0 then [] else ListTags(list, n - 1) + [Tag(list, n - 1)]
  }

  /** The tags in the order in which the nested loops meet them. */
  function FusedTags(per: seq<seq<Hit>>, n: nat): seq<Tag>
    requires n <= |per|
  {
    if n == 0 then [] else FusedTags(per, n - 1) + ListTags(n - 1, |per[n - 1]|)
  }

  predicate Met(a: Tag, b: Tag) {
    a.list < b.list || (a.list == b.list && a.place < b.place)
  }

  lemma {:induction false} ListTagsAre(list: nat, n: nat)
    ensures |ListTags(list, n)| == n && forall i :: 0 <= i < n ==> ListTags(list, n)[i] == Tag(list, i)
  {
    if n > 0 { ListTagsAre(list, n - 1); }
  }

  lemma {:induction false} FusedHas(per: seq<seq<Hit>>, n: nat)
    requires n <= |per|
    ensures forall t :: t in FusedTags(per, n) <==> t.list < n && Valid(per, t)
    ensures Pairwise(FusedTags(per, n), (a, b) => Met(a, b))
  {
    if n > 0 {
      FusedHas(per, n - 1);
      var more := ListTags(n - 1, |per[n - 1]|);
      ListTagsAre(n - 1, |per[n - 1]|);
      forall t ensures t in more <==> t.list == n - 1 && Valid(per, t) {
        if t.list == n - 1 && Valid(per, t) { assert more[t.place] == t; }
      }
      MetAppend(FusedTags(per, n - 1), more);
    }
  }

  lemma MetAppend(a: seq<Tag>, b: seq<Tag>)
    requires Pairwise(a, (x, y) => Met(x, y)) && Pairwise(b, (x, y) => Met(x, y))
    requires forall x, y :: x in a && y in b ==> Met(x, y)
    ensures Pairwise(a + b, (x, y) => Met(x, y))
  {
  }

  function TagScore(): Tag -> real {
    (t: Tag) => Rrf(t.place)
  }

  /** Sorting by reciprocal rank is taking turns. */
  lemma SortTakesTurns(per: seq<seq<Hit>>)
    ensures SortDesc(FusedTags(per, |per|), TagScore()) == Turns(per, Longest(per))
  {
    hide SortDesc, Turns, FusedTags, Rrf;
    var xs, before := FusedTags(per, |per|), (a, b) => Before(a, b);
    FusedHas(per, |per|);
    forall j | 0 <= j < |xs| ensures Decides(xs[..j], xs[j], TagScore(), before) {
      forall y | y in xs[..j] ensures if TagScore()(y) >= TagScore()(xs[j]) then before(y, xs[j]) else before(xs[j], y) {
        assert Met(y, xs[j]);
        RrfFalls(y.place, xs[j].place);
        RrfFalls(xs[j].place, y.place);
      }
    }
    SortIsStable(xs, TagScore(), before);
    TurnsHas(per, Longest(per));
    OneArrangement(SortDesc(xs, TagScore()), Turns(per, Longest(per)), before);
  }

  // ---- the merge -----------------------------------------------------------------------

  function Contributing(per: seq<seq<Hit>>): seq<seq<Hit>> {
    if per == [] then []
    else
      var init, last := Contributing(per[..|per| - 1]), per[|per| - 1];
      if last == [] then init else init + [last]
  }

  /** What becomes of the result at `t` when it comes out at place `m`: its own score is kept when
      a single collection contributed. */
  function Ranked(per: seq<seq<Hit>>, t: Tag, m: nat): Hit
    requires Valid(per, t)
  {
    var h := per[t.list][t.place];
    Hit(h.col, h.chunk, if |Contributing(per)| == 1 then h.score else Rrf(t.place), m + 1)
  }

  /** Taking turns, numbered from 1. */
  function Merged(per: seq<seq<Hit>>): seq<Hit> {
    var tags := Turns(per, Longest(per));
    TurnsHas(per, Longest(per));
    seq(|tags|, m requires 0 <= m < |tags| => assert tags[m] in tags; Ranked(per, tags[m], m))
  }

  function HitOf(per: seq<seq<Hit>>): Tag -> Hit {
    (t: Tag) => if Valid(per, t) then per[t.list][t.place].(score := Rrf(t.place)) else Hit(0, 0, Rrf(t.place), 0)
  }

  lemma MapSnoc(xs: seq<Tag>, t: Tag, f: Tag -> Hit)
    ensures Map(xs + [t], f) == Map(xs, f) + [f(t)]
  {
  }

  lemma MapNone(f: Tag -> Hit)
    ensures Map([], f) == []
  {
  }

  method FuseAll(per: seq<seq<Hit>>) returns (fused: seq<Hit>)
    ensures fused == Map(FusedTags(per, |per|), HitOf(per))
  {
    hide Map, HitOf, Rrf;
    fused := [];
    ghost var f := HitOf(per);
    MapNone(f);
    for i := 0 to |per|
      invariant fused == Map(FusedTags(per, i), f)
    {
      assert FusedTags(per, i) + ListTags(i, 0) == FusedTags(per, i);
      for r := 0 to |per[i]|
        invariant fused == Map(FusedTags(per, i) + ListTags(i, r), f)
      {
        MapSnoc(FusedTags(per, i) + ListTags(i, r), Tag(i, r), f);
        assert FusedTags(per, i) + ListTags(i, r + 1) == (FusedTags(per, i) + ListTags(i, r)) + [Tag(i, r)];
        HitOfValid(per, Tag(i, r));
        fused := fused + [per[i][r].(score := Rrf(r))];
      }
    }
  }

  lemma HitOfValid(per: seq<seq<Hit>>, t: Tag)
    requires Valid(per, t)
    ensures HitOf(per)(t) == per[t.list][t.place].(score := Rrf(t.place))
  {
  }

  lemma {:induction false} NobodyContributes(per: seq<seq<Hit>>)
    ensures Contributing(per) == [] <==> forall j :: 0 <= j < |per| ==> per[j] == []
  {
    if per != [] {
      var init := per[..|per| - 1];
      NobodyContributes(init);
      assert forall j :: 0 <= j < |init| ==> init[j] == per[j];
    }
  }

  lemma {:induction false} SoleContributor(per: seq<seq<Hit>>) returns (i: nat)
    requires |Contributing(per)| == 1
    ensures i < |per| && per[i] == Contributing(per)[0] && forall j :: 0 <= j < |per| && j != i ==> per[j] == []
  {
    var init := per[..|per| - 1];
    assert forall j :: 0 <= j < |init| ==> init[j] == per[j];
    if per[|per| - 1] == [] {
      i := SoleContributor(init);
    } else {
      i := |per| - 1;
      NobodyContributes(init);
    }
  }

  /** The turns of a single collection are its own order. */
  lemma OneContributes(per: seq<seq<Hit>>, i: nat)
    requires i < |per| && forall j :: 0 <= j < |per| && j != i ==> per[j] == []
    ensures Turns(per, Longest(per)) == ListTags(i, |per[i]|)
  {
    hide Turns, Longest;
    var a, b, before := Turns(per, Longest(per)), ListTags(i, |per[i]|), (a, b) => Before(a, b);
    TurnsHas(per, Longest(per));
    ListTagsAre(i, |per[i]|);
    forall t ensures t in a <==> t in b {
      if Valid(per, t) { assert b[t.place] == Tag(i, t.place); }
    }
    OneArrangement(a, b, before);
  }

  method Renumber(ordered: seq<Hit>) returns (out: seq<Hit>)
    ensures |out| == |ordered| && forall m :: 0 <= m < |out| ==> out[m] == ordered[m].(rank := m + 1)
  {
    out := [];
    for m := 0 to |ordered|
      invariant |out| == m && forall l :: 0 <= l < m ==> out[l] == ordered[l].(rank := l + 1)
    {
      out := out + [ordered[m].(rank := m + 1)];
    }
  }

  /** `_merge_collections_rrf` */
  method MergeCollectionsRrf(per: seq<seq<Hit>>) returns (out: seq<Hit>)
    ensures out == Merged(per)
  {
    hide SortDesc, Turns, FusedTags, Rrf, Longest;
    TurnsHas(per, Longest(per));
    var contributing := Contributing(per);
    if |contributing| == 1 {
      out := Renumber(contributing[0]);
      var i := SoleContributor(per);
      OneContributes(per, i);
      ListTagsAre(i, |per[i]|);
      return;
    }
    var fused := FuseAll(per);
    var ordered := SortDesc(fused, (h: Hit) => h.score);
    SortMap(FusedTags(per, |per|), HitOf(per), (h: Hit) => h.score, TagScore());
    SortTakesTurns(per);
    out := Renumber(ordered);
  }

  lemma {:induction false} ContributorsCount(per: seq<seq<Hit>>, i: nat)
    requires i < |per| && per[i] != []
    ensures |Contributing(per)| == 1 <==> forall j :: 0 <= j < |per| && j != i ==> per[j] == []
  {
    var init, last := per[..|per| - 1], per[|per| - 1];
    assert forall j :: 0 <= j < |init| ==> init[j] == per[j];
    NobodyContributes(init);
    if i < |init| { ContributorsCount(init, i); }
    if last != [] && i < |init| { assert per[|per| - 1] != [] && init[i] != []; }
  }

  /** A sole contributing collection comes out as its own list: same order, same scores, ranks from 1. */
  lemma SoleListIsKept(per: seq<seq<Hit>>, i: nat)
    requires i < |per| && per[i] != [] && forall j :: 0 <= j < |per| && j != i ==> per[j] == []
    ensures |Merged(per)| == |per[i]|
    ensures forall m :: 0 <= m < |per[i]| ==>
      Merged(per)[m] == Hit(per[i][m].col, per[i][m].chunk, per[i][m].score, m + 1)
  {
    hide Turns, Longest, Contributing, Rrf;
    ContributorsCount(per, i);
    OneContributes(per, i);
    ListTagsAre(i, |per[i]|);
  }

  /** When two collections or more contribute, the answer takes turns: everything appears once, by
      place and then by collection, scored `1 / (60 + place)` with places counted from 1. */
  lemma SeveralTakeTurns(per: seq<seq<Hit>>, i: nat, j: nat) returns (tags: seq<Tag>)
    requires i < j < |per| && per[i] != [] && per[j] != []
    ensures |tags| == |Merged(per)| && forall t :: t in tags <==> t.list < |per| && t.place < |per[t.list]|
    ensures forall m, n :: 0 <= m < n < |tags| ==>
      tags[m].place < tags[n].place || (tags[m].place == tags[n].place && tags[m].list < tags[n].list)
    ensures forall m :: 0 <= m < |tags| ==>
      && tags[m].list < |per| && tags[m].place < |per[tags[m].list]|
      && Merged(per)[m] == Hit(per[tags[m].list][tags[m].place].col, per[tags[m].list][tags[m].place].chunk,
                               1.0 / (60 + (tags[m].place + 1)) as real, m + 1)
  {
    hide Turns, Longest, Contributing;
    tags := Turns(per, Longest(per));
    TurnsHas(per, Longest(per));
    ContributorsCount(per, i);
    assert forall m :: 0 <= m < |tags| ==> tags[m] in tags;
  }

  // ---- cutting before merging ----------------------------------------------------------

  function Take<T>(xs: seq<T>, k: nat): seq<T> {
    if |xs| <= k then xs else xs[..k]
  }

  /** `search_collection`'s own cut, in each collection. */
  function Cut(per: seq<seq<Hit>>, k: nat): seq<seq<Hit>> {
    seq(|per|, i requires 0 <= i < |per| => Take(per[i], k))
  }

  lemma {:induction false} TurnOfCut(per: seq<seq<Hit>>, k: nat, n: nat, place: nat)
    requires n <= |per|
    ensures Turn(Cut(per, k), n, place) == if place < k then Turn(per, n, place) else []
  {
    hide Turn;
    CutSize(per, k);
    TurnStep(per, n, place);
    TurnStep(Cut(per, k), n, place);
    if n > 0 { TurnOfCut(per, k, n - 1, place); }
  }

  lemma NoTurns(per: seq<seq<Hit>>, k: nat)
    ensures Turns(Cut(per, k), 0) == Turns(per, 0)
  {
  }

  lemma CutSize(per: seq<seq<Hit>>, k: nat)
    ensures |Cut(per, k)| == |per|
  {
  }

  lemma {:induction false} TurnsOfCut(per: seq<seq<Hit>>, k: nat, turns: nat)
    ensures Turns(Cut(per, k), turns) == Turns(per, if turns < k then turns else k)
  {
    hide Turn, Turns, Cut;
    if turns == 0 {
      NoTurns(per, k);
    } else {
      TurnsStep(per, turns - 1);
      TurnsStep(Cut(per, k), turns - 1);
      TurnsOfCut(per, k, turns - 1);
      TurnOfCut(per, k, |per|, turns - 1);
      assert |Cut(per, k)| == |per| by { CutSize(per, k); }
      assert turns > k ==> Turns(per, k) + [] == Turns(per, k);
    }
  }

  lemma {:induction false} TurnsPrefix(per: seq<seq<Hit>>, r: nat, s: nat)
    requires r <= s
    ensures Turns(per, r) <= Turns(per, s)
  {
    if r < s { TurnsPrefix(per, r, s - 1); }
  }

  lemma NoTurn(per: seq<seq<Hit>>, place: nat)
    requires forall i :: 0 <= i < |per| ==> |per[i]| <= place
    ensures Turn(per, |per|, place) == []
  {
    var turn := Turn(per, |per|, place);
    assert turn == [] || turn[0] in turn;
    TurnHas(per, |per|, place);
  }

  /** Once every collection is used up, more turns add nothing. */
  lemma {:induction false} TurnsSettle(per: seq<seq<Hit>>, r: nat, s: nat)
    requires r <= s && forall i :: 0 <= i < |per| ==> |per[i]| <= r
    ensures Turns(per, r) == Turns(per, s)
  {
    if r < s {
      TurnsSettle(per, r, s - 1);
      NoTurn(per, s - 1);
    }
  }

  lemma TurnsStep(per: seq<seq<Hit>>, k: nat)
    ensures Turns(per, k + 1) == Turns(per, k) + Turn(per, |per|, k)
  {
  }

  /** `k` turns give `k` results, unless every collection is shorter than `k`. */
  lemma {:induction false} TurnsAreFull(per: seq<seq<Hit>>, k: nat, i: nat)
    requires i < |per| && k <= |per[i]|
    ensures |Turns(per, k)| >= k
  {
    hide Turn, Turns;
    if k > 0 {
      TurnsStep(per, k - 1);
      TurnsAreFull(per, k - 1, i);
      TurnHas(per, |per|, k - 1);
      assert Tag(i, k - 1) in Turn(per, |per|, k - 1);
    }
  }

  lemma TopTags(per: seq<seq<Hit>>, k: nat)
    ensures Take(Turns(per, Longest(per)), k) == Take(Turns(per, k), k)
  {
    hide Turns, Longest;
    TurnsSettle(per, Longest(per), Longest(per) + k);
    TurnsPrefix(per, k, Longest(per) + k);
    if i :| 0 <= i < |per| && k <= |per[i]| {
      TurnsAreFull(per, k, i);
    } else {
      TurnsSettle(per, k, Longest(per) + k);
    }
  }

  lemma {:induction false} SameContributing(per: seq<seq<Hit>>, k: nat)
    requires k > 0
    ensures |Contributing(Cut(per, k))| == |Contributing(per)|
  {
    if per != [] {
      SameContributing(per[..|per| - 1], k);
      assert Cut(per, k)[..|per| - 1] == Cut(per[..|per| - 1], k);
    }
  }

  /** Cutting every collection to `k` before the merge never changes the merged top `k`. */
  lemma CutFirst(per: seq<seq<Hit>>, k: nat)
    ensures Take(Merged(Cut(per, k)), k) == Take(Merged(per), k)
  {
    hide Turns, Longest, Contributing;
    var cut := Cut(per, k);
    TopTags(per, k);
    TopTags(cut, k);
    TurnsOfCut(per, k, k);
    if k > 0 { SameContributing(per, k); }
    TurnsHas(per, Longest(per));
    TurnsHas(cut, Longest(cut));
    TakenAgree(per, k);
  }

  lemma TakenAgree(per: seq<seq<Hit>>, k: nat)
    requires var cut := Cut(per, k);
      && (k > 0 ==> |Contributing(cut)| == |Contributing(per)|)
      && Take(Turns(cut, Longest(cut)), k) == Take(Turns(per, Longest(per)), k)
    ensures Take(Merged(Cut(per, k)), k) == Take(Merged(per), k)
  {
    hide Turns, Longest, Contributing;
    var cut := Cut(per, k);
    var a, b := Turns(per, Longest(per)), Turns(cut, Longest(cut));
    TurnsHas(per, Longest(per));
    TurnsHas(cut, Longest(cut));
    assert |Take(a, k)| == |Take(b, k)|;
    forall m | 0 <= m < |Take(a, k)| ensures Merged(cut)[m] == Merged(per)[m] {
      assert a[m] == Take(a, k)[m] == Take(b, k)[m] == b[m];
      assert a[m] in a && b[m] in b;
      assert Merged(per)[m] == Ranked(per, a[m], m);
      assert Merged(cut)[m] == Ranked(cut, b[m], m);
    }
  }

  // ---- contributions -------------------------------------------------------------------

  function Count(tags: seq<Tag>, i: nat): nat {
    if tags == [] then 0 else Count(tags[..|tags| - 1], i) + if tags[|tags| - 1].list == i then 1 else 0
  }

  lemma {:induction false} CountAppend(a: seq<Tag>, b: seq<Tag>, i: nat)
    ensures Count(a + b, i) == Count(a, i) + Count(b, i)
  {
    if b == [] {
      assert a + b == a;
    } else {
      assert (a + b)[..|a + b| - 1] == a + b[..|b| - 1];
      CountAppend(a, b[..|b| - 1], i);
    }
  }

  lemma TurnStep(per: seq<seq<Hit>>, n: nat, place: nat)
    requires n <= |per|
    ensures Turn(per, n, place) ==
      if n == 0 then [] else Turn(per, n - 1, place) + if place < |per[n - 1]| then [Tag(n - 1, place)] else []
  {
  }

  lemma {:induction false} CountTurn(per: seq<seq<Hit>>, n: nat, place: nat, i: nat)
    requires n <= |per|
    ensures Count(Turn(per, n, place), i) == if i < n && place < |per[i]| then 1 else 0
  {
    hide Turn, Count;
    TurnStep(per, n, place);
    CountFew([], i);
    if n > 0 {
      CountTurn(per, n - 1, place, i);
      var last := if place < |per[n - 1]| then [Tag(n - 1, place)] else [];
      CountAppend(Turn(per, n - 1, place), last, i);
      CountFew(last, i);
    }
  }

  lemma CountFew(last: seq<Tag>, i: nat)
    ensures last == [] ==> Count(last, i) == 0
    ensures |last| == 1 ==> Count(last, i) == if last[0].list == i then 1 else 0
  {
    if |last| == 1 { assert last[..0] == []; }
  }

  lemma {:induction false} CountTurns(per: seq<seq<Hit>>, turns: nat, i: nat)
    requires i < |per|
    ensures Count(Turns(per, turns), i) == if turns < |per[i]| then turns else |per[i]|
  {
    hide Count, Turn;
    CountFew([], i);
    if turns > 0 {
      CountTurns(per, turns - 1, i);
      CountTurn(per, |per|, turns - 1, i);
      CountAppend(Turns(per, turns - 1), Turn(per, |per|, turns - 1), i);
    }
  }

  lemma CountPrefix(a: seq<Tag>, b: seq<Tag>, i: nat)
    requires a <= b
    ensures Count(a, i) <= Count(b, i)
  {
    assert b == a + b[|a|..];
    CountAppend(a, b[|a|..], i);
  }

  /** The turn during which the `k`th result came out. */
  lemma {:induction false} TurnOf(per: seq<seq<Hit>>, s: nat, k: nat) returns (r: nat)
    requires k <= |Turns(per, s)|
    ensures r <= s && |Turns(per, r)| <= k <= |Turns(per, r + 1)|
  {
    if s == 0 || k == |Turns(per, s)| {
      TurnsPrefix(per, s, s + 1);
      return s;
    }
    if k >= |Turns(per, s - 1)| { return s - 1; }
    r := TurnOf(per, s - 1, k);
  }

  /** A cut takes from collections that are not used up within one of each other. */
  lemma FairCut(per: seq<seq<Hit>>, k: nat, i: nat, j: nat)
    requires i < |per| && j < |per|
    ensures var taken := Take(Turns(per, Longest(per)), k);
      Count(taken, i) <= Count(taken, j) + 1 || Count(taken, j) == |per[j]|
  {
    hide Turns, Longest, Count;
    var all := Turns(per, Longest(per));
    var taken := Take(all, k);
    var r := TurnOf(per, Longest(per), |taken|);
    TurnsSettle(per, Longest(per), Longest(per) + 1);
    TurnsPrefix(per, r, Longest(per) + 1);
    TurnsPrefix(per, r + 1, Longest(per) + 1);
    assert Turns(per, r) <= taken <= Turns(per, r + 1);
    CountPrefix(Turns(per, r), taken, j);
    CountPrefix(taken, Turns(per, r + 1), i);
    CountPrefix(taken, all, j);
    CountTurns(per, r, j);
    CountTurns(per, r + 1, i);
    CountTurns(per, Longest(per), j);
  }

  function CountHits(hits: seq<Hit>, col: ColId): nat {
    if hits == [] then 0 else CountHits(hits[..|hits| - 1], col) + if hits[|hits| - 1].col == col then 1 else 0
  }

  lemma {:induction false} CountHitsIs(hits: seq<Hit>, col: ColId)
    ensures CountHits(hits, col) == |set m | 0 <= m < |hits| && hits[m].col == col|
  {
    if hits != [] {
      var init, last := hits[..|hits| - 1], |hits| - 1;
      CountHitsIs(init, col);
      var before, all := set m | 0 <= m < |init| && init[m].col == col, set m | 0 <= m < |hits| && hits[m].col == col;
      assert all == if hits[last].col == col then before + {last} else before;
    }
  }

  /** `_update_top_k_stats`: `stats` counts, per collection, what it contributed. */
  method UpdateTopKStats(final: seq<Hit>, stats: map<ColId, nat>) returns (after: map<ColId, nat>)
    ensures after.Keys == stats.Keys
    ensures forall c :: c in stats ==> after[c] == stats[c] + |set m | 0 <= m < |final| && final[m].col == c|
  {
    forall c ensures CountHits(final, c) == |set m | 0 <= m < |final| && final[m].col == c| { CountHitsIs(final, c); }
    after := stats;
    for m := 0 to |final|
      invariant after.Keys == stats.Keys
      invariant forall c :: c in stats ==> after[c] == stats[c] + CountHits(final[..m], c)
    {
      assert final[..m + 1][..m] == final[..m];
      var c := final[m].col;
      if c in after { after := after[c := after[c] + 1]; }
    }
    assert final[..|final|] == final;
  }

  /** Every result of the `i`th list carries the `i`th collection, and no collection comes twice. */
  predicate Sourced(per: seq<seq<Hit>>, known: seq<ColId>) {
    && |known| == |per|
    && (forall i, m :: 0 <= i < |per| && 0 <= m < |per[i]| ==> per[i][m].col == known[i])
    && forall i, j :: 0 <= i < j < |known| ==> known[i] != known[j]
  }

  lemma {:induction false} CountsAgree(per: seq<seq<Hit>>, known: seq<ColId>, tags: seq<Tag>, hits: seq<Hit>, i: nat)
    requires Sourced(per, known) && i < |per| && |tags| == |hits|
    requires forall m :: 0 <= m < |tags| ==> Valid(per, tags[m]) && hits[m].col == per[tags[m].list][tags[m].place].col
    ensures CountHits(hits, known[i]) == Count(tags, i)
  {
    if tags != [] {
      CountsAgree(per, known, tags[..|tags| - 1], hits[..|hits| - 1], i);
      var t := tags[|tags| - 1];
      assert hits[|hits| - 1].col == known[t.list];
    }
  }

  /** The statistics of a cut are fair: a collection contributes at most one result more than any
      other, unless the other has none left. */
  lemma ContributionsAreFair(per: seq<seq<Hit>>, known: seq<ColId>, k: nat, i: nat, j: nat)
    requires Sourced(per, known) && i < |per| && j < |per|
    ensures var final := Take(Merged(per), k);
      || CountHits(final, known[i]) <= CountHits(final, known[j]) + 1
      || CountHits(final, known[j]) == |per[j]|
  {
    hide Turns, Longest, Count, CountHits, Contributing, Sourced;
    var tags := Turns(per, Longest(per));
    TurnsHas(per, Longest(per));
    FairCut(per, k, i, j);
    assert forall m :: 0 <= m < |tags| ==> tags[m] in tags;
    CountsAgree(per, known, Take(tags, k), Take(Merged(per), k), i);
    CountsAgree(per, known, Take(tags, k), Take(Merged(per), k), j);
  }

  function SumOver(hits: seq<Hit>, known: seq<ColId>): nat {
    if known == [] then 0 else CountHits(hits, known[0]) + SumOver(hits, known[1..])
  }

  lemma {:induction false} SumSnoc(hits: seq<Hit>, h: Hit, known: seq<ColId>)
    requires forall i, j :: 0 <= i < j < |known| ==> known[i] != known[j]
    ensures SumOver(hits + [h], known) == SumOver(hits, known) + if h.col in known then 1 else 0
  {
    if known != [] {
      SumSnoc(hits, h, known[1..]);
      assert (hits + [h])[..|hits|] == hits;
    }
  }

  lemma {:induction false} SumIsLength(hits: seq<Hit>, known: seq<ColId>)
    requires forall i, j :: 0 <= i < j < |known| ==> known[i] != known[j]
    requires forall m :: 0 <= m < |hits| ==> hits[m].col in known
    ensures SumOver(hits, known) == |hits|
  {
    if hits == [] {
      SumNone(known);
    } else {
      var init, h := hits[..|hits| - 1], hits[|hits| - 1];
      assert hits == init + [h];
      SumIsLength(init, known);
      SumSnoc(init, h, known);
    }
  }

  lemma {:induction false} SumNone(known: seq<ColId>)
    ensures SumOver([], known) == 0
  {
    if known != [] { SumNone(known[1..]); }
  }

  /** The contributions of a cut add up to its length. */
  lemma ContributionsSum(per: seq<seq<Hit>>, known: seq<ColId>, k: nat)
    requires Sourced(per, known)
    ensures SumOver(Take(Merged(per), k), known) == |Take(Merged(per), k)|
  {
    hide Turns, Longest, CountHits, Contributing, SumOver;
    var tags := Turns(per, Longest(per));
    TurnsHas(per, Longest(per));
    forall m | 0 <= m < |Merged(per)| ensures Merged(per)[m].col in known {
      assert tags[m] in tags;
      assert Merged(per)[m].col == known[tags[m].list];
    }
    SumIsLength(Take(Merged(per), k), known);
  }

  // ---- is there more? ------------------------------------------------------------------

  function Total(per: seq<seq<Hit>>): nat {
    if per == [] then 0 else Total(per[..|per| - 1]) + |per[|per| - 1]|
  }

  lemma {:induction false} FusedSize(per: seq<seq<Hit>>, n: nat)
    requires n <= |per|
    ensures |FusedTags(per, n)| == Total(per[..n])
  {
    if n > 0 {
      FusedSize(per, n - 1);
      ListTagsAre(n - 1, |per[n - 1]|);
      assert per[..n][..n - 1] == per[..n - 1];
    }
  }

  lemma MergedSize(per: seq<seq<Hit>>)
    ensures |Merged(per)| == Total(per)
  {
    hide Turns, Longest, FusedTags, SortDesc, Contributing, Total;
    SortTakesTurns(per);
    SortSize(FusedTags(per, |per|));
    FusedSize(per, |per|);
    assert per[..|per|] == per;
    TurnsHas(per, Longest(per));
  }

  lemma SortSize(xs: seq<Tag>)
    ensures |SortDesc(xs, TagScore())| == |xs|
  {
    hide SortDesc;
    SortIsStable(xs, TagScore(), (a, b) => true);
  }

  /** `_more_available`; `pool` counts what every collection had before its cut. */
  predicate MoreAvailable(final: seq<Hit>, pool: nat) {
    && pool > |final| && |final| >= 2
    && final[0].score > 0.0 && final[|final| - 1].score >= 0.9 * final[0].score
  }

  /** The answer to a search: every collection's full ranking cut to `k`, merged, cut again. */
  function Answer(full: seq<seq<Hit>>, k: nat): seq<Hit> {
    Take(Merged(Cut(full, k)), k)
  }

  /** Exactly `k` results come back, or everything there is. */
  lemma AnswerSize(full: seq<seq<Hit>>, k: nat)
    ensures |Answer(full, k)| == if Total(full) < k then Total(full) else k
  {
    hide Merged, Total;
    CutFirst(full, k);
    MergedSize(full);
  }

  /** When more is announced, the answer holds exactly `k` results and strictly more exist. */
  lemma MoreMeansFull(full: seq<seq<Hit>>, k: nat)
    ensures MoreAvailable(Answer(full, k), Total(full)) ==> |Answer(full, k)| == k && Total(full) > k
  {
    hide Answer, Total;
    AnswerSize(full, k);
  }

  lemma FirstPlace(per: seq<seq<Hit>>)
    requires Turns(per, Longest(per)) != []
    ensures Turns(per, Longest(per))[0].place == 0
  {
    hide Turns, Longest;
    var tags := Turns(per, Longest(per));
    TurnsHas(per, Longest(per));
    assert tags[0] in tags;
    assert forall q :: 0 < q < |tags| ==> Before(tags[0], tags[q]);
    var t := Tag(tags[0].list, 0);
    assert t in tags;
    var m :| 0 <= m < |tags| && tags[m] == t;
  }

  lemma PlateauBound(p: nat)
    ensures Rrf(p) >= 0.9 * Rrf(0) <==> p <= 6
  {
    if p <= 6 {
      if p < 6 { RrfLess(p, 6); }
      assert Rrf(6) >= 0.9 * Rrf(0);
    } else {
      if p > 7 { RrfLess(7, p); }
      assert Rrf(7) < 0.9 * Rrf(0);
    }
  }

  /** Across collections the plateau is a matter of places, not of relevance: more is announced
      exactly when the last result was among the first seven of its collection. */
  lemma MoreIsByPlace(full: seq<seq<Hit>>, k: nat)
    requires |Contributing(full)| != 1
    ensures MoreAvailable(Answer(full, k), Total(full)) <==>
      2 <= k < Total(full) && |Turns(full, Longest(full))| >= k && Turns(full, Longest(full))[k - 1].place <= 6
  {
    hide Turns, Longest, Total, Contributing, Rrf, Cut;
    AnswerSize(full, k);
    CutFirst(full, k);
    MergedSize(full);
    var tags := Turns(full, Longest(full));
    TurnsHas(full, Longest(full));
    if 2 <= k < Total(full) {
      FirstPlace(full);
      PlateauBound(tags[k - 1].place);
      RrfPositive();
      assert tags[0] in tags && tags[k - 1] in tags;
      assert Merged(full)[0] == Ranked(full, tags[0], 0);
      assert Merged(full)[k - 1] == Ranked(full, tags[k - 1], k - 1);
    }
  }

  /** With one contributing collection it is a matter of relevance: more is announced exactly when the
      last result scores at least nine tenths of a positive first one. */
  lemma MoreIsByScore(full: seq<seq<Hit>>, k: nat, i: nat)
    requires i < |full| && full[i] != [] && forall j :: 0 <= j < |full| && j != i ==> full[j] == []
    ensures MoreAvailable(Answer(full, k), Total(full)) <==>
      2 <= k < |full[i]| && full[i][0].score > 0.0 && full[i][k - 1].score >= 0.9 * full[i][0].score
  {
    hide Total, Cut, Merged;
    AnswerSize(full, k);
    CutFirst(full, k);
    MergedSize(full);
    SoleListIsKept(full, i);
  }

  lemma RrfPositive()
    ensures Rrf(0) > 0.0
  {
  }
}
