/** The reorder step shared by every reranker: score the head, sort it, keep the tail, renumber. */
module Rerank {
  import opened Ids
  import opened Ordering

  datatype Hit = Hit(chunk: nat, score: real, rank: nat)

  /** What a provider may return for one text. */
  datatype Raw = Finite(value: real) | NotFinite | NotNumeric

  predicate AllNumeric(raw: seq<Raw>) {
    forall r :: r in raw ==> !r.NotNumeric?
  }

  predicate AnyFinite(raw: seq<Raw>) {
    exists r :: r in raw && r.Finite?
  }

  /** The lowest finite score of the batch, 0 if there is none. */
  function Floor(raw: seq<Raw>): (floor: real)
    ensures AnyFinite(raw) ==> Finite(floor) in raw && forall r :: r in raw && r.Finite? ==> floor <= r.value
    ensures !AnyFinite(raw) ==> floor == 0.0
  {
    if raw == [] then 0.0
    else
      var init, last := raw[..|raw| - 1], raw[|raw| - 1];
      assert raw == init + [last];
      var low := Floor(init);
      if last.Finite? && (!AnyFinite(init) || last.value < low) then last.value else low
  }

  /** `_finite_scores` */
  function FiniteScores(raw: seq<Raw>): (scores: seq<real>)
    requires AllNumeric(raw)
    ensures |scores| == |raw|
    ensures forall i :: 0 <= i < |raw| && raw[i].Finite? ==> scores[i] == raw[i].value
    ensures forall i, j :: 0 <= i < |raw| && 0 <= j < |raw| && !raw[i].Finite? ==> scores[i] <= scores[j]
    ensures forall i :: 0 <= i < |raw| && !raw[i].Finite? ==>
      if exists r :: r in raw && r.Finite? then Finite(scores[i]) in raw else scores[i] == 0.0
  {
    assert forall j :: 0 <= j < |raw| && raw[j].Finite? ==> raw[j] in raw;
    seq(|raw|, i requires 0 <= i < |raw| => if raw[i].Finite? then raw[i].value else Floor(raw))
  }

  /** Where Python's `results[:n]` ends. */
  function Cut(length: nat, n: int): nat {
    if n >= 0 then (if n < length then n else length) else (if length + n > 0 then length + n else 0)
  }

  function Positions(n: nat): seq<nat> {
    seq(n, i requires 0 <= i < n => i)
  }

  function ScoreAt(scores: seq<real>): nat -> real {
    (p: nat) => if p < |scores| then scores[p] else 0.0
  }

  /** The head's positions in their new order. */
  function NewOrder(scores: seq<real>): seq<nat> {
    SortDesc(Positions(|scores|), ScoreAt(scores))
  }

  predicate Above(scores: seq<real>, p: nat, q: nat) {
    ScoreAt(scores)(p) > ScoreAt(scores)(q) || (ScoreAt(scores)(p) == ScoreAt(scores)(q) && p < q)
  }

  /** The new order lists every position once, higher scores first, ties in their incoming order. */
  lemma NewOrderIsStable(scores: seq<real>)
    ensures |NewOrder(scores)| == |scores|
    ensures forall p: nat :: p in NewOrder(scores) <==> p < |scores|
    ensures forall i, j :: 0 <= i < j < |NewOrder(scores)| ==> Above(scores, NewOrder(scores)[i], NewOrder(scores)[j])
  {
    hide SortDesc;
    var xs := Positions(|scores|);
    var before := (p: nat, q: nat) => Above(scores, p, q);
    SortIsStable(xs, ScoreAt(scores), before);
    forall p: nat ensures p in NewOrder(scores) <==> p < |scores| {
      if p < |scores| { assert xs[p] == p; }
      assert p in NewOrder(scores) <==> p in xs;
    }
  }

  /** What a successful rerank returns. */
  ghost predicate Reranked(results: seq<Hit>, scores: seq<real>, out: seq<Hit>)
    requires |scores| <= |results|
  {
    && |out| == |results| && |NewOrder(scores)| == |scores|
    && (forall m :: 0 <= m < |scores| ==>
          NewOrder(scores)[m] < |scores|
          && out[m] == results[NewOrder(scores)[m]].(score := scores[NewOrder(scores)[m]], rank := m + 1))
    && forall m :: |scores| <= m < |results| ==> out[m] == results[m].(rank := m + 1)
  }

  /** `rerank_by_scores`; `raw` is `None` when the provider raised. */
  method RerankByScores(results: seq<Hit>, topN: int, raw: Option<seq<Raw>>) returns (out: seq<Hit>)
    ensures var n := if topN >= |results| then |results| else if topN >= 0 then topN
                     else if topN + |results| > 0 then topN + |results| else 0;
      if |results| < 2 || raw.None? || |raw.value| != n || (exists r :: r in raw.value && r.NotNumeric?) then out == results
      else
        var scores := FiniteScores(raw.value); var order := NewOrder(scores);
        && |order| == n && |out| == |results|
        && (forall m :: 0 <= m < n ==>
              order[m] < n && out[m] == Hit(results[order[m]].chunk, scores[order[m]], m + 1))
        && forall m :: n <= m < |results| ==> out[m] == Hit(results[m].chunk, results[m].score, m + 1)
  {
    hide NewOrder, AllNumeric, FiniteScores, Reranked;
    var n := Cut(|results|, topN);
    if raw.Some? { NumericMeans(raw.value); }
    if |results| < 2 || raw.None? || |raw.value| != n || !AllNumeric(raw.value) { return results; }
    var scores := FiniteScores(raw.value);
    out := Reorder(results, scores);
    RerankedMeans(results, scores, out);
  }

  lemma NumericMeans(raw: seq<Raw>)
    ensures AllNumeric(raw) <==> !exists r :: r in raw && r.NotNumeric?
  {
  }

  /** Score the head, sort it, put the tail behind it and renumber. */
  method Reorder(results: seq<Hit>, scores: seq<real>) returns (out: seq<Hit>)
    requires |scores| <= |results|
    ensures Reranked(results, scores, out)
  {
    hide NewOrder, Reranked, Zip, SortDesc;
    var head, tail := results[..|scores|], results[|scores|..];
    var pairs := Zip(head, scores);
    var rankedHead := SortDesc(pairs, (pair: (Hit, real)) => pair.1);
    SortedPairs(head, scores, rankedHead);
    NewOrderIsStable(scores);
    out := WithScores(rankedHead);
    out := Renumber(out + tail);
    HeadThenTail(results, scores, rankedHead, out);
  }

  lemma HeadThenTail(results: seq<Hit>, scores: seq<real>, ranked: seq<(Hit, real)>, out: seq<Hit>)
    requires |scores| <= |results| == |out| && |ranked| == |NewOrder(scores)| == |scores|
    requires forall m :: 0 <= m < |ranked| ==>
      NewOrder(scores)[m] < |scores|
      && ranked[m] == (results[..|scores|][NewOrder(scores)[m]], scores[NewOrder(scores)[m]])
    requires forall m :: 0 <= m < |out| ==>
      out[m] == (if m < |ranked| then ranked[m].0.(score := ranked[m].1) else results[m]).(rank := m + 1)
    ensures Reranked(results, scores, out)
  {
    hide NewOrder;
  }

  lemma RerankedMeans(results: seq<Hit>, scores: seq<real>, out: seq<Hit>)
    requires |scores| <= |results| && Reranked(results, scores, out)
    ensures var order, n := NewOrder(scores), |scores|;
      && |order| == n && |out| == |results|
      && (forall m :: 0 <= m < n ==>
            order[m] < n && out[m] == Hit(results[order[m]].chunk, scores[order[m]], m + 1))
      && forall m :: n <= m < |results| ==> out[m] == Hit(results[m].chunk, results[m].score, m + 1)
  {
    hide NewOrder;
  }

  method WithScores(pairs: seq<(Hit, real)>) returns (out: seq<Hit>)
    ensures |out| == |pairs| && forall l :: 0 <= l < |pairs| ==> out[l] == pairs[l].0.(score := pairs[l].1)
  {
    out := [];
    for m := 0 to |pairs|
      invariant |out| == m && forall l :: 0 <= l < m ==> out[l] == pairs[l].0.(score := pairs[l].1)
    {
      out := out + [pairs[m].0.(score := pairs[m].1)];
    }
  }

  method Renumber(ordered: seq<Hit>) returns (out: seq<Hit>)
    ensures |out| == |ordered| && forall l :: 0 <= l < |ordered| ==> out[l] == ordered[l].(rank := l + 1)
  {
    out := ordered;
    for m := 0 to |ordered|
      invariant |out| == |ordered|
      invariant forall l :: 0 <= l < m ==> out[l] == ordered[l].(rank := l + 1)
      invariant forall l :: m <= l < |out| ==> out[l] == ordered[l]
    {
      out := out[m := out[m].(rank := m + 1)];
    }
  }

  function Zip(head: seq<Hit>, scores: seq<real>): seq<(Hit, real)>
    requires |head| == |scores|
  {
    seq(|head|, i requires 0 <= i < |head| => (head[i], scores[i]))
  }

  function PairAt(head: seq<Hit>, scores: seq<real>, p: nat): (Hit, real)
  {
    (if p < |head| then head[p] else Hit(0, 0.0, 0), ScoreAt(scores)(p))
  }

  lemma SortedPairs(head: seq<Hit>, scores: seq<real>, sorted: seq<(Hit, real)>)
    requires |head| == |scores| && sorted == SortDesc(Zip(head, scores), (pair: (Hit, real)) => pair.1)
    ensures |sorted| == |NewOrder(scores)| == |scores|
    ensures forall m :: 0 <= m < |sorted| ==>
      NewOrder(scores)[m] < |scores| && sorted[m] == (head[NewOrder(scores)[m]], scores[NewOrder(scores)[m]])
  {
    hide SortDesc;
    var xs := Positions(|scores|);
    var f := (p: nat) => PairAt(head, scores, p);
    assert Map(xs, f) == Zip(head, scores);
    SortMap(xs, f, (pair: (Hit, real)) => pair.1, ScoreAt(scores));
    NewOrderIsStable(scores);
    assert sorted == Map(NewOrder(scores), f);
    assert forall m :: 0 <= m < |sorted| ==> NewOrder(scores)[m] in NewOrder(scores);
  }

  /** `p` names each of `results` once, and `out` is `results` in that order, numbered from 1. */
  predicate Rearranges(p: seq<nat>, results: seq<Hit>, out: seq<Hit>) {
    && |p| == |results| == |out|
    && (forall i, j :: 0 <= i < j < |p| ==> p[i] != p[j])
    && forall m :: 0 <= m < |p| ==> p[m] < |results| && out[m].chunk == results[p[m]].chunk && out[m].rank == m + 1
  }

  /** Reranking permutes the results: every incoming chunk is there, as often as before. */
  lemma RerankPermutes(results: seq<Hit>, scores: seq<real>, out: seq<Hit>)
    requires |scores| <= |results| && Reranked(results, scores, out)
    ensures exists p :: Rearranges(p, results, out)
  {
    NewOrderIsStable(scores);
    var order := NewOrder(scores);
    var p := order + seq(|results| - |scores|, i requires 0 <= i < |results| - |scores| => i + |scores|);
    hide NewOrder;
    forall i, j | 0 <= i < j < |p| ensures p[i] != p[j] {
      if j < |order| { assert Above(scores, order[i], order[j]); }
      if i < |order| { assert order[i] in order; }
    }
    assert forall m :: 0 <= m < |order| ==> order[m] in order;
    assert Rearranges(p, results, out);
  }

  /** A text with no finite score comes after every text with one, except that ties with the lowest
      finite score keep their incoming order. */
  lemma NotFiniteSinks(raw: seq<Raw>, i: nat, j: nat)
    requires AllNumeric(raw) && i < j < |raw|
    ensures var order := NewOrder(FiniteScores(raw));
      && |order| == |raw| && order[i] < |raw| && order[j] < |raw|
      && (!raw[order[i]].Finite? && raw[order[j]].Finite? ==> raw[order[j]].value == Floor(raw) && order[i] < order[j])
  {
    var scores := FiniteScores(raw);
    NewOrderIsStable(scores);
    var order := NewOrder(scores);
    hide NewOrder, Floor;
    assert order[i] in order && order[j] in order;
    assert Above(scores, order[i], order[j]);
    if !raw[order[i]].Finite? && raw[order[j]].Finite? { FloorIsLow(raw, order[j]); }
  }

  lemma FloorIsLow(raw: seq<Raw>, p: nat)
    requires p < |raw| && raw[p].Finite?
    ensures Floor(raw) <= raw[p].value
  {
    hide Floor;
    assert raw[p] in raw && AnyFinite(raw);
    var f := Floor(raw);
  }
}
