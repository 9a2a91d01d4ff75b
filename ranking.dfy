/**
 * The list-shaping parts of recommendation_engine.py: the weighted rank
 * aggregation of `hybrid_recommend` and `EnsembleRecommender`, the
 * one-item-per-genre filter `boost_diversity`, and the ordering step of
 * `BanditRecommender.select_items_ucb`.
 *
 * Items are integers. The base recommenders (k-NN, SVD, content, trending and
 * the ensemble's models) are not modelled: their ranked lists are inputs.
 * Python's `sorted`/`list.sort` with `reverse=True` is specified by the
 * function `SortByScore` (descending, a permutation of its input).
 */
module Ranking {
  import opened Wrappers
  import opened Sequences

  // ---------------------------------------------------------------------------
  // Sorting by a score

  /** A sort key: a real score or `float('inf')`. */
  datatype Score = Inf | Fin(value: real)

  /** `a > b` on keys. */
  predicate Above(a: Score, b: Score) {
    match a
    case Inf => b.Fin?
    case Fin(x) => b.Fin? && x > b.value
  }

  /** `a >= b` on keys. */
  predicate AtLeast(a: Score, b: Score) {
    !Above(b, a)
  }

  type Scored = (int, Score)

  predicate SortedDesc(xs: seq<Scored>) {
    forall i, j :: 0 <= i < j < |xs| ==> AtLeast(xs[i].1, xs[j].1)
  }

  lemma AtLeastTransitive(a: Score, b: Score, c: Score)
    requires AtLeast(a, b) && AtLeast(b, c)
    ensures AtLeast(a, c)
  {
  }

  /** Put `x` after every entry whose key is at least its own. */
  function Insert(x: Scored, s: seq<Scored>): (r: seq<Scored>)
    requires SortedDesc(s)
    ensures multiset(r) == multiset(s) + multiset{x}
    ensures forall y :: y in r ==> y in s || y == x
    ensures SortedDesc(r)
  {
    if s == [] then [x]
    else if Above(x.1, s[0].1) then
      InsertFront(x, s);
      [x] + s
    else
      var rest := Insert(x, s[1..]);
      InsertBehind(x, s, rest);
      [s[0]] + rest
  }

  /** An entry with a key above the head's goes first. */
  lemma InsertFront(x: Scored, s: seq<Scored>)
    requires SortedDesc(s) && s != [] && Above(x.1, s[0].1)
    ensures SortedDesc([x] + s)
  {
    var r := [x] + s;
    forall i, j | 0 <= i < j < |r| ensures AtLeast(r[i].1, r[j].1) {
      if i == 0 && j > 1 {
        AtLeastTransitive(x.1, s[0].1, s[j - 1].1);
      }
    }
  }

  /** An entry with a key not above the head's goes into the tail, and the
      head stays first. */
  lemma InsertBehind(x: Scored, s: seq<Scored>, rest: seq<Scored>)
    requires SortedDesc(s) && s != [] && !Above(x.1, s[0].1)
    requires SortedDesc(rest) && multiset(rest) == multiset(s[1..]) + multiset{x}
    requires forall y :: y in rest ==> y in s[1..] || y == x
    ensures multiset([s[0]] + rest) == multiset(s) + multiset{x}
    ensures forall y :: y in [s[0]] + rest ==> y in s || y == x
    ensures SortedDesc([s[0]] + rest)
  {
    assert s == [s[0]] + s[1..];
    var r := [s[0]] + rest;
    forall i, j | 0 <= i < j < |r| ensures AtLeast(r[i].1, r[j].1) {
      assert r[j] == rest[j - 1];
      if i > 0 {
        assert r[i] == rest[i - 1];
      } else {
        assert rest[j - 1] in rest;
      }
    }
  }

  /** The entries by descending key (insertion sort, stable). */
  function SortByScore(xs: seq<Scored>): (r: seq<Scored>)
    ensures SortedDesc(r)
    ensures multiset(r) == multiset(xs)
    ensures |r| == |xs|
  {
    if xs == [] then []
    else
      var init := xs[..|xs| - 1];
      var last := xs[|xs| - 1];
      assert xs == init + [last];
      assert multiset(xs) == multiset(init) + multiset{last};
      var sortedInit := SortByScore(init);
      Insert(last, sortedInit)
  }

  /** The items of scored entries, in order. */
  function Items(xs: seq<Scored>): (r: seq<int>)
    ensures |r| == |xs| && forall i :: 0 <= i < |xs| ==> r[i] == xs[i].0
  {
    if xs == [] then [] else [xs[0].0] + Items(xs[1..])
  }

  /** `xs[:n]` (Python): a negative `n` drops that many from the end. */
  function PyPrefix<T>(xs: seq<T>, n: int): (r: seq<T>)
    ensures n >= 0 ==> |r| == if n < |xs| then n else |xs|
    ensures n < 0 ==> |r| == if |xs| + n > 0 then |xs| + n else 0
    ensures |r| <= |xs| && r == xs[..|r|]
  {
    if n >= 0 then (if n < |xs| then xs[..n] else xs)
    else if |xs| + n > 0 then xs[..|xs| + n]
    else []
  }

  // ---------------------------------------------------------------------------
  // Weighted rank aggregation

  /** A base recommender's ranked list and its weight. */
  type Ranked = (seq<int>, real)

  /** The points the first `i` positions of `recs` give `item`: position j of a
      list of length n is worth weight · (n - j). */
  function PointsUpTo(recs: seq<int>, weight: real, item: int, i: nat): real
    requires i <= |recs|
  {
    if i == 0 then 0.0
    else PointsUpTo(recs, weight, item, i - 1) + (if recs[i - 1] == item then weight * (|recs| - (i - 1)) as real else 0.0)
  }

  /** The points a whole list gives `item`. */
  function Points(r: Ranked, item: int): real {
    PointsUpTo(r.0, r.1, item, |r.0|)
  }

  /** `item`'s aggregated score: its points summed over the lists. */
  function Total(lists: seq<Ranked>, item: int): real {
    if lists == [] then 0.0 else Total(lists[..|lists| - 1], item) + Points(lists[|lists| - 1], item)
  }

  /** The item is in one of the lists. */
  predicate Appears(lists: seq<Ranked>, item: int) {
    exists k :: 0 <= k < |lists| && item in lists[k].0
  }

  /** A list's points for an item it does not hold are zero; with a positive
      weight, those for an item it holds are positive. */
  lemma {:induction false} PointsSign(recs: seq<int>, weight: real, item: int, i: nat)
    requires i <= |recs|
    ensures item !in recs[..i] ==> PointsUpTo(recs, weight, item, i) == 0.0
    ensures weight > 0.0 ==> PointsUpTo(recs, weight, item, i) >= 0.0
    ensures weight > 0.0 && item in recs[..i] ==> PointsUpTo(recs, weight, item, i) > 0.0
  {
    if i > 0 {
      PointsSign(recs, weight, item, i - 1);
      assert recs[..i] == recs[..i - 1] + [recs[i - 1]];
    }
  }

  /** With positive weights, an item scores above zero exactly when some list
      holds it. */
  lemma {:induction false} TotalPositiveIff(lists: seq<Ranked>, item: int)
    requires forall k :: 0 <= k < |lists| ==> lists[k].1 > 0.0
    ensures Total(lists, item) >= 0.0
    ensures Total(lists, item) > 0.0 <==> Appears(lists, item)
  {
    if lists != [] {
      var init := lists[..|lists| - 1];
      var last := lists[|lists| - 1];
      TotalPositiveIff(init, item);
      PointsSign(last.0, last.1, item, |last.0|);
      assert last.0[..|last.0|] == last.0;
      if Appears(lists, item) {
        var k :| 0 <= k < |lists| && item in lists[k].0;
        if k < |lists| - 1 {
          assert init[k] == lists[k];
        }
      }
      if Appears(init, item) {
        var k :| 0 <= k < |init| && item in init[k].0;
        assert lists[k] == init[k];
      }
    }
  }

  /** In a list without repeats the item at index i gets weight · (n - i). */
  lemma {:induction false} PointsAtIndex(recs: seq<int>, weight: real, i: nat, upTo: nat)
    requires i < upTo <= |recs|
    requires forall a, b :: 0 <= a < b < |recs| ==> recs[a] != recs[b]
    ensures PointsUpTo(recs, weight, recs[i], upTo) == weight * (|recs| - i) as real
  {
    if upTo - 1 == i {
      assert recs[i] !in recs[..i];
      PointsSign(recs, weight, recs[i], i);
    } else {
      PointsAtIndex(recs, weight, i, upTo - 1);
      assert recs[upTo - 1] != recs[i];
    }
  }

  /** One list with a positive weight and no repeats: aggregation keeps its order. */
  lemma SingleListKeepsOrder(recs: seq<int>, weight: real, i: nat, j: nat)
    requires weight > 0.0 && i < j < |recs|
    requires forall a, b :: 0 <= a < b < |recs| ==> recs[a] != recs[b]
    ensures Total([(recs, weight)], recs[i]) > Total([(recs, weight)], recs[j])
  {
    PointsAtIndex(recs, weight, i, |recs|);
    PointsAtIndex(recs, weight, j, |recs|);
    assert [(recs, weight)][..0] == [];
  }

  /** After the first `i` positions of `recs`: `scores` holds the items of
      `scores0` and of those positions, each with its points so far added. */
  ghost predicate Accumulated(scores0: map<int, real>, scores: map<int, real>, recs: seq<int>, weight: real, i: nat)
    requires i <= |recs|
  {
    (forall item :: item in scores <==> item in scores0 || item in recs[..i])
    && (forall item :: item in scores ==>
          scores[item] == (if item in scores0 then scores0[item] else 0.0) + PointsUpTo(recs, weight, item, i))
    && (forall item :: item !in scores ==> PointsUpTo(recs, weight, item, i) == 0.0)
  }

  /** One position of the scoring loop adds its points to its item's entry. */
  lemma AccumulateStep(scores0: map<int, real>, scores: map<int, real>, recs: seq<int>, weight: real, i: nat)
    requires i < |recs| && Accumulated(scores0, scores, recs, weight, i)
    ensures Accumulated(scores0, scores[recs[i] := (if recs[i] in scores then scores[recs[i]] else 0.0) + weight * (|recs| - i) as real],
                        recs, weight, i + 1)
  {
    var item := recs[i];
    var gain := weight * (|recs| - i) as real;
    var next := scores[item := (if item in scores then scores[item] else 0.0) + gain];
    assert recs[..i + 1] == recs[..i] + [item];
    assert forall x :: x in next <==> x in scores0 || x in recs[..i + 1];
    forall x | x in next
      ensures next[x] == (if x in scores0 then scores0[x] else 0.0) + PointsUpTo(recs, weight, x, i + 1)
    {
      PointsStep(recs, weight, x, i);
      if x != item {
        assert next[x] == scores[x];
      }
    }
    forall x | x !in next ensures PointsUpTo(recs, weight, x, i + 1) == 0.0 {
      PointsStep(recs, weight, x, i);
    }
  }

  /** Position i adds its points to its own item only. */
  lemma PointsStep(recs: seq<int>, weight: real, x: int, i: nat)
    requires i < |recs|
    ensures PointsUpTo(recs, weight, x, i + 1)
      == PointsUpTo(recs, weight, x, i) + (if x == recs[i] then weight * (|recs| - i) as real else 0.0)
  {
  }

  /** One list's pass of the scoring loop: each position adds its points to
      the item's entry, creating it (at the end of `keys`) on first sight. */
  method AddListScores(scores0: map<int, real>, keys0: seq<int>, recs: seq<int>, weight: real)
    returns (scores: map<int, real>, keys: seq<int>)
    requires forall item :: item in keys0 <==> item in scores0
    requires forall a, b :: 0 <= a < b < |keys0| ==> keys0[a] != keys0[b]
    ensures forall item :: item in scores <==> item in scores0 || item in recs
    ensures forall item :: item in scores ==>
      scores[item] == (if item in scores0 then scores0[item] else 0.0) + Points((recs, weight), item)
    ensures forall item :: item in keys <==> item in scores
    ensures forall a, b :: 0 <= a < b < |keys| ==> keys[a] != keys[b]
  {
    scores, keys := scores0, keys0;
    for i := 0 to |recs|
      invariant Accumulated(scores0, scores, recs, weight, i)
      invariant forall item :: item in keys <==> item in scores
      invariant forall a, b :: 0 <= a < b < |keys| ==> keys[a] != keys[b]
    {
      var item := recs[i];
      var current := if item in scores then scores[item] else 0.0;
      AccumulateStep(scores0, scores, recs, weight, i);
      if item !in scores {
        keys := keys + [item];
      }
      scores := scores[item := current + weight * (|recs| - i) as real];
    }
    assert recs[..|recs|] == recs;
  }

  /** The `scores` dictionary: every item of every list, in first-seen order
      (`keys`), with its total. */
  method AggregateScores(lists: seq<Ranked>) returns (scores: map<int, real>, keys: seq<int>)
    ensures forall item :: item in scores <==> Appears(lists, item)
    ensures forall item :: item in scores ==> scores[item] == Total(lists, item)
    ensures forall item :: item in keys <==> item in scores
    ensures forall a, b :: 0 <= a < b < |keys| ==> keys[a] != keys[b]
  {
    scores := map[];
    keys := [];
    for k := 0 to |lists|
      invariant forall item :: item in scores <==> Appears(lists[..k], item)
      invariant forall item :: item in scores ==> scores[item] == Total(lists[..k], item)
      invariant forall item :: item in keys <==> item in scores
      invariant forall a, b :: 0 <= a < b < |keys| ==> keys[a] != keys[b]
    {
      AppearsSnoc(lists, k);
      TotalSnoc(lists, k);
      scores, keys := AddListScores(scores, keys, lists[k].0, lists[k].1);
    }
    assert lists[..|lists|] == lists;
  }

  lemma TotalSnoc(lists: seq<Ranked>, k: nat)
    requires k < |lists|
    ensures forall item :: Total(lists[..k + 1], item) == Total(lists[..k], item) + Points(lists[k], item)
    ensures forall item :: !Appears(lists[..k], item) ==> Total(lists[..k], item) == 0.0
  {
    assert lists[..k + 1][..k] == lists[..k];
    forall item | !Appears(lists[..k], item) ensures Total(lists[..k], item) == 0.0 {
      TotalAbsent(lists[..k], item);
    }
  }

  lemma {:induction false} TotalAbsent(lists: seq<Ranked>, item: int)
    requires !Appears(lists, item)
    ensures Total(lists, item) == 0.0
  {
    if lists != [] {
      var init := lists[..|lists| - 1];
      var last := lists[|lists| - 1];
      assert item !in last.0;
      TotalAbsent(init, item);
      PointsSign(last.0, last.1, item, |last.0|);
      assert last.0[..|last.0|] == last.0;
    }
  }

  lemma AppearsSnoc(lists: seq<Ranked>, k: nat)
    requires k < |lists|
    ensures forall item :: Appears(lists[..k + 1], item) <==> Appears(lists[..k], item) || item in lists[k].0
  {
    forall item ensures Appears(lists[..k + 1], item) <==> Appears(lists[..k], item) || item in lists[k].0 {
      if Appears(lists[..k + 1], item) {
        var j :| 0 <= j < k + 1 && item in lists[..k + 1][j].0;
        if j < k {
          assert lists[..k][j] == lists[..k + 1][j];
        }
      }
      if Appears(lists[..k], item) {
        var j :| 0 <= j < k && item in lists[..k][j].0;
        assert lists[..k + 1][j] == lists[..k][j];
      }
      if item in lists[k].0 {
        assert lists[..k + 1][k] == lists[k];
      }
    }
  }

  /** `sorted(scores.items(), key=score, reverse=True)`. */
  function RankedEntries(scores: map<int, real>, keys: seq<int>): (r: seq<Scored>)
    requires forall item :: item in keys ==> item in scores
    requires forall i :: 0 <= i < |keys| ==> keys[i] in scores
    ensures SortedDesc(r) && |r| == |keys|
    ensures forall e :: e in r <==> e.0 in keys && e.1 == Fin(scores[e.0])
  {
    var entries := seq(|keys|, i requires 0 <= i < |keys| => (keys[i], Fin(scores[keys[i]])));
    var r := SortByScore(entries);
    assert forall e :: e in r <==> e in multiset(entries);
    assert forall e: Scored :: e in entries <==> e.0 in keys && e.1 == Fin(scores[e.0]) by {
      forall e: Scored | e.0 in keys && e.1 == Fin(scores[e.0]) ensures e in entries {
        var i :| 0 <= i < |keys| && keys[i] == e.0;
        assert entries[i] == e;
      }
    }
    r
  }

  // ---------------------------------------------------------------------------
  // Diversity

  /** What `boost_diversity` keeps of `recs` with `room` places left and the
      genres in `seen` already taken: an item without a genre is skipped, an
      item of a new genre is kept, and the scan stops once the list is full. */
  function Diversify(recs: seq<int>, genreOf: int -> Option<string>, room: int, seen: set<string>): seq<int>
  {
    if recs == [] then []
    else
      match genreOf(recs[0])
      case None => Diversify(recs[1..], genreOf, room, seen)
      case Some(g) =>
        if g in seen then
          (if room <= 0 then [] else Diversify(recs[1..], genreOf, room, seen))
        else if room <= 1 then [recs[0]]
        else [recs[0]] + Diversify(recs[1..], genreOf, room - 1, seen + {g})
  }

  /** The kept items are a subsequence of the input, each has a genre not seen
      before, no two share a genre, and there are at most `room` of them (one,
      when `room` is not positive). */
  lemma {:induction false} DiversifyFacts(recs: seq<int>, genreOf: int -> Option<string>, room: int, seen: set<string>)
    ensures var r := Diversify(recs, genreOf, room, seen);
      Subsequence(r, recs)
      && (forall i :: 0 <= i < |r| ==> genreOf(r[i]).Some? && genreOf(r[i]).value !in seen)
      && (forall i, j :: 0 <= i < j < |r| ==> genreOf(r[i]) != genreOf(r[j]))
      && |r| <= (if room >= 1 then room else 1)
  {
    if recs != [] {
      match genreOf(recs[0])
      case None =>
        DiversifyFacts(recs[1..], genreOf, room, seen);
      case Some(g) =>
        if g in seen {
          if room > 0 {
            DiversifyFacts(recs[1..], genreOf, room, seen);
          }
        } else if room <= 1 {
          assert Subsequence([recs[0]][1..], recs[1..]);
        } else {
          var rest := Diversify(recs[1..], genreOf, room - 1, seen + {g});
          DiversifyFacts(recs[1..], genreOf, room - 1, seen + {g});
          assert ([recs[0]] + rest)[1..] == rest;
        }
    }
  }

  /** When the list does not fill up, every genre of the input outside `seen`
      is represented. */
  lemma {:induction false} DiversifyCovers(recs: seq<int>, genreOf: int -> Option<string>, room: int, seen: set<string>, k: nat)
    requires k < |recs| && genreOf(recs[k]).Some? && genreOf(recs[k]).value !in seen
    requires |Diversify(recs, genreOf, room, seen)| < room
    ensures exists i :: 0 <= i < |Diversify(recs, genreOf, room, seen)|
                        && genreOf(Diversify(recs, genreOf, room, seen)[i]) == genreOf(recs[k])
  {
    var r := Diversify(recs, genreOf, room, seen);
    match genreOf(recs[0])
    case None =>
      DiversifyCovers(recs[1..], genreOf, room, seen, k - 1);
    case Some(g) =>
      if g in seen {
        DiversifyCovers(recs[1..], genreOf, room, seen, k - 1);
      } else if k == 0 || genreOf(recs[k]).value == g {
        assert r[0] == recs[0];
      } else {
        var rest := Diversify(recs[1..], genreOf, room - 1, seen + {g});
        DiversifyCovers(recs[1..], genreOf, room - 1, seen + {g}, k - 1);
        var i :| 0 <= i < |rest| && genreOf(rest[i]) == genreOf(recs[1..][k - 1]);
        assert r[i + 1] == rest[i];
      }
  }

  /** Each kept item is the first of its genre in the input: no earlier item
      has that genre. */
  lemma {:induction false} DiversifyFirstOfGenre(recs: seq<int>, genreOf: int -> Option<string>, room: int, seen: set<string>, i: nat)
    requires i < |Diversify(recs, genreOf, room, seen)|
    ensures var x := Diversify(recs, genreOf, room, seen)[i];
      exists k :: 0 <= k < |recs| && recs[k] == x && forall j :: 0 <= j < k ==> genreOf(recs[j]) != genreOf(x)
  {
    var r := Diversify(recs, genreOf, room, seen);
    var x := r[i];
    var tail := recs[1..];
    match genreOf(recs[0])
    case None =>
      DiversifyFacts(tail, genreOf, room, seen);
      DiversifyFirstOfGenre(tail, genreOf, room, seen, i);
      var k :| 0 <= k < |tail| && tail[k] == x && forall j :: 0 <= j < k ==> genreOf(tail[j]) != genreOf(x);
      assert recs[k + 1] == x;
      assert forall j :: 1 <= j < k + 1 ==> recs[j] == tail[j - 1];
    case Some(g) =>
      if g in seen {
        DiversifyFacts(tail, genreOf, room, seen);
        DiversifyFirstOfGenre(tail, genreOf, room, seen, i);
        var k :| 0 <= k < |tail| && tail[k] == x && forall j :: 0 <= j < k ==> genreOf(tail[j]) != genreOf(x);
        assert recs[k + 1] == x;
        assert forall j :: 1 <= j < k + 1 ==> recs[j] == tail[j - 1];
      } else if i == 0 {
        assert x == recs[0];
      } else {
        var rest := Diversify(tail, genreOf, room - 1, seen + {g});
        assert x == rest[i - 1];
        DiversifyFacts(tail, genreOf, room - 1, seen + {g});
        DiversifyFirstOfGenre(tail, genreOf, room - 1, seen + {g}, i - 1);
        var k :| 0 <= k < |tail| && tail[k] == x && forall j :: 0 <= j < k ==> genreOf(tail[j]) != genreOf(x);
        assert recs[k + 1] == x;
        assert forall j :: 1 <= j < k + 1 ==> recs[j] == tail[j - 1];
      }
  }

  /** `boost_diversity`: walk the recommendations, keep the first item of each
      genre, stop once `topN` are kept. */
  method BoostDiversity(recommendations: seq<int>, genreOf: int -> Option<string>, topN: int) returns (final: seq<int>)
    ensures final == Diversify(recommendations, genreOf, topN, {})
  {
    var seenGenres: set<string> := {};
    final := [];
    var i := 0;
    while i < |recommendations|
      invariant 0 <= i <= |recommendations|
      invariant final + Diversify(recommendations[i..], genreOf, topN - |final|, seenGenres)
                == Diversify(recommendations, genreOf, topN, {})
    {
      var item := recommendations[i];
      ghost var room := topN - |final|;
      DiversifyHead(recommendations[i..], genreOf, room, seenGenres);
      assert recommendations[i..][1..] == recommendations[i + 1..];
      var genre := genreOf(item);
      if genre.None? {
        i := i + 1;
        continue;
      }
      if genre.value !in seenGenres {
        seenGenres := seenGenres + {genre.value};
        final := final + [item];
      }
      if |final| >= topN {
        assert recommendations[i..] != [] && recommendations[i..][0] == item;
        break;
      }
      i := i + 1;
    }
  }

  /** One step of `Diversify`: the first item is skipped, ends the list, or
      is kept. */
  lemma DiversifyHead(recs: seq<int>, genreOf: int -> Option<string>, room: int, seen: set<string>)
    requires recs != []
    ensures genreOf(recs[0]).None? ==> Diversify(recs, genreOf, room, seen) == Diversify(recs[1..], genreOf, room, seen)
    ensures genreOf(recs[0]).Some? && genreOf(recs[0]).value in seen ==>
      Diversify(recs, genreOf, room, seen) == if room <= 0 then [] else Diversify(recs[1..], genreOf, room, seen)
    ensures genreOf(recs[0]).Some? && genreOf(recs[0]).value !in seen ==>
      Diversify(recs, genreOf, room, seen)
        == if room <= 1 then [recs[0]] else [recs[0]] + Diversify(recs[1..], genreOf, room - 1, seen + {genreOf(recs[0]).value})
  {
  }

  // ---------------------------------------------------------------------------
  // Hybrid and ensemble ranking

  /** A ranking of the aggregated scores: by descending total, every item of
      every list exactly once. */
  ghost predicate RanksTotals(ranked: seq<Scored>, lists: seq<Ranked>) {
    SortedDesc(ranked)
    && (forall i :: 0 <= i < |ranked| ==> ranked[i].1 == Fin(Total(lists, ranked[i].0)))
    && (forall item :: item in Items(ranked) <==> Appears(lists, item))
    && (forall i, j :: 0 <= i < j < |ranked| ==> ranked[i].0 != ranked[j].0)
  }

  /** Aggregate and sort, as `hybrid_recommend` and the ensemble both do. */
  method RankAggregate(lists: seq<Ranked>) returns (ranked: seq<Scored>)
    ensures RanksTotals(ranked, lists)
  {
    var scores, keys := AggregateScores(lists);
    ranked := RankedEntries(scores, keys);
    forall i | 0 <= i < |ranked| ensures ranked[i].1 == Fin(Total(lists, ranked[i].0)) {
      assert ranked[i] in ranked;
    }
    forall item ensures item in Items(ranked) <==> Appears(lists, item) {
      if item in Items(ranked) {
        var i :| 0 <= i < |ranked| && Items(ranked)[i] == item;
        assert ranked[i] in ranked;
      }
      if Appears(lists, item) {
        assert (item, Fin(scores[item])) in ranked;
        var i :| 0 <= i < |ranked| && ranked[i] == (item, Fin(scores[item]));
        assert Items(ranked)[i] == item;
      }
    }
    forall i, j | 0 <= i < j < |ranked| ensures ranked[i].0 != ranked[j].0 {
      if ranked[i].0 == ranked[j].0 {
        assert ranked[i] in ranked && ranked[j] in ranked;
        assert ranked[i] == ranked[j];
        CountTwo(ranked, i, j);
        RankedEntriesOnce(scores, keys, ranked[i]);
      }
    }
  }

  lemma CountTwo<T>(s: seq<T>, i: nat, j: nat)
    requires i < j < |s| && s[i] == s[j]
    ensures multiset(s)[s[i]] >= 2
  {
    assert s == s[..j] + s[j..];
    assert s[i] in s[..j];
    assert s[j] in s[j..];
  }

  /** In a list without repeats every value occurs at most once. */
  lemma {:induction false} DistinctOnce<T>(keys: seq<T>, x: T)
    requires forall a, b :: 0 <= a < b < |keys| ==> keys[a] != keys[b]
    ensures multiset(keys)[x] <= 1
  {
    if keys != [] {
      assert keys == [keys[0]] + keys[1..];
      DistinctOnce(keys[1..], x);
      if keys[0] == x {
        assert x !in keys[1..];
      }
    }
  }

  /** Each entry of the sorted list occurs once. */
  lemma RankedEntriesOnce(scores: map<int, real>, keys: seq<int>, e: Scored)
    requires forall item :: item in keys ==> item in scores
    requires forall i :: 0 <= i < |keys| ==> keys[i] in scores
    requires forall a, b :: 0 <= a < b < |keys| ==> keys[a] != keys[b]
    ensures multiset(RankedEntries(scores, keys))[e] <= 1
  {
    var entries := seq(|keys|, i requires 0 <= i < |keys| => (keys[i], Fin(scores[keys[i]])));
    assert RankedEntries(scores, keys) == SortByScore(entries);
    forall a, b | 0 <= a < b < |entries| ensures entries[a] != entries[b] {
      assert entries[a].0 == keys[a] && entries[b].0 == keys[b];
    }
    DistinctOnce(entries, e);
  }

  /** `hybrid_recommend` after the base lists are built: aggregate, keep the
      top 20, then either filter for diversity (ten places) or keep ten. */
  method HybridRecommend(lists: seq<Ranked>, applyDiversity: bool, genreOf: int -> Option<string>)
    returns (ranked: seq<Scored>, result: seq<int>)
    ensures RanksTotals(ranked, lists)
    ensures applyDiversity ==> result == Diversify(PyPrefix(Items(ranked), 20), genreOf, 10, {})
    ensures !applyDiversity ==> result == PyPrefix(Items(ranked), 10)
  {
    ranked := RankAggregate(lists);
    var topItems := PyPrefix(Items(ranked), 20);
    if applyDiversity {
      result := BoostDiversity(topItems, genreOf, 10);
    } else {
      result := PyPrefix(topItems, 10);
    }
  }

  /** `EnsembleRecommender.get_ensemble_recommendations` after its models have
      answered: the `n` best aggregated items with their scores. */
  method EnsembleRecommend(lists: seq<Ranked>, n: int) returns (ranked: seq<Scored>, result: seq<int>, topScores: seq<Scored>)
    ensures RanksTotals(ranked, lists)
    ensures topScores == PyPrefix(ranked, n) && result == Items(topScores)
  {
    ranked := RankAggregate(lists);
    topScores := PyPrefix(ranked, n);
    result := Items(topScores);
  }

  /** The head of a ranking carries the largest total of all listed items. */
  lemma RankedHeadIsBest(ranked: seq<Scored>, lists: seq<Ranked>, item: int)
    requires RanksTotals(ranked, lists) && Appears(lists, item)
    ensures |ranked| > 0 && Total(lists, ranked[0].0) >= Total(lists, item)
  {
    assert item in Items(ranked);
    var i :| 0 <= i < |ranked| && Items(ranked)[i] == item;
    if i > 0 {
      assert AtLeast(ranked[0].1, ranked[i].1);
    }
  }
}
