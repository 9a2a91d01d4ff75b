/**
 * The stateful helpers of recommendation_engine.py: the multi-armed bandit's
 * reward tables and its UCB selection, the A/B tester's experiments, the
 * real-time recommender's session lists and the stream processor's bounded
 * buffer.
 *
 * Rewards, ratings, timestamps and traffic splits are reals. The clock,
 * `random.random()` after `random.seed(user_id)`, and the UCB confidence bonus
 * (a square root of a logarithm) arrive as parameters. The stream
 * processor's callbacks are represented by their names: delivering a batch to
 * one is recorded as a (name, batch) pair.
 */
module Recommenders {
  import opened Wrappers
  import Ranking
  import opened Sequences

  function Min(a: int, b: int): int { if a < b then a else b }

  /** Sum of a list of reals. */
  function Sum(xs: seq<real>): real {
    if xs == [] then 0.0 else Sum(xs[..|xs| - 1]) + xs[|xs| - 1]
  }

  /** `np.mean` of a non-empty list. */
  function Mean(xs: seq<real>): real
    requires xs != []
  {
    Sum(xs) / |xs| as real
  }

  lemma {:induction false} SumBounds(xs: seq<real>, lo: real, hi: real)
    requires forall k :: 0 <= k < |xs| ==> lo <= xs[k] <= hi
    ensures |xs| as real * lo <= Sum(xs) <= |xs| as real * hi
  {
    if xs != [] {
      SumBounds(xs[..|xs| - 1], lo, hi);
    }
  }

  /** The mean lies between the smallest and the largest possible reward. */
  lemma MeanBounds(xs: seq<real>, lo: real, hi: real)
    requires xs != [] && forall k :: 0 <= k < |xs| ==> lo <= xs[k] <= hi
    ensures lo <= Mean(xs) <= hi
  {
    SumBounds(xs, lo, hi);
    var n := |xs| as real;
    assert n * lo <= Sum(xs) <= n * hi;
    assert Sum(xs) / n >= lo by { assert Sum(xs) >= lo * n; }
    assert Sum(xs) / n <= hi by { assert Sum(xs) <= hi * n; }
  }

  // ---------------------------------------------------------------------------
  // Multi-armed bandit

  /** `update_reward` keeps only this many rewards per item. */
  const MaxRewards: nat := 100

  /** The last `n` entries (all of them when there are fewer). */
  function LastN<T>(xs: seq<T>, n: nat): (r: seq<T>)
    ensures |r| == Min(|xs|, n)
    ensures xs != [] && n > 0 ==> r[|r| - 1] == xs[|xs| - 1]
    ensures forall k :: 0 <= k < |r| ==> r[k] == xs[|xs| - |r| + k]
  {
    if |xs| > n then xs[|xs| - n..] else xs
  }

  class Bandit {
    /** Per item, the most recent rewards (at most 100). */
    var itemRewards: map<int, seq<real>>
    /** Per item, how many rewards were ever recorded. */
    var itemCounts: map<int, nat>
    var totalInteractions: nat

    /** Rewards and counts are updated together, so an item with a count has
        min(count, 100) rewards. */
    ghost predicate Valid()
      reads this
    {
      (forall item :: item in itemRewards <==> item in itemCounts)
      && forall item :: item in itemCounts ==>
           itemCounts[item] > 0 && |itemRewards[item]| == Min(itemCounts[item], MaxRewards)
    }

    constructor()
      ensures Valid()
      ensures itemRewards == map[] && itemCounts == map[] && totalInteractions == 0
    {
      itemRewards := map[];
      itemCounts := map[];
      totalInteractions := 0;
    }

    /** `item_counts[item]` of the defaultdict. */
    function CountOf(item: int): nat
      reads this
    {
      if item in itemCounts then itemCounts[item] else 0
    }

    /** `item_rewards[item]` of the defaultdict. */
    function RewardsOf(item: int): seq<real>
      reads this
    {
      if item in itemRewards then itemRewards[item] else []
    }

    /** `get_item_score`: 0.0 for an item never rewarded, else the mean of its
        kept rewards, which stays within the range of the rewards. */
    function GetItemScore(item: int): (score: real)
      requires Valid()
      reads this
      ensures CountOf(item) == 0 ==> score == 0.0
      ensures CountOf(item) > 0 ==> RewardsOf(item) != [] && score == Mean(RewardsOf(item))
    {
      if CountOf(item) == 0 then 0.0 else Mean(itemRewards[item])
    }

    /** With rewards in [lo, hi] (clicks in [0, 1], say) the score is in [lo, hi]
        too, once the item has a reward. */
    lemma ItemScoreWithinRewards(item: int, lo: real, hi: real)
      requires Valid() && CountOf(item) > 0
      requires forall k :: 0 <= k < |RewardsOf(item)| ==> lo <= RewardsOf(item)[k] <= hi
      ensures lo <= GetItemScore(item) <= hi
    {
      MeanBounds(RewardsOf(item), lo, hi);
    }

    /** `update_reward`: append, count, then trim to the newest 100. */
    method UpdateReward(item: int, reward: real)
      requires Valid()
      modifies this
      ensures Valid()
      ensures itemCounts == old(itemCounts)[item := old(CountOf(item)) + 1]
      ensures totalInteractions == old(totalInteractions) + 1
      ensures itemRewards == old(itemRewards)[item := LastN(old(RewardsOf(item)) + [reward], MaxRewards)]
    {
      var rewards := RewardsOf(item) + [reward];
      itemRewards := itemRewards[item := rewards];
      itemCounts := itemCounts[item := CountOf(item) + 1];
      totalInteractions := totalInteractions + 1;
      if |itemRewards[item]| > MaxRewards {
        itemRewards := itemRewards[item := itemRewards[item][|itemRewards[item]| - MaxRewards..]];
      }
    }

    /** The UCB key of an item: +inf when never rewarded, else its mean reward
        plus the confidence bonus for (total interactions, its count). */
    function UcbKey(item: int, bonus: (nat, nat) -> real): Ranking.Score
      requires Valid()
      reads this
    {
      if CountOf(item) == 0 then Ranking.Inf
      else Ranking.Fin(GetItemScore(item) + bonus(totalInteractions, CountOf(item)))
    }

    /** The `item_scores` list of `select_items_ucb`. */
    function UcbEntries(available: seq<int>, bonus: (nat, nat) -> real): (r: seq<Ranking.Scored>)
      requires Valid()
      reads this
      ensures |r| == |available|
      ensures forall i :: 0 <= i < |r| ==> r[i] == (available[i], UcbKey(available[i], bonus))
    {
      seq(|available|, i requires 0 <= i < |available| && Valid() reads this => (available[i], UcbKey(available[i], bonus)))
    }

    /** `select_items_ucb`: score every available item, sort by descending
        score, keep the first `n`. */
    method SelectItemsUCB(available: seq<int>, n: int, bonus: (nat, nat) -> real) returns (selected: seq<int>)
      requires Valid()
      ensures available == [] ==> selected == []
      ensures selected == Ranking.Items(Ranking.PyPrefix(Ranking.SortByScore(UcbEntries(available, bonus)), n))
    {
      if available == [] {
        return [];
      }
      var itemScores: seq<Ranking.Scored> := [];
      for i := 0 to |available|
        invariant |itemScores| == i
        invariant forall j :: 0 <= j < i ==> itemScores[j] == (available[j], UcbKey(available[j], bonus))
      {
        var itemId := available[i];
        var ucbScore: Ranking.Score;
        if CountOf(itemId) == 0 {
          ucbScore := Ranking.Inf;
        } else {
          ucbScore := Ranking.Fin(GetItemScore(itemId) + bonus(totalInteractions, CountOf(itemId)));
        }
        itemScores := itemScores + [(itemId, ucbScore)];
      }
      assert itemScores == UcbEntries(available, bonus);
      var sortedScores := Ranking.SortByScore(itemScores);
      selected := Ranking.Items(Ranking.PyPrefix(sortedScores, n));
    }

    /** The selection has min(n, |available|) items; items never rewarded come
        before rewarded ones, and once a rewarded item is selected every
        never-rewarded available item is selected too. */
    lemma UcbExploresFirst(available: seq<int>, n: int, bonus: (nat, nat) -> real)
      requires Valid()
      ensures var selected := Ranking.Items(Ranking.PyPrefix(Ranking.SortByScore(UcbEntries(available, bonus)), n));
        (n >= 0 ==> |selected| == Min(n, |available|))
        && (forall i, j :: 0 <= i < j < |selected| && CountOf(selected[j]) == 0 ==> CountOf(selected[i]) == 0)
        && ((exists j :: 0 <= j < |selected| && CountOf(selected[j]) > 0) ==>
              forall a :: a in available && CountOf(a) == 0 ==> a in selected)
    {
      var entries := UcbEntries(available, bonus);
      var sorted := Ranking.SortByScore(entries);
      var prefix := Ranking.PyPrefix(sorted, n);
      UcbSortedKeys(available, sorted, bonus);
      UcbFreshFirst(sorted, prefix, bonus);
      if exists j :: 0 <= j < |prefix| && CountOf(prefix[j].0) > 0 {
        var j :| 0 <= j < |prefix| && CountOf(prefix[j].0) > 0;
        UcbFreshAllSelected(available, sorted, prefix, j, bonus);
        assert forall j' :: 0 <= j' < |prefix| ==> Ranking.Items(prefix)[j'] == prefix[j'].0;
      }
    }

    /** Every entry of a reordering of the UCB entries carries its item's UCB
        key and an available item. */
    lemma UcbSortedKeys(available: seq<int>, sorted: seq<Ranking.Scored>, bonus: (nat, nat) -> real)
      requires Valid()
      requires multiset(sorted) == multiset(UcbEntries(available, bonus))
      ensures forall k :: 0 <= k < |sorted| ==> sorted[k].1 == UcbKey(sorted[k].0, bonus) && sorted[k].0 in available
    {
      var entries := UcbEntries(available, bonus);
      forall k | 0 <= k < |sorted| ensures sorted[k].1 == UcbKey(sorted[k].0, bonus) && sorted[k].0 in available {
        assert sorted[k] in multiset(entries);
        assert sorted[k] in entries;
      }
    }

    /** In a prefix of the sorted entries, a never-rewarded item is preceded
        only by never-rewarded items. */
    lemma UcbFreshFirst(sorted: seq<Ranking.Scored>, prefix: seq<Ranking.Scored>, bonus: (nat, nat) -> real)
      requires Valid()
      requires Ranking.SortedDesc(sorted) && |prefix| <= |sorted| && prefix == sorted[..|prefix|]
      requires forall k :: 0 <= k < |sorted| ==> sorted[k].1 == UcbKey(sorted[k].0, bonus)
      ensures var selected := Ranking.Items(prefix);
        forall i, j :: 0 <= i < j < |selected| && CountOf(selected[j]) == 0 ==> CountOf(selected[i]) == 0
    {
      var selected := Ranking.Items(prefix);
      forall i, j | 0 <= i < j < |selected| && CountOf(selected[j]) == 0 ensures CountOf(selected[i]) == 0 {
        assert prefix[i] == sorted[i] && prefix[j] == sorted[j];
        assert Ranking.AtLeast(sorted[i].1, sorted[j].1);
      }
    }

    /** Once the prefix holds a rewarded item, it holds every never-rewarded
        available item. */
    lemma UcbFreshAllSelected(available: seq<int>, sorted: seq<Ranking.Scored>, prefix: seq<Ranking.Scored>, j: nat, bonus: (nat, nat) -> real)
      requires Valid()
      requires multiset(sorted) == multiset(UcbEntries(available, bonus)) && Ranking.SortedDesc(sorted)
      requires |prefix| <= |sorted| && prefix == sorted[..|prefix|]
      requires forall k :: 0 <= k < |sorted| ==> sorted[k].1 == UcbKey(sorted[k].0, bonus)
      requires j < |prefix| && CountOf(prefix[j].0) > 0
      ensures forall a :: a in available && CountOf(a) == 0 ==> a in Ranking.Items(prefix)
    {
      var entries := UcbEntries(available, bonus);
      var selected := Ranking.Items(prefix);
      forall a | a in available && CountOf(a) == 0 ensures a in selected {
        var p :| 0 <= p < |available| && available[p] == a;
        assert entries[p] in multiset(sorted);
        var q :| 0 <= q < |sorted| && sorted[q] == entries[p];
        assert sorted[q].1 == Ranking.Inf && sorted[j].1.Fin?;
        assert !Ranking.AtLeast(sorted[j].1, sorted[q].1);
        assert selected[q] == a;
      }
    }
  }

  // ---------------------------------------------------------------------------
  // A/B testing

  datatype Experiment = Experiment(variants: seq<string>, trafficSplit: seq<real>)

  /** What `get_variant` gives: None for an unknown experiment, a variant, or
      the IndexError a split that names a missing variant raises. */
  datatype Assignment = NoExperiment | Assigned(variant: string) | IndexFailure

  /** `[1.0 / n] * n`. */
  function Uniform(n: nat): (r: seq<real>)
    requires n > 0
    ensures |r| == n && forall i :: 0 <= i < n ==> r[i] == 1.0 / n as real
  {
    seq(n, i => 1.0 / n as real)
  }

  /** The cumulative walk from index `i` with running sum `cumulative`: the
      first variant whose cumulative share reaches `randVal`, else the last. */
  function ChooseFrom(e: Experiment, randVal: real, i: nat, cumulative: real): Assignment
    requires i <= |e.trafficSplit|
    decreases |e.trafficSplit| - i
  {
    if i == |e.trafficSplit| then
      (if e.variants == [] then IndexFailure else Assigned(e.variants[|e.variants| - 1]))
    else
      var c := cumulative + e.trafficSplit[i];
      if randVal <= c then (if i < |e.variants| then Assigned(e.variants[i]) else IndexFailure)
      else ChooseFrom(e, randVal, i + 1, c)
  }

  /** The sum of the first `k` shares of a split. */
  function PrefixSum(split: seq<real>, k: nat): real
    requires k <= |split|
  {
    if k == 0 then 0.0 else PrefixSum(split, k - 1) + split[k - 1]
  }

  /** Share `k` brings the cumulative sum up to the draw. */
  predicate Reaches(split: seq<real>, randVal: real, k: nat)
    requires k < |split|
  {
    randVal <= PrefixSum(split, k + 1)
  }

  /** The least index from `i` on whose cumulative sum reaches the draw, if any. */
  function FirstReaching(split: seq<real>, randVal: real, i: nat): (r: Option<nat>)
    requires i <= |split|
    ensures r.Some? ==>
      i <= r.value < |split| && Reaches(split, randVal, r.value)
      && forall j :: i <= j < r.value ==> !Reaches(split, randVal, j)
    ensures r.None? ==> forall j :: i <= j < |split| ==> !Reaches(split, randVal, j)
    decreases |split| - i
  {
    if i == |split| then None
    else if Reaches(split, randVal, i) then Some(i)
    else FirstReaching(split, randVal, i + 1)
  }

  /** What `get_variant` returns for that index: the variant at it (an
      IndexError past the variants), or, when no share reaches the draw, the
      last variant (an IndexError when there is none). */
  function Pick(e: Experiment, first: Option<nat>): Assignment {
    match first
    case None => if e.variants == [] then IndexFailure else Assigned(e.variants[|e.variants| - 1])
    case Some(k) => if k < |e.variants| then Assigned(e.variants[k]) else IndexFailure
  }

  /** The cumulative walk, for any split: from index `i` with the sum of the
      shares before it, it picks the least index whose cumulative sum reaches
      the draw. */
  lemma {:induction false} ChooseFromFirstReaching(e: Experiment, randVal: real, i: nat)
    requires i <= |e.trafficSplit|
    ensures ChooseFrom(e, randVal, i, PrefixSum(e.trafficSplit, i)) == Pick(e, FirstReaching(e.trafficSplit, randVal, i))
    decreases |e.trafficSplit| - i
  {
    if i < |e.trafficSplit| {
      assert PrefixSum(e.trafficSplit, i) + e.trafficSplit[i] == PrefixSum(e.trafficSplit, i + 1);
      if !Reaches(e.trafficSplit, randVal, i) {
        ChooseFromFirstReaching(e, randVal, i + 1);
      }
    }
  }

  /** The uniform split assigns the first variant k with randVal <= (k + 1) / n,
      so every draw in [0, 1) lands on a variant and the fallback is never used. */
  lemma {:induction false} UniformChooses(variants: seq<string>, randVal: real, i: nat)
    requires variants != [] && 0.0 <= randVal < 1.0 && i < |variants|
    requires i > 0 ==> randVal > i as real / |variants| as real
    ensures var n := |variants| as real;
      exists k :: i <= k < |variants| && ChooseFrom(Experiment(variants, Uniform(|variants|)), randVal, i, i as real / n) == Assigned(variants[k])
        && randVal <= (k + 1) as real / n && (k > 0 ==> randVal > k as real / n)
    decreases |variants| - i
  {
    var n := |variants| as real;
    var e := Experiment(variants, Uniform(|variants|));
    var c := i as real / n + 1.0 / n;
    assert c == (i + 1) as real / n;
    if randVal <= c {
      assert ChooseFrom(e, randVal, i, i as real / n) == Assigned(variants[i]);
    } else {
      UniformChooses(variants, randVal, i + 1);
    }
  }

  class ABTester {
    var experiments: map<string, Experiment>
    /** "experiment_variant_metric" -> the recorded values. */
    var results: map<string, seq<real>>

    constructor()
      ensures experiments == map[] && results == map[]
    {
      experiments := map[];
      results := map[];
    }

    /** `create_experiment`: store the variants with the given split, or the
        uniform one; with no split and no variants the division by zero raises
        and nothing is stored. */
    method CreateExperiment(name: string, variants: seq<string>, trafficSplit: Option<seq<real>>) returns (ok: bool)
      modifies this`experiments
      ensures ok <==> trafficSplit.Some? || variants != []
      ensures !ok ==> experiments == old(experiments)
      ensures ok && trafficSplit.Some? ==> experiments == old(experiments)[name := Experiment(variants, trafficSplit.value)]
      ensures ok && trafficSplit.None? ==> experiments == old(experiments)[name := Experiment(variants, Uniform(|variants|))]
    {
      var split: seq<real>;
      if trafficSplit.None? {
        if |variants| == 0 {
          return false;
        }
        split := Uniform(|variants|);
      } else {
        split := trafficSplit.value;
      }
      experiments := experiments[name := Experiment(variants, split)];
      return true;
    }

    /** `get_variant`: `draw(userId)` stands for seeding the generator with the
        user id and drawing once, so a user always gets the same variant. */
    method GetVariant(userId: int, experimentName: string, draw: int -> real) returns (a: Assignment)
      ensures experimentName !in experiments ==> a == NoExperiment
      ensures experimentName in experiments ==> a == ChooseFrom(experiments[experimentName], draw(userId), 0, 0.0)
      ensures experimentName in experiments ==>
        var e := experiments[experimentName];
        a == Pick(e, FirstReaching(e.trafficSplit, draw(userId), 0))
    {
      if experimentName !in experiments {
        return NoExperiment;
      }
      var randVal := draw(userId);
      var exp := experiments[experimentName];
      ChooseFromFirstReaching(exp, randVal, 0);
      var cumulative := 0.0;
      for i := 0 to |exp.trafficSplit|
        invariant ChooseFrom(exp, randVal, 0, 0.0) == ChooseFrom(exp, randVal, i, cumulative)
      {
        cumulative := cumulative + exp.trafficSplit[i];
        if randVal <= cumulative {
          if i < |exp.variants| {
            return Assigned(exp.variants[i]);
          }
          return IndexFailure;
        }
      }
      if exp.variants == [] {
        return IndexFailure;
      }
      return Assigned(exp.variants[|exp.variants| - 1]);
    }

    /** `record_result`: append under "experiment_variant_metric". */
    method RecordResult(experimentName: string, variant: string, metricName: string, value: real)
      modifies this`results
      ensures var key := experimentName + "_" + variant + "_" + metricName;
        results == old(results)[key := (if key in old(results) then old(results)[key] else []) + [value]]
    {
      var key := experimentName + "_" + variant + "_" + metricName;
      var values := if key in results then results[key] else [];
      results := results[key := values + [value]];
    }
  }

  /** A uniform experiment assigns every draw in [0, 1) to a variant. */
  lemma UniformAlwaysAssigns(variants: seq<string>, randVal: real)
    requires variants != [] && 0.0 <= randVal < 1.0
    ensures ChooseFrom(Experiment(variants, Uniform(|variants|)), randVal, 0, 0.0).Assigned?
  {
    UniformChooses(variants, randVal, 0);
    assert 0 as real / |variants| as real == 0.0;
  }

  // ---------------------------------------------------------------------------
  // Real-time sessions

  datatype Interaction = Interaction(itemId: int, interactionType: string, timestamp: real)

  /** `session_timeout`. */
  const SessionTimeout: real := 3600.0

  /** The interactions younger than the timeout at `now`, in order. */
  function Fresh(xs: seq<Interaction>, now: real): (r: seq<Interaction>)
    ensures |r| <= |xs|
    ensures forall x :: x in r <==> x in xs && now - x.timestamp < SessionTimeout
    ensures forall x :: multiset(r)[x] == if now - x.timestamp < SessionTimeout then multiset(xs)[x] else 0
    ensures Subsequence(r, xs)
  {
    if xs == [] then []
    else
      var rest := Fresh(xs[1..], now);
      assert xs == [xs[0]] + xs[1..];
      if now - xs[0].timestamp < SessionTimeout then
        assert ([xs[0]] + rest)[1..] == rest;
        [xs[0]] + rest
      else rest
  }

  class RealtimeRecommender {
    var userSessions: map<int, seq<Interaction>>
    var itemInteractions: map<int, int>

    constructor()
      ensures userSessions == map[] && itemInteractions == map[]
    {
      userSessions := map[];
      itemInteractions := map[];
    }

    function SessionOf(user: int): seq<Interaction>
      reads this
    {
      if user in userSessions then userSessions[user] else []
    }

    function CountOf(item: int): int
      reads this
    {
      if item in itemInteractions then itemInteractions[item] else 0
    }

    /** `track_interaction` stamped at `timestamp`, then `_clean_old_sessions`
        at `now`: afterwards every interaction kept for the user is younger than
        an hour, and no other user's session changes. */
    method TrackInteraction(userId: int, itemId: int, interactionType: string, timestamp: real, now: real)
      modifies this
      ensures userSessions == old(userSessions)[userId := Fresh(old(SessionOf(userId)) + [Interaction(itemId, interactionType, timestamp)], now)]
      ensures itemInteractions == old(itemInteractions)[itemId := old(CountOf(itemId)) + 1]
      ensures forall x :: x in userSessions[userId] ==> now - x.timestamp < SessionTimeout
      ensures forall u :: u != userId ==>
        (u in userSessions <==> u in old(userSessions)) && (u in userSessions ==> userSessions[u] == old(userSessions)[u])
    {
      userSessions := userSessions[userId := SessionOf(userId) + [Interaction(itemId, interactionType, timestamp)]];
      itemInteractions := itemInteractions[itemId := CountOf(itemId) + 1];
      CleanOldSessions(userId, now);
    }

    /** `_clean_old_sessions`. */
    method CleanOldSessions(userId: int, now: real)
      modifies this`userSessions
      ensures userSessions == old(userSessions)[userId := Fresh(old(SessionOf(userId)), now)]
    {
      userSessions := userSessions[userId := Fresh(SessionOf(userId), now)];
    }
  }

  // ---------------------------------------------------------------------------
  // Stream processing

  datatype StreamEvent = StreamEvent(userId: int, itemId: int, rating: real, timestamp: real)

  /** `deque(maxlen=n).append`: the oldest entries fall off the left. */
  function Bounded<T>(xs: seq<T>, maxLen: nat): (r: seq<T>)
    ensures |r| == Min(|xs|, maxLen)
    ensures forall k :: 0 <= k < |r| ==> r[k] == xs[|xs| - |r| + k]
  {
    LastN(xs, maxLen)
  }

  class StreamProcessor {
    var buffer: seq<StreamEvent>
    const bufferSize: nat
    const batchSize: int
    /** The registered callbacks, by name. */
    var processors: seq<string>

    ghost predicate Valid()
      reads this
    {
      |buffer| <= bufferSize
    }

    constructor(bufferSize: nat, batchSize: int)
      ensures Valid()
      ensures this.bufferSize == bufferSize && this.batchSize == batchSize
      ensures buffer == [] && processors == []
    {
      this.bufferSize := bufferSize;
      this.batchSize := batchSize;
      buffer := [];
      processors := [];
    }

    method AddProcessor(processor: string)
      modifies this`processors
      ensures processors == old(processors) + [processor]
    {
      processors := processors + [processor];
    }

    /** `add_interaction`, stamped `now` when no timestamp is given. */
    method AddInteraction(userId: int, itemId: int, rating: real, timestamp: Option<real>, now: real)
      requires Valid()
      modifies this`buffer
      ensures Valid()
      ensures buffer == Bounded(old(buffer) + [StreamEvent(userId, itemId, rating, timestamp.GetOr(now))], bufferSize)
      ensures |old(buffer)| == bufferSize && bufferSize > 0 ==> buffer == old(buffer)[1..] + [StreamEvent(userId, itemId, rating, timestamp.GetOr(now))]
    {
      var stamp := if timestamp.None? then now else timestamp.value;
      var interaction := StreamEvent(userId, itemId, rating, stamp);
      buffer := Bounded(buffer + [interaction], bufferSize);
    }

    /** `process_batch`: nothing until `batchSize` events wait; then the oldest
        `batchSize` leave the buffer in order and every callback is handed that
        same batch, whether or not an earlier one raised. */
    method ProcessBatch() returns (batch: seq<StreamEvent>, deliveries: seq<(string, seq<StreamEvent>)>)
      requires Valid()
      modifies this`buffer
      ensures Valid()
      ensures |old(buffer)| < batchSize || batchSize <= 0 ==> buffer == old(buffer) && batch == [] && deliveries == []
      ensures |old(buffer)| >= batchSize > 0 ==>
        batch == old(buffer)[..batchSize] && buffer == old(buffer)[batchSize..]
        && |deliveries| == |processors| && forall i :: 0 <= i < |processors| ==> deliveries[i] == (processors[i], batch)
    {
      deliveries := [];
      batch := [];
      if |buffer| < batchSize {
        return;
      }
      var take := Min(batchSize, |buffer|);
      ghost var original := buffer;
      var k := 0;
      while k < take
        invariant 0 <= k <= (if take > 0 then take else 0)
        invariant batch == original[..k] && buffer == original[k..]
      {
        if buffer != [] {
          batch := batch + [buffer[0]];
          buffer := buffer[1..];
        }
        k := k + 1;
      }
      if batch == [] {
        return;
      }
      for i := 0 to |processors|
        invariant |deliveries| == i && forall j :: 0 <= j < i ==> deliveries[j] == (processors[j], batch)
      {
        deliveries := deliveries + [(processors[i], batch)];
      }
    }
  }
}
