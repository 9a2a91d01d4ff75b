/**
 * `ModerationDatabase` of chat_moderation_system.py with its two tables held
 * in memory: `user_stats` as a map from user id to its counters and
 * `flagged_messages` as the sequence of inserted rows, whose auto-increment
 * ids are 1, 2, 3, ... in insertion order.
 */
module ModerationDatabase {
  import opened Wrappers

  /** One `user_stats` row (the two timestamp columns are not modelled). */
  datatype UserStats = UserStats(totalMessages: nat, flaggedMessages: nat, falsePositives: nat, riskScore: real)

  /** The row `get_user_stats` makes up for a user it has never seen. */
  const ZeroStats: UserStats := UserStats(0, 0, 0, 0.0)

  /** One `flagged_messages` row (timestamp and review columns not modelled).
      The detection method is the set of evidence sources that the source joins
      with '+' in no fixed order; the patterns are absent when the list is empty. */
  datatype FlaggedRecord = FlaggedRecord(
    id: nat,
    userId: string,
    message: string,
    violationType: string,
    confidence: real,
    detectionMethod: set<string>,
    patternsMatched: Option<seq<string>>)

  /** `get_user_stats`: the stored row, or the zero row for an unknown user. */
  function StatsOf(stats: map<string, UserStats>, user: string): UserStats {
    if user in stats then stats[user] else ZeroStats
  }

  /** The table after `_update_user_stats(user, flagged)`: the row is created
      with zero counters if missing, one message is counted (and one flag when
      flagged), the risk becomes flagged / total, and no other row changes. */
  function Bumped(stats: map<string, UserStats>, user: string, flagged: bool): (r: map<string, UserStats>)
    ensures r.Keys == stats.Keys + {user}
    ensures forall u :: u in stats && u != user ==> r[u] == stats[u]
    ensures r[user].totalMessages == StatsOf(stats, user).totalMessages + 1
    ensures r[user].flaggedMessages == StatsOf(stats, user).flaggedMessages + (if flagged then 1 else 0)
    ensures r[user].falsePositives == StatsOf(stats, user).falsePositives
    ensures r[user].riskScore == r[user].flaggedMessages as real / r[user].totalMessages as real
  {
    var row := StatsOf(stats, user);
    var total := row.totalMessages + 1;
    var flags := row.flaggedMessages + (if flagged then 1 else 0);
    stats[user := UserStats(total, flags, row.falsePositives, flags as real / total as real)]
  }

  /** Every row counts at least one message, no more flags than messages, and
      its risk is the flagged fraction. */
  ghost predicate Consistent(stats: map<string, UserStats>) {
    forall u :: u in stats ==>
      && stats[u].totalMessages > 0
      && stats[u].flaggedMessages <= stats[u].totalMessages
      && stats[u].riskScore == stats[u].flaggedMessages as real / stats[u].totalMessages as real
  }

  /** Updating a row keeps the table consistent. */
  lemma BumpedConsistent(stats: map<string, UserStats>, user: string, flagged: bool)
    requires Consistent(stats)
    ensures Consistent(Bumped(stats, user, flagged))
  {
  }

  /** In a consistent table every user's risk, known or not, lies in [0, 1]. */
  lemma {:induction false} RiskInUnitInterval(stats: map<string, UserStats>, user: string)
    requires Consistent(stats)
    ensures 0.0 <= StatsOf(stats, user).riskScore <= 1.0
    ensures StatsOf(stats, user).flaggedMessages <= StatsOf(stats, user).totalMessages
  {
    if user in stats {
      var row := stats[user];
      FractionInUnitInterval(row.flaggedMessages, row.totalMessages);
    }
  }

  lemma FractionInUnitInterval(a: nat, b: nat)
    requires 0 < b && a <= b
    ensures 0.0 <= a as real / b as real <= 1.0
  {
    assert a as real <= b as real;
  }

  /** The table after one update per entry of `flags`, all for `user`. */
  function Replay(stats: map<string, UserStats>, user: string, flags: seq<bool>): map<string, UserStats> {
    if flags == [] then stats
    else Bumped(Replay(stats, user, flags[..|flags| - 1]), user, flags[|flags| - 1])
  }

  function CountFlagged(flags: seq<bool>): (n: nat)
    ensures n <= |flags|
  {
    if flags == [] then 0
    else CountFlagged(flags[..|flags| - 1]) + (if flags[|flags| - 1] then 1 else 0)
  }

  /** After the updates for a user with no row, the row counts one message per
      update and one flag per flagged update, its risk is their ratio, and no
      other row has changed. */
  lemma {:induction false} ReplayFromFresh(stats: map<string, UserStats>, user: string, flags: seq<bool>)
    requires user !in stats && flags != []
    ensures var row := StatsOf(Replay(stats, user, flags), user);
      && row.totalMessages == |flags|
      && row.flaggedMessages == CountFlagged(flags)
      && row.falsePositives == 0
      && row.riskScore == CountFlagged(flags) as real / |flags| as real
    ensures forall u :: u != user ==> StatsOf(Replay(stats, user, flags), u) == StatsOf(stats, u)
    decreases |flags|
  {
    var init := flags[..|flags| - 1];
    if init != [] {
      ReplayFromFresh(stats, user, init);
    }
  }

  /** The ids of the flagged rows are 1, 2, 3, ... in order. */
  ghost predicate IdsInOrder(rows: seq<FlaggedRecord>) {
    forall i :: 0 <= i < |rows| ==> rows[i].id == i + 1
  }

  /** The row `log_flagged_message` inserts. */
  function NewRecord(id: nat, user: string, message: string, violationType: string, confidence: real,
                     detectionMethod: set<string>, patterns: seq<string>): (rec: FlaggedRecord)
    ensures rec.patternsMatched.None? <==> patterns == []
    ensures rec.patternsMatched.Some? ==> rec.patternsMatched.value == patterns
  {
    FlaggedRecord(id, user, message, violationType, confidence, detectionMethod,
                  if patterns == [] then None else Some(patterns))
  }

  class Database {
    var userStats: map<string, UserStats>
    var flaggedMessages: seq<FlaggedRecord>

    ghost predicate Valid()
      reads this
    {
      Consistent(userStats) && IdsInOrder(flaggedMessages)
    }

    /** Fresh, empty tables. */
    constructor()
      ensures Valid() && userStats == map[] && flaggedMessages == []
    {
      userStats := map[];
      flaggedMessages := [];
    }

    /** `get_user_stats`: the row, or zeros with risk 0.0 for an unknown user. */
    method GetUserStats(user: string) returns (s: UserStats)
      ensures user !in userStats ==> s == ZeroStats
      ensures user in userStats ==> s == userStats[user]
    {
      if user in userStats {
        s := userStats[user];
      } else {
        s := ZeroStats;
      }
    }

    /** `_update_user_stats`: insert-or-ignore the row, count the message (and
        the flag), then recompute the risk. */
    method UpdateUserStats(user: string, flagged: bool)
      modifies this
      requires Valid()
      ensures Valid()
      ensures userStats == Bumped(old(userStats), user, flagged)
      ensures flaggedMessages == old(flaggedMessages)
    {
      var stats := userStats;
      if user !in stats {
        stats := stats[user := ZeroStats];
      }
      var row := stats[user];
      assert row == StatsOf(userStats, user);
      if flagged {
        row := row.(totalMessages := row.totalMessages + 1, flaggedMessages := row.flaggedMessages + 1);
      } else {
        row := row.(totalMessages := row.totalMessages + 1);
      }
      if row.totalMessages > 0 {
        row := row.(riskScore := row.flaggedMessages as real / row.totalMessages as real);
      }
      assert stats[user := row] == userStats[user := row];
      assert userStats[user := row] == Bumped(userStats, user, flagged);
      BumpedConsistent(userStats, user, flagged);
      userStats := stats[user := row];
    }

    /** `log_flagged_message`: insert the row under the next id, count a flagged
        message for the user, and return the id. */
    method LogFlaggedMessage(user: string, message: string, violationType: string, confidence: real,
                             detectionMethod: set<string>, patterns: seq<string>) returns (id: nat)
      modifies this
      requires Valid()
      ensures Valid()
      ensures id == |old(flaggedMessages)| + 1
      ensures flaggedMessages == old(flaggedMessages) + [NewRecord(id, user, message, violationType, confidence, detectionMethod, patterns)]
      ensures userStats == Bumped(old(userStats), user, true)
    {
      id := |flaggedMessages| + 1;
      flaggedMessages := flaggedMessages + [NewRecord(id, user, message, violationType, confidence, detectionMethod, patterns)];
      UpdateUserStats(user, true);
    }

    /** `log_safe_message`: count an unflagged message for the user. */
    method LogSafeMessage(user: string)
      modifies this
      requires Valid()
      ensures Valid()
      ensures userStats == Bumped(old(userStats), user, false)
      ensures flaggedMessages == old(flaggedMessages)
    {
      UpdateUserStats(user, false);
    }
  }
}
