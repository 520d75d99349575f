/**
 * The cloud backend's session store (cloud/storage.py): an in-memory list
 * of game sessions, upserted by (session_id, device_id), with a per-player
 * leaderboard and overall statistics computed from it.
 *
 * Only the fields the store reads are kept in a session. Timestamps are
 * integers (the datetimes compare as their instants). The lock, the JSON
 * file and the floating-point averages are not part of this model; the
 * integer sum the average is computed from is kept instead.
 */
module CloudStorage {
  import opened Wrappers
  import opened StableSort

  /** `GameSession`, restricted to the fields the store reads. */
  datatype GameSession = GameSession(
    sessionId: string, deviceId: string, player: string,
    startedAt: int, endedAt: Option<int>, totalScore: int)

  /** Sessions are identified by (session_id, device_id). */
  predicate SameKey(a: GameSession, b: GameSession) {
    a.sessionId == b.sessionId && a.deviceId == b.deviceId
  }

  /** No two stored sessions share a key. */
  predicate UniqueKeys(ss: seq<GameSession>) {
    forall i, j :: 0 <= i < j < |ss| ==> !SameKey(ss[i], ss[j])
  }

  /** Index of the first stored session with s's key, searching from `from`. */
  function FirstMatch(ss: seq<GameSession>, s: GameSession, from: nat): (r: Option<nat>)
    requires from <= |ss|
    decreases |ss| - from
    ensures r.Some? ==> (from <= r.value < |ss| && SameKey(ss[r.value], s)
      && forall j :: from <= j < r.value ==> !SameKey(ss[j], s))
    ensures r.None? ==> forall j :: from <= j < |ss| ==> !SameKey(ss[j], s)
  {
    if from == |ss| then None
    else if SameKey(ss[from], s) then Some(from)
    else FirstMatch(ss, s, from + 1)
  }

  /** The stored list after an upsert: the first session with the same key replaced, or s appended. */
  function Upserted(ss: seq<GameSession>, s: GameSession): seq<GameSession> {
    match FirstMatch(ss, s, 0)
    case Some(i) => ss[i := s]
    case None => ss + [s]
  }

  /** `session.player or "anon"`: the name a session counts under. */
  function Player(s: GameSession): string {
    if s.player == "" then "anon" else s.player
  }

  /** The running figures `leaderboard` keeps per player. */
  datatype Metrics = Metrics(best: Option<int>, total: int, count: nat, last: Option<int>)

  const NoMetrics := Metrics(None, 0, 0, None)

  /** One session folded into a player's figures. */
  function Fold(m: Metrics, s: GameSession): Metrics {
    Metrics(
      if m.best.None? then Some(s.totalScore) else Some(Max(m.best.value, s.totalScore)),
      m.total + s.totalScore,
      m.count + 1,
      if m.last.None? || (s.endedAt.Some? && s.endedAt.value > m.last.value)
      then Some(if s.endedAt.Some? then s.endedAt.value else s.startedAt)
      else m.last)
  }

  function Max(a: int, b: int): int { if a < b then b else a }

  /** The `by_player` dictionary after folding in every session, in order. */
  function Aggregate(ss: seq<GameSession>): map<string, Metrics> {
    if ss == [] then map[]
    else
      var m := Aggregate(ss[..|ss| - 1]);
      var s := ss[|ss| - 1];
      m[Player(s) := Fold(if Player(s) in m then m[Player(s)] else NoMetrics, s)]
  }

  /** The players in the order `by_player` first saw them (its iteration order). */
  function Order(ss: seq<GameSession>): seq<string> {
    if ss == [] then []
    else
      var o := Order(ss[..|ss| - 1]);
      var p := Player(ss[|ss| - 1]);
      if p in o then o else o + [p]
  }

  /** `LeaderboardEntry`, with the integer sum behind `average_score` in place of the average. */
  datatype Entry = Entry(player: string, bestScore: int, sessions: nat, lastPlayed: Option<int>, totalScore: int)

  function EntryOf(player: string, m: Metrics): Entry {
    Entry(player, if m.best.Some? then m.best.value else 0, m.count, m.last, m.total)
  }

  function BestScore(e: Entry): int { e.bestScore }

  /** Python's `entries[:limit]`, negative limits counting from the end. */
  function Limited<T>(s: seq<T>, limit: int): (r: seq<T>)
    ensures limit >= 0 ==> |r| <= limit
    ensures |r| <= |s| && r == s[..|r|]
  {
    if limit >= 0 then (if limit < |s| then s[..limit] else s)
    else if -limit < |s| then s[..|s| + limit] else []
  }

  /** Every player counted in the aggregate is listed in the order exactly once, and vice versa. */
  lemma {:induction false} OrderMatchesAggregate(ss: seq<GameSession>)
    ensures forall p :: p in Order(ss) <==> p in Aggregate(ss)
    ensures forall i, j :: 0 <= i < j < |Order(ss)| ==> Order(ss)[i] != Order(ss)[j]
  {
    if ss != [] {
      OrderMatchesAggregate(ss[..|ss| - 1]);
    }
  }

  /** Folding in one more session updates only that session's player. */
  lemma AggregateStep(ss: seq<GameSession>, i: nat)
    requires i < |ss|
    ensures var p := Player(ss[i]);
      var m := Aggregate(ss[..i]);
      && Aggregate(ss[..i + 1]) == m[p := Fold(if p in m then m[p] else NoMetrics, ss[i])]
      && Order(ss[..i + 1]) == if p in Order(ss[..i]) then Order(ss[..i]) else Order(ss[..i]) + [p]
  {
    assert ss[..i + 1][..i] == ss[..i];
  }

  class DataStore {
    /** `self.sessions`. */
    var sessions: seq<GameSession>

    constructor ()
      ensures sessions == []
    {
      sessions := [];
    }

    /**
     * `add_session`: scan for a stored session with the same
     * (session_id, device_id); replace the first one found in place, or
     * append the session when there is none.
     */
    method AddSession(session: GameSession)
      modifies this
      ensures sessions == Upserted(old(sessions), session)
    {
      var idx := 0;
      while idx < |sessions|
        invariant 0 <= idx <= |sessions|
        invariant sessions == old(sessions)
        invariant forall j :: 0 <= j < idx ==> !SameKey(sessions[j], session)
      {
        if SameKey(sessions[idx], session) {
          assert FirstMatch(sessions, session, 0) == Some(idx);
          sessions := sessions[idx := session];
          return;
        }
        idx := idx + 1;
      }
      sessions := sessions + [session];
    }

    /**
     * `leaderboard`: fold every session into its player's figures, in
     * order; list one entry per player in first-seen order; sort by best
     * score (stable, best first) and cut to `limit`.
     */
    method Leaderboard(limit: int) returns (entries: seq<Entry>)
      ensures entries == Limited(SortDesc(Entries(sessions), BestScore), limit)
    {
      var byPlayer: map<string, Metrics> := map[];
      var order: seq<string> := [];
      var i := 0;
      while i < |sessions|
        invariant 0 <= i <= |sessions|
        invariant byPlayer == Aggregate(sessions[..i]) && order == Order(sessions[..i])
      {
        var session := sessions[i];
        var player := if session.player == "" then "anon" else session.player;
        ghost var before := byPlayer;
        OrderMatchesAggregate(sessions[..i]);
        if player !in byPlayer {
          byPlayer := byPlayer[player := NoMetrics];
          order := order + [player];
        }
        var m0 := byPlayer[player];
        var m := FoldSession(m0, session);
        byPlayer := byPlayer[player := m];
        assert byPlayer == before[player := Fold(if player in before then before[player] else NoMetrics, session)];
        AggregateStep(sessions, i);
        i := i + 1;
      }
      assert sessions[..i] == sessions;
      OrderMatchesAggregate(sessions);
      entries := seq(|order|, k requires 0 <= k < |order| => EntryOf(order[k], byPlayer[order[k]]));
      assert entries == Entries(sessions);
      entries := SortDesc(entries, BestScore);
      entries := Limited(entries, limit);
    }

    /** The body of `leaderboard`'s loop: one session folded into its player's figures. */
    static method FoldSession(m0: Metrics, session: GameSession) returns (m: Metrics)
      ensures m.count == m0.count + 1 && m.total == m0.total + session.totalScore
      ensures m.best.Some? && m.best.value >= session.totalScore
      ensures m0.best.Some? ==> m.best.value >= m0.best.value
      ensures m == Fold(m0, session)
    {
      m := m0;
      m := m.(total := m.total + session.totalScore, count := m.count + 1);
      m := m.(best := if m.best.None? then Some(session.totalScore) else Some(Max(m.best.value, session.totalScore)));
      if m.last.None? || (session.endedAt.Some? && session.endedAt.value > m.last.value) {
        m := m.(last := Some(if session.endedAt.Some? then session.endedAt.value else session.startedAt));
      }
    }

    /** `stats`. */
    function Stats(): Summary
      reads this
    {
      Summarize(sessions)
    }
  }

  /** The per-player entries in first-seen order, before sorting. */
  function Entries(ss: seq<GameSession>): (r: seq<Entry>)
    ensures |r| == |Order(ss)|
  {
    OrderMatchesAggregate(ss);
    seq(|Order(ss)|, k requires 0 <= k < |Order(ss)| => EntryOf(Order(ss)[k], Aggregate(ss)[Order(ss)[k]]))
  }

  /** `Stats`, without the floating-point average. */
  datatype Summary = Summary(totalSessions: nat, totalPlayers: nat, bestScore: Option<int>)

  /** The set of players with at least one session. */
  function Players(ss: seq<GameSession>): set<string> {
    set i | 0 <= i < |ss| :: Player(ss[i])
  }

  /** The highest total_score of a non-empty list. */
  function MaxScore(ss: seq<GameSession>): int
    requires ss != []
  {
    if |ss| == 1 then ss[0].totalScore else Max(MaxScore(ss[..|ss| - 1]), ss[|ss| - 1].totalScore)
  }

  /** `stats`: zeros and no best score for an empty store; otherwise the counts and the best score. */
  function Summarize(ss: seq<GameSession>): (r: Summary)
    ensures ss == [] <==> r == Summary(0, 0, None)
  {
    if ss == [] then Summary(0, 0, None)
    else
      assert Player(ss[0]) in Players(ss);
      Summary(|ss|, |Players(ss)|, Some(MaxScore(ss)))
  }

  /**
   * An upsert stores the session, grows the list only when no stored
   * session has its key, and keeps every stored session with another key.
   */
  lemma UpsertSpec(ss: seq<GameSession>, s: GameSession)
    ensures var r := Upserted(ss, s);
      && s in r
      && |r| == (if exists j :: 0 <= j < |ss| && SameKey(ss[j], s) then |ss| else |ss| + 1)
      && (forall t :: t in ss && !SameKey(t, s) ==> t in r)
      && (forall t :: t in r && t != s ==> t in ss)
  {
    match FirstMatch(ss, s, 0)
    case Some(i) =>
      var r := ss[i := s];
      assert r[i] == s;
      forall t | t in ss && !SameKey(t, s) ensures t in r {
        var k :| 0 <= k < |ss| && ss[k] == t;
        assert r[k] == t;
      }
    case None =>
      var r := ss + [s];
      assert r[|ss|] == s;
  }

  /** Upserting keeps the stored keys unique. */
  lemma UpsertUnique(ss: seq<GameSession>, s: GameSession)
    requires UniqueKeys(ss)
    ensures UniqueKeys(Upserted(ss, s))
  {
    match FirstMatch(ss, s, 0)
    case Some(i) =>
      var r := ss[i := s];
      forall a, b | 0 <= a < b < |r| ensures !SameKey(r[a], r[b]) {
        if a == i {
          assert !SameKey(ss[i], ss[b]);
        } else if b == i {
          assert !SameKey(ss[a], ss[i]);
        }
      }
    case None =>
  }

  /** The player of each session, in order. */
  function PlayersOf(ss: seq<GameSession>): (r: seq<string>)
    ensures |r| == |ss|
  {
    seq(|ss|, i requires 0 <= i < |ss| => Player(ss[i]))
  }

  /** The players of a list that grows by one session. */
  lemma PlayersSnoc(ss: seq<GameSession>)
    requires ss != []
    ensures Players(ss) == Players(ss[..|ss| - 1]) + {Player(ss[|ss| - 1])}
    ensures PlayersOf(ss) == PlayersOf(ss[..|ss| - 1]) + [Player(ss[|ss| - 1])]
  {
    var n := |ss| - 1;
    var init := ss[..n];
    forall q | q in Players(ss) ensures q in Players(init) + {Player(ss[n])} {
      var i :| 0 <= i < |ss| && Player(ss[i]) == q;
      if i < n {
        assert Player(init[i]) == q;
      }
    }
    forall q | q in Players(init) ensures q in Players(ss) {
      var i :| 0 <= i < |init| && Player(init[i]) == q;
      assert Player(ss[i]) == q;
    }
  }

  /** Each player's figures: exactly the players with a session have them, and `sessions` counts those sessions. */
  lemma {:induction false} AggregateCount(ss: seq<GameSession>, p: string)
    ensures p in Aggregate(ss) <==> p in Players(ss)
    ensures p in Aggregate(ss) ==> Aggregate(ss)[p].count == multiset(PlayersOf(ss))[p]
  {
    if ss != [] {
      AggregateCount(ss[..|ss| - 1], p);
      PlayersSnoc(ss);
    }
  }

  /** A player's `best` is the highest score among the player's sessions. */
  lemma {:induction false} AggregateBest(ss: seq<GameSession>, p: string)
    requires p in Aggregate(ss)
    ensures var m := Aggregate(ss)[p];
      && m.best.Some? && m.last.Some?
      && (forall i :: 0 <= i < |ss| && Player(ss[i]) == p ==> ss[i].totalScore <= m.best.value)
      && (exists i :: 0 <= i < |ss| && Player(ss[i]) == p && ss[i].totalScore == m.best.value)
  {
    var n := |ss| - 1;
    var init := ss[..n];
    var m := Aggregate(ss)[p];
    if p in Aggregate(init) {
      AggregateBest(init, p);
      var prev := Aggregate(init)[p].best.value;
      assert forall i :: 0 <= i < n ==> ss[i] == init[i];
      var j :| 0 <= j < n && Player(init[j]) == p && init[j].totalScore == prev;
      if Player(ss[n]) == p && ss[n].totalScore > prev {
        assert ss[n].totalScore == m.best.value;
      } else {
        assert Player(ss[j]) == p && ss[j].totalScore == m.best.value;
      }
    } else {
      AggregateCount(init, p);
      assert forall i :: 0 <= i < n ==> Player(ss[i]) != p by {
        forall i | 0 <= i < n ensures Player(ss[i]) != p {
          assert ss[i] == init[i];
          assert Player(init[i]) in Players(init);
        }
      }
      assert Player(ss[n]) == p;
    }
  }

  /** A leaderboard entry as it should be: a player's session count and best score. */
  ghost predicate PlayerEntry(ss: seq<GameSession>, e: Entry) {
    && e.player in Players(ss)
    && e.sessions == multiset(PlayersOf(ss))[e.player]
    && (forall i :: 0 <= i < |ss| && Player(ss[i]) == e.player ==> ss[i].totalScore <= e.bestScore)
    && (exists i :: 0 <= i < |ss| && Player(ss[i]) == e.player && ss[i].totalScore == e.bestScore)
  }

  /** Before sorting there is exactly one entry per player, each with that player's figures. */
  lemma EntriesSpec(ss: seq<GameSession>)
    ensures forall k :: 0 <= k < |Entries(ss)| ==> PlayerEntry(ss, Entries(ss)[k])
    ensures forall i, j :: 0 <= i < j < |Entries(ss)| ==> Entries(ss)[i].player != Entries(ss)[j].player
    ensures forall p :: p in Players(ss) ==> exists k :: 0 <= k < |Entries(ss)| && Entries(ss)[k].player == p
  {
    OrderMatchesAggregate(ss);
    var es := Entries(ss);
    forall k | 0 <= k < |es| ensures PlayerEntry(ss, es[k]) {
      AggregateCount(ss, Order(ss)[k]);
      AggregateBest(ss, Order(ss)[k]);
    }
    forall p | p in Players(ss) ensures exists k :: 0 <= k < |es| && es[k].player == p {
      AggregateCount(ss, p);
      var k :| 0 <= k < |Order(ss)| && Order(ss)[k] == p;
      assert es[k].player == p;
    }
  }

  /**
   * `leaderboard(limit)`: a permutation of the per-player entries, best
   * score first, of which the first `limit` are returned.
   */
  lemma LeaderboardSpec(ss: seq<GameSession>, limit: int)
    ensures var sorted := SortDesc(Entries(ss), BestScore);
      var r := Limited(sorted, limit);
      && multiset(sorted) == multiset(Entries(ss)) && SortedDesc(sorted, BestScore)
      && r == sorted[..|r|]
      && (limit >= 0 ==> |r| == if limit < |sorted| then limit else |sorted|)
      && (forall e :: e in r ==> PlayerEntry(ss, e))
  {
    var es := Entries(ss);
    var sorted := SortDesc(es, BestScore);
    SortDescPerm(es, BestScore);
    SortDescSorted(es, BestScore);
    EntriesSpec(ss);
    var r := Limited(sorted, limit);
    forall e | e in r ensures PlayerEntry(ss, e) {
      assert e in multiset(es);
    }
  }

  /** A list without repeats has as many distinct elements as it is long. */
  lemma {:induction false} DistinctCard<T>(s: seq<T>)
    requires forall i, j :: 0 <= i < j < |s| ==> s[i] != s[j]
    ensures |set x | x in s| == |s|
  {
    if s != [] {
      var n := |s| - 1;
      DistinctCard(s[..n]);
      assert (set x | x in s) == (set x | x in s[..n]) + {s[n]};
      assert s[n] !in s[..n];
    }
  }

  /** `stats` counts as many players as the leaderboard has entries before the cut. */
  lemma StatsPlayers(ss: seq<GameSession>)
    ensures Summarize(ss).totalPlayers == |Entries(ss)|
  {
    OrderMatchesAggregate(ss);
    assert Players(ss) == set x | x in Order(ss) by {
      forall p ensures p in Players(ss) <==> p in Order(ss) {
        AggregateCount(ss, p);
      }
    }
    DistinctCard(Order(ss));
  }

  /** The best score `stats` reports is the top leaderboard entry's. */
  lemma StatsBest(ss: seq<GameSession>)
    requires ss != []
    ensures Summarize(ss).bestScore == Some(SortDesc(Entries(ss), BestScore)[0].bestScore)
  {
    assert |Entries(ss)| > 0 by {
      EntriesSpec(ss);
      assert Player(ss[0]) in Players(ss);
    }
    TopAtMostMax(ss);
    MaxAtMostTop(ss);
  }

  /** No player's best exceeds the best score of all sessions. */
  lemma TopAtMostMax(ss: seq<GameSession>)
    requires ss != [] && |Entries(ss)| > 0
    ensures SortDesc(Entries(ss), BestScore)[0].bestScore <= MaxScore(ss)
  {
    var es := Entries(ss);
    var sorted := SortDesc(es, BestScore);
    SortDescPerm(es, BestScore);
    EntriesSpec(ss);
    MaxScoreSpec(ss);
    assert sorted[0] in multiset(es);
    assert PlayerEntry(ss, sorted[0]);
  }

  /** The player with the best session has an entry with that best, and the top entry is at least as good. */
  lemma MaxAtMostTop(ss: seq<GameSession>)
    requires ss != [] && |Entries(ss)| > 0
    ensures MaxScore(ss) <= SortDesc(Entries(ss), BestScore)[0].bestScore
  {
    var k := EntryWithMax(ss);
    TopAtLeast(Entries(ss), k);
  }

  /** Some entry's best is at least the highest score. */
  lemma EntryWithMax(ss: seq<GameSession>) returns (k: nat)
    requires ss != []
    ensures k < |Entries(ss)| && MaxScore(ss) <= Entries(ss)[k].bestScore
  {
    var es := Entries(ss);
    MaxScoreSpec(ss);
    var i :| 0 <= i < |ss| && ss[i].totalScore == MaxScore(ss);
    EntriesSpec(ss);
    assert Player(ss[i]) in Players(ss);
    k :| 0 <= k < |es| && es[k].player == Player(ss[i]);
    assert PlayerEntry(ss, es[k]);
  }

  /** The first entry after sorting is at least as good as any entry before. */
  lemma TopAtLeast(es: seq<Entry>, k: nat)
    requires k < |es|
    ensures |SortDesc(es, BestScore)| > 0 && SortDesc(es, BestScore)[0].bestScore >= es[k].bestScore
  {
    var sorted := SortDesc(es, BestScore);
    SortDescPerm(es, BestScore);
    SortDescSorted(es, BestScore);
    assert es[k] in multiset(sorted);
    var k' :| 0 <= k' < |sorted| && sorted[k'] == es[k];
    assert BestScore(sorted[0]) >= BestScore(sorted[k']);
  }

  /** MaxScore is the highest score, and some session has it. */
  lemma {:induction false} MaxScoreSpec(ss: seq<GameSession>)
    requires ss != []
    ensures forall i :: 0 <= i < |ss| ==> ss[i].totalScore <= MaxScore(ss)
    ensures exists i :: 0 <= i < |ss| && ss[i].totalScore == MaxScore(ss)
  {
    if |ss| > 1 {
      var n := |ss| - 1;
      MaxScoreSpec(ss[..n]);
      assert forall i :: 0 <= i < n ==> ss[i] == ss[..n][i];
      if ss[n].totalScore < MaxScore(ss[..n]) {
        var j :| 0 <= j < n && ss[..n][j].totalScore == MaxScore(ss[..n]);
        assert ss[j].totalScore == MaxScore(ss);
      } else {
        assert ss[n].totalScore == MaxScore(ss);
      }
    } else {
      assert ss[0].totalScore == MaxScore(ss);
    }
  }
}
