/**
 * The dashboard's leaderboard (dashboard/src/dashboard/leaderboard.py): the
 * top five scores, best first, kept in a list that `add_entry` appends to,
 * sorts and truncates in place.
 *
 * The lock, the JSON file the list is saved to and loaded from, and
 * `calculate_score` (floating point) are not part of this model: the score
 * arrives as an integer argument.
 */
module DashboardLeaderboard {
  import opened Json
  import opened StableSort

  /** Keep only the top N scores. */
  const MaxEntries := 5

  /** `LeaderboardEntry`. */
  datatype Entry = Entry(score: int, deviceId: Json, timestamp: int)

  /** The sort key: `lambda e: e.score`. */
  function Score(e: Entry): int { e.score }

  /** The list `add_entry` leaves: entries by score, best first, ties in arrival order, at most five. */
  function Ranked(entries: seq<Entry>): (r: seq<Entry>)
    ensures |r| == if |entries| < MaxEntries then |entries| else MaxEntries
  {
    Truncated(SortDesc(entries, Score))
  }

  /** `asdict(e)`. */
  function AsDict(e: Entry): Object {
    map["score" := JInt(e.score), "device_id" := e.deviceId, "timestamp" := JInt(e.timestamp)]
  }

  class Leaderboard {
    /** The in-memory `leaderboard` list. */
    var entries: seq<Entry>

    /** What `add_entry` establishes: best first, at most five entries. */
    ghost predicate Valid()
      reads this
    {
      SortedDesc(entries, Score) && |entries| <= MaxEntries
    }

    /** The empty board of a first start (no saved file). */
    constructor ()
      ensures entries == [] && Valid()
    {
      entries := [];
    }

    /**
     * `add_entry`: append the entry, sort by score (stable, best first) and
     * delete everything after the fifth.
     */
    method AddEntry(deviceId: Json, score: int, timestamp: int)
      modifies this
      ensures entries == Ranked(old(entries) + [Entry(score, deviceId, timestamp)])
      ensures Valid()
    {
      var entry := Entry(score, deviceId, timestamp);
      entries := entries + [entry];
      SortDescSorted(entries, Score);
      entries := SortDesc(entries, Score);
      if |entries| > MaxEntries {  // del leaderboard[MAX_ENTRIES:]
        entries := entries[..MaxEntries];
      }
    }

    /** `get_leaderboard`: the entries as dictionaries, in board order. */
    function GetLeaderboard(): (r: seq<Object>)
      reads this
      ensures |r| == |entries|
      ensures forall i :: 0 <= i < |r| ==>
        r[i].Keys == {"score", "device_id", "timestamp"}
        && r[i]["score"] == JInt(entries[i].score) && r[i]["device_id"] == entries[i].deviceId
        && r[i]["timestamp"] == JInt(entries[i].timestamp)
    {
      seq(|entries|, i requires 0 <= i < |entries| reads this => AsDict(entries[i]))
    }
  }

  /**
   * On a valid board, a new entry lands right after every entry scoring at
   * least as much (ties keep the older entry ahead): it stays on the board
   * exactly when fewer than five entries do, and otherwise the board is
   * unchanged.
   */
  lemma AddToBoard(board: seq<Entry>, e: Entry)
    requires SortedDesc(board, Score) && |board| <= MaxEntries
    ensures var p := CountAtLeast(board, e.score, Score);
      && p <= |board|
      && (p < MaxEntries ==> Ranked(board + [e]) == Truncated(board[..p] + [e] + board[p..]) && Ranked(board + [e])[p] == e)
      && (p >= MaxEntries ==> Ranked(board + [e]) == board)
  {
    var p, r := RankedSplice(board, e);
    assert |r| == |board| + 1 && r[p] == e;
    if p >= MaxEntries {
      assert p == |board| && board[p..] == [];
      assert r[..MaxEntries] == board;
    }
  }

  /** Before truncation, the sorted list is the board with the entry spliced in at `p`. */
  lemma RankedSplice(board: seq<Entry>, e: Entry) returns (p: nat, r: seq<Entry>)
    requires SortedDesc(board, Score)
    ensures p == CountAtLeast(board, e.score, Score) && p <= |board|
    ensures r == board[..p] + [e] + board[p..] && Ranked(board + [e]) == Truncated(r)
  {
    p := CountAtLeast(board, e.score, Score);
    AppendedPosition(board, e, Score);
    SortDescSortedId(board, Score);
    r := board[..p] + [e] + board[p..];
  }

  /** `del entries[MaxEntries:]`. */
  function Truncated(s: seq<Entry>): seq<Entry> {
    if |s| > MaxEntries then s[..MaxEntries] else s
  }
}
