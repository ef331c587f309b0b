/**
 * The leaderboard router: the monthly and all-time lists (at most 100
 * rows, highest score first), the requester's rank in the list, and the
 * requester's ranking history. The handlers only read; the current month
 * and year and the requester's ids are parameters.
 */
module Leaderboard {
  import opened Wrappers
  import opened Text
  import opened Schema
  import opened Collections
  import opened Ordering
  import opened Expeditions

  const ListLimit := 100
  const HistoryLimit := 12

  /** A listed row: the (monthly or summed) score and the player's Telegram id. */
  datatype Entry = Entry(score: int, telegramId: string)

  function Score(e: Entry): int {
    e.score
  }

  // --------------------------------------------------------------- userRank

  /** The `userRank` search: 1 + the index of the first entry of the requester, null when none. */
  function RankOf(list: seq<Entry>, telegramId: string): (r: Option<nat>)
    ensures r.None? <==> forall i :: 0 <= i < |list| ==> list[i].telegramId != telegramId
    ensures r.Some? ==> 1 <= r.value <= |list| && list[r.value - 1].telegramId == telegramId
    ensures r.Some? ==> forall i :: 0 <= i < r.value - 1 ==> list[i].telegramId != telegramId
  {
    if list == [] then None
    else if list[0].telegramId == telegramId then Some(1)
    else match RankOf(list[1..], telegramId)
      case None => None
      case Some(k) => Some(k + 1)
  }

  /** The loop that computes `userRank`, stopping at the first match. */
  method UserRank(list: seq<Entry>, telegramId: string) returns (rank: Option<nat>)
    ensures rank == RankOf(list, telegramId)
  {
    rank := None;
    var i := 0;
    while i < |list|
      invariant 0 <= i <= |list|
      invariant forall j :: 0 <= j < i ==> list[j].telegramId != telegramId
    {
      if list[i].telegramId == telegramId {
        rank := Some(i + 1);
        return;
      }
      i := i + 1;
    }
  }

  // ---------------------------------------------------------- monthly list

  /** `leaderboard JOIN users` restricted to one month; a NaN (None) month or year matches nothing. */
  predicate InMonth(r: LeaderRow, users: map<int, User>, month: Option<int>, year: Option<int>) {
    r.userId in users && month == Some(r.month) && year == Some(r.year)
  }

  function MonthRows(rows: seq<LeaderRow>, users: map<int, User>, month: Option<int>, year: Option<int>)
    : (out: seq<LeaderRow>)
    ensures |out| <= |rows|
    ensures forall r :: r in out ==> r in rows && InMonth(r, users, month, year)
    ensures forall r :: r in rows && InMonth(r, users, month, year) ==> r in out
  {
    if rows == [] then []
    else
      var r := rows[|rows| - 1];
      MonthRows(rows[..|rows| - 1], users, month, year) + (if InMonth(r, users, month, year) then [r] else [])
  }

  /** The selected columns of joined rows: score and the user's Telegram id. */
  function Entries(rows: seq<LeaderRow>, users: map<int, User>): (es: seq<Entry>)
    requires forall r :: r in rows ==> r.userId in users
    ensures |es| == |rows|
    ensures forall i :: 0 <= i < |rows| ==> es[i] == Entry(rows[i].score, users[rows[i].userId].telegramId)
  {
    seq(|rows|, i requires 0 <= i < |rows| => Entry(rows[i].score, users[rows[i].userId].telegramId))
  }

  function MonthCandidates(t: Tables, month: Option<int>, year: Option<int>): seq<Entry> {
    Entries(MonthRows(t.leaderboard, t.users, month, year), t.users)
  }

  /** The monthly query: `ORDER BY l.score DESC LIMIT 100` over the month's joined rows. */
  function MonthlyList(t: Tables, month: Option<int>, year: Option<int>): (list: seq<Entry>)
    ensures IsTopSelection(list, MonthCandidates(t, month, year), Score, ListLimit)
    ensures |list| <= ListLimit
  {
    TopBy(MonthCandidates(t, month, year), Score, ListLimit)
  }

  /** Every entry of the monthly list is the score of a row of that month, with its player's Telegram id. */
  lemma MonthlyListed(t: Tables, month: Option<int>, year: Option<int>)
    ensures forall e :: e in MonthlyList(t, month, year) ==>
      exists r :: r in t.leaderboard && InMonth(r, t.users, month, year) && e == Entry(r.score, t.users[r.userId].telegramId)
  {
    var rows := MonthRows(t.leaderboard, t.users, month, year);
    var cands := MonthCandidates(t, month, year);
    SelectionFromCandidates(MonthlyList(t, month, year), cands, Score, ListLimit);
    forall e | e in MonthlyList(t, month, year)
      ensures exists r :: r in t.leaderboard && InMonth(r, t.users, month, year) && e == Entry(r.score, t.users[r.userId].telegramId)
    {
      var j :| 0 <= j < |cands| && cands[j] == e;
      assert rows[j] in rows;
    }
  }

  // --------------------------------------------------------- all-time list

  /** The players with at least one joined row, each once, in order of first row. */
  function Players(rows: seq<LeaderRow>, users: map<int, User>): (ids: seq<int>)
    ensures forall i, j :: 0 <= i < j < |ids| ==> ids[i] != ids[j]
    ensures forall id :: id in ids ==> id in users && exists r :: r in rows && r.userId == id
    ensures forall r :: r in rows && r.userId in users ==> r.userId in ids
  {
    if rows == [] then []
    else
      var r := rows[|rows| - 1];
      var ids := Players(rows[..|rows| - 1], users);
      if r.userId in users && r.userId !in ids then ids + [r.userId] else ids
  }

  /** `SUM(l.score)` over one player's rows. */
  function ScoreSum(rows: seq<LeaderRow>, id: int): int {
    if rows == [] then 0
    else ScoreSum(rows[..|rows| - 1], id) + (if rows[|rows| - 1].userId == id then rows[|rows| - 1].score else 0)
  }

  /** `GROUP BY l.user_id`: one entry per player holding the sum of the player's scores. */
  function AllTimeCandidates(t: Tables): (es: seq<Entry>)
    ensures |es| == |Players(t.leaderboard, t.users)|
    ensures forall i :: 0 <= i < |es| ==>
      var id := Players(t.leaderboard, t.users)[i];
      es[i] == Entry(ScoreSum(t.leaderboard, id), t.users[id].telegramId)
  {
    var ids := Players(t.leaderboard, t.users);
    seq(|ids|, i requires 0 <= i < |ids| => Entry(ScoreSum(t.leaderboard, ids[i]), t.users[ids[i]].telegramId))
  }

  /** The all-time query: `ORDER BY total_score DESC LIMIT 100` over the per-player sums. */
  function AllTimeList(t: Tables): (list: seq<Entry>)
    ensures IsTopSelection(list, AllTimeCandidates(t), Score, ListLimit)
    ensures |list| <= ListLimit
  {
    TopBy(AllTimeCandidates(t), Score, ListLimit)
  }

  /** A player's sum grows by exactly the score of each row added for them, and not by others' rows. */
  lemma ScoreSumAppend(rows: seq<LeaderRow>, row: LeaderRow, id: int)
    ensures ScoreSum(rows + [row], id) == ScoreSum(rows, id) + (if row.userId == id then row.score else 0)
  {
    assert (rows + [row])[..|rows|] == rows;
  }

  /** Sums of non-negative scores are non-negative; a player without rows sums to 0. */
  lemma {:induction false} ScoreSumBounds(rows: seq<LeaderRow>, id: int)
    ensures (forall r :: r in rows ==> r.score >= 0) ==> ScoreSum(rows, id) >= 0
    ensures (forall r :: r in rows ==> r.userId != id) ==> ScoreSum(rows, id) == 0
  {
    if rows != [] {
      var init := rows[..|rows| - 1];
      assert forall r :: r in init ==> r in rows;
      ScoreSumBounds(init, id);
    }
  }

  lemma {:induction false} ScoreSumUpdate(board: seq<LeaderRow>, i: nat, row: LeaderRow, id: int)
    requires i < |board| && row.userId == board[i].userId
    ensures ScoreSum(board[i := row], id)
         == ScoreSum(board, id) + (if row.userId == id then row.score - board[i].score else 0)
  {
    var n := |board|;
    var board' := board[i := row];
    if i < n - 1 {
      assert board'[..n - 1] == board[..n - 1][i := row];
      ScoreSumUpdate(board[..n - 1], i, row, id);
    } else {
      assert board'[..n - 1] == board[..n - 1];
    }
  }

  /**
   * The all-time sum follows `/return`'s leaderboard write: adding a gain
   * to a player's month raises that player's sum by the gain, whether the
   * month's row existed or is inserted, and leaves every other sum alone.
   */
  lemma UpsertRaisesAllTime(board: seq<LeaderRow>, user: int, month: int, year: int, gain: int, id: int)
    ensures ScoreSum(UpsertScore(board, user, month, year, gain), id) == ScoreSum(board, id) + (if id == user then gain else 0)
  {
    match FindScoreRow(board, user, month, year)
    case Some(i) =>
      ScoreSumUpdate(board, i, board[i].(score := board[i].score + gain), id);
    case None =>
      ScoreSumAppend(board, LeaderRow(user, gain, month, year), id);
  }

  // ---------------------------------------------------------------- routes

  /** A list reply; `month`, `year` and `period` are present only where the route sends them. */
  datatype Board = Board(list: seq<Entry>, userRank: Option<nat>, month: Option<int>, year: Option<int>,
                         period: Option<string>)

  /**
   * GET `/`: the period defaults to `month`; `month`/`monthly` give the
   * current month's list, `all-time`/`global` the all-time list, anything
   * else 400.
   */
  function BoardOutcome(t: Tables, period: Option<string>, telegramId: string, month: int, year: int)
    : (r: Result<Board, HttpError>)
    ensures r.Ok? <==> period.GetOr("month") in {"month", "monthly", "all-time", "global"}
    ensures r.Ok? ==> |r.value.list| <= ListLimit
    ensures r.Ok? && period.GetOr("month") in {"month", "monthly"} ==>
      r.value.list == MonthlyList(t, Some(month), Some(year)) && r.value.period == Some("month")
    ensures r.Ok? && period.GetOr("month") in {"all-time", "global"} ==>
      r.value.list == AllTimeList(t) && r.value.period == Some("all-time")
    ensures r.Ok? ==> r.value.userRank == RankOf(r.value.list, telegramId)
  {
    var p := period.GetOr("month");
    if p == "month" || p == "monthly" then
      var list := MonthlyList(t, Some(month), Some(year));
      Ok(Board(list, RankOf(list, telegramId), Some(month), Some(year), Some("month")))
    else if p == "all-time" || p == "global" then
      var list := AllTimeList(t);
      Ok(Board(list, RankOf(list, telegramId), None, None, Some("all-time")))
    else Err(HttpError(400, "Invalid period parameter. Use \"month\" or \"all-time\"."))
  }

  method GetBoard(db: Database, period: Option<string>, telegramId: string, month: int, year: int)
    returns (r: Result<Board, HttpError>)
    ensures r == BoardOutcome(db.State(), period, telegramId, month, year)
  {
    var p := period.GetOr("month");
    var t := db.State();
    if p == "month" || p == "monthly" {
      var list := MonthlyList(t, Some(month), Some(year));
      var rank := UserRank(list, telegramId);
      r := Ok(Board(list, rank, Some(month), Some(year), Some("month")));
    } else if p == "all-time" || p == "global" {
      var list := AllTimeList(t);
      var rank := UserRank(list, telegramId);
      r := Ok(Board(list, rank, None, None, Some("all-time")));
    } else {
      r := Err(HttpError(400, "Invalid period parameter. Use \"month\" or \"all-time\"."));
    }
  }

  /** `month ? parseInt(month) : current`: an absent or empty argument means the current value. */
  function QueryOr(arg: Option<string>, current: int): (v: Option<int>)
    ensures arg.None? || arg == Some("") ==> v == Some(current)
  {
    if arg.None? || arg == Some("") then Some(current) else ParseInt(arg.value)
  }

  /** `/monthly` defaults to the current month and year and otherwise lists the month asked for. */
  lemma MonthlyDefaults(monthArg: Option<string>, m: int, current: int)
    ensures monthArg.None? ==> QueryOr(monthArg, current) == Some(current)
    ensures monthArg == Some(IntToString(m)) ==> QueryOr(monthArg, current) == Some(m)
  {
    ParseIntToString(m);
  }

  /** GET `/monthly`: the list of the requested (or current) month. */
  function MonthlyBoard(t: Tables, monthArg: Option<string>, yearArg: Option<string>, telegramId: string,
                        month: int, year: int): (b: Board)
    ensures b.list == MonthlyList(t, QueryOr(monthArg, month), QueryOr(yearArg, year))
    ensures b.userRank == RankOf(b.list, telegramId)
  {
    var m, y := QueryOr(monthArg, month), QueryOr(yearArg, year);
    var list := MonthlyList(t, m, y);
    Board(list, RankOf(list, telegramId), m, y, None)
  }

  method GetMonthly(db: Database, monthArg: Option<string>, yearArg: Option<string>, telegramId: string,
                    month: int, year: int) returns (b: Board)
    ensures b == MonthlyBoard(db.State(), monthArg, yearArg, telegramId, month, year)
  {
    var m, y := QueryOr(monthArg, month), QueryOr(yearArg, year);
    var list := MonthlyList(db.State(), m, y);
    var rank := UserRank(list, telegramId);
    b := Board(list, rank, m, y, None);
  }

  /** GET `/global`: the all-time list and the requester's rank. */
  method GetGlobal(db: Database, telegramId: string) returns (b: Board)
    ensures b.list == AllTimeList(db.State()) && b.month.None? && b.year.None? && b.period.None?
    ensures b.userRank == RankOf(b.list, telegramId)
  {
    var list := AllTimeList(db.State());
    var rank := UserRank(list, telegramId);
    b := Board(list, rank, None, None, None);
  }

  // ------------------------------------------------------------ /my-history

  /** How many rows of the same month and year score strictly more than `score`. */
  function CountAbove(rows: seq<LeaderRow>, month: int, year: int, score: int): (n: nat)
    ensures n <= |rows|
  {
    if rows == [] then 0
    else
      var r := rows[|rows| - 1];
      CountAbove(rows[..|rows| - 1], month, year, score)
        + (if r.month == month && r.year == year && r.score > score then 1 else 0)
  }

  /** The number of rows of a month. */
  function CountIn(rows: seq<LeaderRow>, month: int, year: int): nat {
    if rows == [] then 0
    else CountIn(rows[..|rows| - 1], month, year) + (if rows[|rows| - 1].month == month && rows[|rows| - 1].year == year then 1 else 0)
  }

  /** The correlated subquery: 1 + the rows of the same month with a strictly greater score. */
  function Rank(rows: seq<LeaderRow>, r: LeaderRow): int {
    CountAbove(rows, r.month, r.year, r.score) + 1
  }

  /** A higher threshold is passed by no more rows. */
  lemma {:induction false} CountAboveMonotone(rows: seq<LeaderRow>, month: int, year: int, lo: int, hi: int)
    requires lo <= hi
    ensures CountAbove(rows, month, year, hi) <= CountAbove(rows, month, year, lo)
  {
    if rows != [] {
      CountAboveMonotone(rows[..|rows| - 1], month, year, lo, hi);
    }
  }

  /** A row of the month scoring above `lo` is counted at `lo` but not at its own score. */
  lemma {:induction false} CountAboveStrict(rows: seq<LeaderRow>, lo: int, a: LeaderRow)
    requires a in rows && lo < a.score
    ensures CountAbove(rows, a.month, a.year, a.score) + 1 <= CountAbove(rows, a.month, a.year, lo)
  {
    var init := rows[..|rows| - 1];
    CountAboveMonotone(init, a.month, a.year, lo, a.score);
    if a in init {
      CountAboveStrict(init, lo, a);
    } else {
      assert rows[|rows| - 1] == a;
    }
  }

  /** Rows scoring above a row of the month are fewer than the month's rows. */
  lemma {:induction false} CountAboveWithin(rows: seq<LeaderRow>, a: LeaderRow)
    requires a in rows
    ensures CountAbove(rows, a.month, a.year, a.score) + 1 <= CountIn(rows, a.month, a.year)
  {
    var init := rows[..|rows| - 1];
    if a in init {
      CountAboveWithin(init, a);
    } else {
      CountAboveAtMost(init, a.month, a.year, a.score);
    }
  }

  lemma {:induction false} CountAboveAtMost(rows: seq<LeaderRow>, month: int, year: int, score: int)
    ensures CountAbove(rows, month, year, score) <= CountIn(rows, month, year)
  {
    if rows != [] {
      CountAboveAtMost(rows[..|rows| - 1], month, year, score);
    }
  }

  /**
   * The rank formula orders the rows of a month by score: equal scores
   * share a rank, a strictly higher score has a strictly better (smaller)
   * rank, and every rank lies between 1 and the number of rows of the month.
   */
  lemma RankOrdersScores(rows: seq<LeaderRow>, a: LeaderRow, b: LeaderRow)
    requires a in rows && b in rows && a.month == b.month && a.year == b.year
    ensures 1 <= Rank(rows, a) <= CountIn(rows, a.month, a.year)
    ensures a.score == b.score ==> Rank(rows, a) == Rank(rows, b)
    ensures a.score > b.score ==> Rank(rows, a) < Rank(rows, b)
  {
    CountAboveWithin(rows, a);
    if a.score > b.score {
      CountAboveStrict(rows, b.score, a);
    }
  }

  /** `ORDER BY l.year DESC, l.month DESC` as one number, for months 1..12. */
  function PeriodKey(r: LeaderRow): int {
    r.year * 12 + r.month - 1
  }

  /** For months 1..12, the period key orders rows by year and then by month. */
  lemma PeriodKeyOrder(a: LeaderRow, b: LeaderRow)
    requires 1 <= a.month <= 12 && 1 <= b.month <= 12
    ensures PeriodKey(a) > PeriodKey(b) <==> a.year > b.year || (a.year == b.year && a.month > b.month)
    ensures PeriodKey(a) == PeriodKey(b) <==> a.year == b.year && a.month == b.month
  {
  }

  function UserOf(r: LeaderRow): int {
    r.userId
  }

  /** A `/my-history` entry. */
  datatype Ranking = Ranking(month: int, year: int, score: int, rank: int)

  /** The requester's rows, latest period first, at most 12. */
  function HistoryRows(t: Tables, user: int): (sel: seq<LeaderRow>)
    ensures IsTopSelection(sel, WithKey(t.leaderboard, UserOf, user), PeriodKey, HistoryLimit)
  {
    TopBy(WithKey(t.leaderboard, UserOf, user), PeriodKey, HistoryLimit)
  }

  /** `/my-history`: up to 12 of the requester's rows, each with its rank among all rows of its month. */
  function MyHistory(t: Tables, user: int): (hs: seq<Ranking>)
    ensures |hs| == |HistoryRows(t, user)| <= HistoryLimit
  {
    var sel := HistoryRows(t, user);
    seq(|sel|, i requires 0 <= i < |sel| => Ranking(sel[i].month, sel[i].year, sel[i].score, Rank(t.leaderboard, sel[i])))
  }

  /**
   * Each history entry is one of the requester's own rows, with its month,
   * year and score, and a rank between 1 and the number of rows of that
   * month.
   */
  lemma MyHistorySound(t: Tables, user: int, i: nat)
    requires i < |MyHistory(t, user)|
    ensures var r := HistoryRows(t, user)[i]; var h := MyHistory(t, user)[i];
      && r in t.leaderboard && r.userId == user
      && h.month == r.month && h.year == r.year && h.score == r.score
      && 1 <= h.rank <= CountIn(t.leaderboard, r.month, r.year)
  {
    var sel := HistoryRows(t, user);
    SelectionFromCandidates(sel, WithKey(t.leaderboard, UserOf, user), PeriodKey, HistoryLimit);
    assert sel[i] in sel;
    CountAboveWithin(t.leaderboard, sel[i]);
  }
}
