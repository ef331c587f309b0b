/**
 * What the expedition routes read from and write to the store, as functions
 * over the tables: the active-expedition lookup, the loot of an expedition,
 * the settlement of loot into inventory, currency and the monthly
 * leaderboard, and the lemmas that tie them together.
 */
module Expeditions {
  import opened Wrappers
  import opened Schema

  predicate IsActiveFor(e: Expedition, user: int) {
    e.userId == user && e.status == Active
  }

  /** `SELECT * FROM expeditions WHERE user_id = ? AND status = 'active'`: the first such row. */
  function FirstActive(exps: seq<Expedition>, user: int): (r: Option<nat>)
    ensures r.Some? ==> r.value < |exps| && IsActiveFor(exps[r.value], user)
    ensures r.Some? ==> forall j :: 0 <= j < r.value ==> !IsActiveFor(exps[j], user)
    ensures r.None? ==> forall j :: 0 <= j < |exps| ==> !IsActiveFor(exps[j], user)
  {
    if exps == [] then None
    else
      var r := FirstActive(exps[..|exps| - 1], user);
      if r.Some? then r
      else if IsActiveFor(exps[|exps| - 1], user) then Some(|exps| - 1)
      else None
  }

  predicate JoinsPlanet(e: Expedition, planets: seq<Planet>) {
    FindPlanet(planets, e.planetId).Some?
  }

  /**
   * The same lookup joined with `planets ON e.planet_id = p.id`, as every
   * route but `/start` performs it: rows whose planet is gone are skipped.
   */
  function ActiveJoined(exps: seq<Expedition>, planets: seq<Planet>, user: int): (r: Option<nat>)
    ensures r.Some? ==> r.value < |exps| && IsActiveFor(exps[r.value], user) && JoinsPlanet(exps[r.value], planets)
    ensures r.Some? ==> forall j :: 0 <= j < r.value ==> !(IsActiveFor(exps[j], user) && JoinsPlanet(exps[j], planets))
    ensures r.None? ==> forall j :: 0 <= j < |exps| ==> !(IsActiveFor(exps[j], user) && JoinsPlanet(exps[j], planets))
  {
    if exps == [] then None
    else
      var r := ActiveJoined(exps[..|exps| - 1], planets, user);
      if r.Some? then r
      else if IsActiveFor(exps[|exps| - 1], user) && JoinsPlanet(exps[|exps| - 1], planets) then Some(|exps| - 1)
      else None
  }

  /** Every expedition row names an existing planet (`/start` checks it, and planets are never removed). */
  ghost predicate PlanetsJoin(exps: seq<Expedition>, planets: seq<Planet>) {
    forall i :: 0 <= i < |exps| ==> JoinsPlanet(exps[i], planets)
  }

  /** When every row joins its planet, the joined lookup finds the same row as the plain one. */
  lemma JoinedIsFirstActive(exps: seq<Expedition>, planets: seq<Planet>, user: int)
    requires PlanetsJoin(exps, planets)
    ensures ActiveJoined(exps, planets, user) == FirstActive(exps, user)
  {
  }

  /** No user has two active expeditions. */
  ghost predicate SingleActive(exps: seq<Expedition>) {
    forall u, i, j :: 0 <= i < |exps| && 0 <= j < |exps| && IsActiveFor(exps[i], u) && IsActiveFor(exps[j], u) ==> i == j
  }

  /** `/start` inserts only when the user has no active row, so it keeps the invariant. */
  lemma StartKeepsSingleActive(exps: seq<Expedition>, row: Expedition)
    requires SingleActive(exps)
    requires FirstActive(exps, row.userId).None?
    ensures SingleActive(exps + [row])
  {
    var exps' := exps + [row];
    assert forall i :: 0 <= i < |exps| ==> exps'[i] == exps[i];
    assert forall i :: 0 <= i < |exps| ==> !IsActiveFor(exps'[i], row.userId);
  }

  /** `UPDATE expeditions SET status = ?, success = ? WHERE id = ?`. */
  function Close(exps: seq<Expedition>, k: nat, status: Status, success: bool): seq<Expedition>
    requires k < |exps|
  {
    exps[k := exps[k].(status := status, success := success)]
  }

  /** Closing a row (any status but active) keeps the invariant. */
  lemma CloseKeepsSingleActive(exps: seq<Expedition>, k: nat, status: Status, success: bool)
    requires SingleActive(exps) && k < |exps| && status != Active
    ensures SingleActive(Close(exps, k, status, success))
  {
    var exps' := Close(exps, k, status, success);
    forall u, i, j | 0 <= i < |exps'| && 0 <= j < |exps'| && IsActiveFor(exps'[i], u) && IsActiveFor(exps'[j], u)
      ensures i == j
    {
      assert IsActiveFor(exps[i], u) && IsActiveFor(exps[j], u);
    }
  }

  /**
   * Under the invariant, closing the user's active row leaves the user with
   * none: a repeated `/return` or `/time-up` finds nothing and answers 404.
   */
  lemma CloseEndsActivity(exps: seq<Expedition>, planets: seq<Planet>, k: nat, status: Status, success: bool)
    requires SingleActive(exps) && k < |exps| && exps[k].status == Active && status != Active
    ensures FirstActive(Close(exps, k, status, success), exps[k].userId).None?
    ensures ActiveJoined(Close(exps, k, status, success), planets, exps[k].userId).None?
  {
    var exps' := Close(exps, k, status, success);
    var user := exps[k].userId;
    var r := FirstActive(exps', user);
    if r.Some? {
      assert IsActiveFor(exps[r.value], user) && IsActiveFor(exps[k], user);
    }
  }

  /** An act (mine, explore, check-danger) is refused strictly after the end time. */
  predicate ActRefused(e: Expedition, now: int) {
    now > e.endTime
  }

  /** Time-up is refused up to and including the end time. */
  predicate TimeUpRefused(e: Expedition, now: int) {
    now <= e.endTime
  }

  /** Expedition length in seconds: `base_time + base_time * boost`. */
  function Duration(baseTime: int, boost: real): real {
    baseTime as real + baseTime as real * boost
  }

  /**
   * `new Date(start + duration * 1000)`: a Date drops the fraction of a
   * millisecond, which for a time after the epoch is the floor.
   */
  function EndTime(start: int, baseTime: int, boost: real): (end: int)
    ensures baseTime > 0 && boost >= 0.0 ==> end >= start + 1000 * baseTime
  {
    assert baseTime > 0 && boost >= 0.0 ==> baseTime as real * boost >= 0.0;
    start + (Duration(baseTime, boost) * 1000.0).Floor
  }

  /** The stored end time is the start plus the countdown, to the millisecond. */
  lemma EndTimeMatchesCountdown(start: int, baseTime: int, boost: real)
    ensures (EndTime(start, baseTime, boost) - start) as real <= Duration(baseTime, boost) * 1000.0
    ensures Duration(baseTime, boost) * 1000.0 < (EndTime(start, baseTime, boost) - start + 1) as real
  {
  }

  /** Every recorded find has a positive quantity (each is at least 1 when drawn). */
  ghost predicate LootPositive(loot: seq<LootRow>) {
    forall l :: l in loot ==> l.quantity >= 1
  }

  /** A row of `expedition_resources er JOIN resources r ON er.resource_id = r.id`. */
  datatype Collected = Collected(resourceId: int, quantity: int, name: string, baseValue: int, rarity: int)

  /** The collected resources of expedition `id`, in insertion order. */
  function CollectedOf(loot: seq<LootRow>, resources: seq<Resource>, id: nat): (cs: seq<Collected>)
    ensures |cs| <= |loot|
  {
    if loot == [] then []
    else
      var l := loot[|loot| - 1];
      var joined := FindResource(resources, l.resourceId);
      CollectedOf(loot[..|loot| - 1], resources, id) +
        (if l.expeditionId == id && joined.Some?
         then [Collected(l.resourceId, l.quantity, joined.value.name, joined.value.baseValue, joined.value.rarity)]
         else [])
  }

  /** Each collected row is a recorded find of that expedition: its quantity comes from the loot row. */
  lemma {:induction false} CollectedFromLoot(loot: seq<LootRow>, resources: seq<Resource>, id: nat)
    requires LootPositive(loot)
    ensures forall c :: c in CollectedOf(loot, resources, id) ==> c.quantity >= 1
  {
    if loot != [] {
      assert forall l :: l in loot[..|loot| - 1] ==> l in loot;
      CollectedFromLoot(loot[..|loot| - 1], resources, id);
      assert loot[|loot| - 1] in loot;
    }
  }

  /** Each collected row takes its `base_value` from the resources table. */
  lemma {:induction false} CollectedValuesNonNegative(loot: seq<LootRow>, resources: seq<Resource>, id: nat)
    requires forall r :: r in resources ==> r.baseValue >= 0
    ensures forall c :: c in CollectedOf(loot, resources, id) ==> c.baseValue >= 0
  {
    if loot != [] {
      CollectedValuesNonNegative(loot[..|loot| - 1], resources, id);
    }
  }

  /** Rows added for other expeditions do not change what an expedition collected. */
  lemma CollectedOfOthers(loot: seq<LootRow>, added: seq<LootRow>, resources: seq<Resource>, id: nat)
    requires forall l :: l in added ==> l.expeditionId != id
    ensures CollectedOf(loot + added, resources, id) == CollectedOf(loot, resources, id)
    decreases |added|
  {
    if added != [] {
      var init := added[..|added| - 1];
      assert (loot + added)[..|loot + added| - 1] == loot + init;
      assert (loot + added)[|loot + added| - 1] == added[|added| - 1] && added[|added| - 1] in added;
      assert forall l :: l in init ==> l in added;
      CollectedOfOthers(loot, init, resources, id);
      assert CollectedOf(loot + added, resources, id) == CollectedOf(loot + init, resources, id);
    } else {
      assert loot + added == loot;
    }
  }

  /**
   * The quantity a terminal handler credits for a row: the row itself on a
   * successful return, `Math.floor(quantity * recovery)` otherwise.
   */
  function Credit(q: int, success: bool, recovery: real): int {
    if success then q else (q as real * recovery).Floor
  }

  /** Insurance never pays out more than was collected, and never a negative amount. */
  lemma CreditBounds(q: int, recovery: real)
    requires q >= 0 && 0.0 <= recovery <= 1.0
    ensures 0 <= Credit(q, false, recovery) <= q
  {
    assert q as real * recovery <= q as real * 1.0;
  }

  /** Without insurance a failed expedition credits nothing. */
  lemma NoInsuranceNoCredit(q: int)
    ensures Credit(q, false, 0.0) == 0
  {
  }

  /** Value of the rows whose credit is positive: the `totalValue` of the settlement loop. */
  function TotalCredit(cs: seq<Collected>, success: bool, recovery: real): int {
    if cs == [] then 0
    else
      var c := cs[|cs| - 1];
      var fq := Credit(c.quantity, success, recovery);
      TotalCredit(cs[..|cs| - 1], success, recovery) + (if fq > 0 then c.baseValue * fq else 0)
  }

  function Get(m: map<(int, int), int>, k: (int, int)): int {
    if k in m then m[k] else 0
  }

  /** The inventory after the settlement loop's upserts: one `quantity + credit` per positive credit. */
  function InventoryAfter(inv: map<(int, int), int>, user: int, cs: seq<Collected>, success: bool, recovery: real)
    : map<(int, int), int>
  {
    if cs == [] then inv
    else
      var m := InventoryAfter(inv, user, cs[..|cs| - 1], success, recovery);
      var c := cs[|cs| - 1];
      var fq := Credit(c.quantity, success, recovery);
      if fq > 0 then m[(user, c.resourceId) := Get(m, (user, c.resourceId)) + fq] else m
  }

  /** Sum of the positive credits of the rows for resource `k`. */
  function CreditedOf(cs: seq<Collected>, k: int, success: bool, recovery: real): int {
    if cs == [] then 0
    else
      var c := cs[|cs| - 1];
      var fq := Credit(c.quantity, success, recovery);
      CreditedOf(cs[..|cs| - 1], k, success, recovery) + (if fq > 0 && c.resourceId == k then fq else 0)
  }

  /**
   * Conservation: the settlement adds to each (user, resource) stock exactly
   * the credits of that resource's rows, and nothing to anyone else's.
   */
  lemma {:induction false} InventoryConservation(inv: map<(int, int), int>, user: int, cs: seq<Collected>,
                                                success: bool, recovery: real, u: int, k: int)
    ensures Get(InventoryAfter(inv, user, cs, success, recovery), (u, k))
         == Get(inv, (u, k)) + (if u == user then CreditedOf(cs, k, success, recovery) else 0)
  {
    if cs != [] {
      InventoryConservation(inv, user, cs[..|cs| - 1], success, recovery, u, k);
    }
  }

  /** The settlement only writes keys it credits: other entries keep their presence and value. */
  lemma {:induction false} InventoryAfterFrame(inv: map<(int, int), int>, user: int, cs: seq<Collected>,
                                              success: bool, recovery: real, key: (int, int))
    requires key.0 != user || forall c :: c in cs ==> c.resourceId != key.1
    ensures key in InventoryAfter(inv, user, cs, success, recovery) <==> key in inv
    ensures key in inv ==> InventoryAfter(inv, user, cs, success, recovery)[key] == inv[key]
  {
    if cs != [] {
      assert forall c :: c in cs[..|cs| - 1] ==> c in cs;
      InventoryAfterFrame(inv, user, cs[..|cs| - 1], success, recovery, key);
    }
  }

  /** `Σ base_value × quantity` over an expedition's resources: the `/history` total. */
  function LootValue(cs: seq<Collected>): int {
    if cs == [] then 0 else LootValue(cs[..|cs| - 1]) + cs[|cs| - 1].baseValue * cs[|cs| - 1].quantity
  }

  /** A successful return credits exactly the value `/history` later shows for the expedition. */
  lemma {:induction false} SuccessCreditsHistoryValue(cs: seq<Collected>, recovery: real)
    requires forall c :: c in cs ==> c.quantity >= 1
    ensures TotalCredit(cs, true, recovery) == LootValue(cs)
  {
    if cs != [] {
      assert forall c :: c in cs[..|cs| - 1] ==> c in cs;
      SuccessCreditsHistoryValue(cs[..|cs| - 1], recovery);
    }
  }

  /** With recovery in [0, 1] and non-negative values, failure never pays more than success. */
  lemma {:induction false} InsuranceNeverExceedsSuccess(cs: seq<Collected>, recovery: real)
    requires 0.0 <= recovery <= 1.0
    requires forall c :: c in cs ==> c.quantity >= 1 && c.baseValue >= 0
    ensures 0 <= TotalCredit(cs, false, recovery) <= TotalCredit(cs, true, recovery)
  {
    if cs != [] {
      var c := cs[|cs| - 1];
      assert forall d :: d in cs[..|cs| - 1] ==> d in cs;
      InsuranceNeverExceedsSuccess(cs[..|cs| - 1], recovery);
      CreditBounds(c.quantity, recovery);
      var fq := Credit(c.quantity, false, recovery);
      if fq > 0 {
        assert c.baseValue * fq <= c.baseValue * c.quantity;
      }
    }
  }

  /** A failure without insurance settles nothing. */
  lemma {:induction false} UninsuredFailureSettlesNothing(inv: map<(int, int), int>, user: int, cs: seq<Collected>)
    ensures TotalCredit(cs, false, 0.0) == 0
    ensures InventoryAfter(inv, user, cs, false, 0.0) == inv
  {
    if cs != [] {
      UninsuredFailureSettlesNothing(inv, user, cs[..|cs| - 1]);
    }
  }

  /**
   * `/time-up` response rows: a row whose recovered quantity is positive
   * shows that quantity; a row recovering 0 keeps its collected quantity.
   */
  function TimeUpRows(cs: seq<Collected>, recovery: real): (rows: seq<Collected>)
    ensures |rows| == |cs|
    ensures forall i :: 0 <= i < |cs| ==> rows[i].resourceId == cs[i].resourceId
  {
    seq(|cs|, i requires 0 <= i < |cs| =>
      var fq := Credit(cs[i].quantity, false, recovery);
      if fq > 0 then cs[i].(quantity := fq) else cs[i])
  }

  /**
   * `/return` response rows: after a failure with positive recovery every
   * row shows its recovered quantity, 0 included; otherwise rows are as collected.
   */
  function ReturnRows(cs: seq<Collected>, success: bool, recovery: real): (rows: seq<Collected>)
    ensures |rows| == |cs|
    ensures forall i :: 0 <= i < |cs| ==> rows[i].resourceId == cs[i].resourceId
  {
    seq(|cs|, i requires 0 <= i < |cs| =>
      if !success && recovery > 0.0 then cs[i].(quantity := Credit(cs[i].quantity, false, recovery)) else cs[i])
  }

  /** Without a recovery to apply, `/return` reports the rows as collected. */
  lemma ReturnRowsAsCollected(cs: seq<Collected>, success: bool, recovery: real)
    requires success || recovery <= 0.0
    ensures ReturnRows(cs, success, recovery) == cs
  {
  }

  /** The two handlers report the same rows except those whose recovery floors to 0. */
  lemma TimeUpAndReturnRowsDiffer(cs: seq<Collected>, recovery: real, i: nat)
    requires recovery > 0.0 && i < |cs| && cs[i].quantity >= 0
    ensures TimeUpRows(cs, recovery)[i] == ReturnRows(cs, false, recovery)[i]
        <==> (Credit(cs[i].quantity, false, recovery) > 0 || cs[i].quantity == 0)
  {
  }

  /** `SELECT * FROM leaderboard WHERE user_id = ? AND month = ? AND year = ?`: the first such row. */
  function FindScoreRow(board: seq<LeaderRow>, user: int, month: int, year: int): (r: Option<nat>)
    ensures r.Some? ==>
      (r.value < |board| && board[r.value].userId == user && board[r.value].month == month && board[r.value].year == year)
    ensures r.None? ==> forall i :: 0 <= i < |board| ==>
      !(board[i].userId == user && board[i].month == month && board[i].year == year)
  {
    if board == [] then None
    else
      var r := FindScoreRow(board[..|board| - 1], user, month, year);
      var b := board[|board| - 1];
      if r.Some? then r
      else if b.userId == user && b.month == month && b.year == year then Some(|board| - 1)
      else None
  }

  /** `/return`'s leaderboard write: add to the period's row, or insert one. */
  function UpsertScore(board: seq<LeaderRow>, user: int, month: int, year: int, gain: int): seq<LeaderRow> {
    match FindScoreRow(board, user, month, year)
    case Some(i) => board[i := board[i].(score := board[i].score + gain)]
    case None => board + [LeaderRow(user, gain, month, year)]
  }

  /** A user's score for one (month, year): the sum over that period's rows. */
  function PeriodScore(board: seq<LeaderRow>, user: int, month: int, year: int): int {
    if board == [] then 0
    else
      var b := board[|board| - 1];
      PeriodScore(board[..|board| - 1], user, month, year)
        + (if b.userId == user && b.month == month && b.year == year then b.score else 0)
  }

  lemma {:induction false} PeriodScoreUpdate(board: seq<LeaderRow>, i: nat, row: LeaderRow, user: int, month: int, year: int)
    requires i < |board|
    requires row.userId == board[i].userId && row.month == board[i].month && row.year == board[i].year
    ensures PeriodScore(board[i := row], user, month, year)
         == PeriodScore(board, user, month, year)
            + (if row.userId == user && row.month == month && row.year == year then row.score - board[i].score else 0)
  {
    var n := |board|;
    var board' := board[i := row];
    if i < n - 1 {
      assert board'[..n - 1] == board[..n - 1][i := row];
      PeriodScoreUpdate(board[..n - 1], i, row, user, month, year);
    } else {
      assert board'[..n - 1] == board[..n - 1];
    }
  }

  /**
   * Upserting raises the period score of (user, month, year) by the gain and
   * leaves every other user's and period's score unchanged.
   */
  lemma UpsertScoreAdds(board: seq<LeaderRow>, user: int, month: int, year: int, gain: int,
                        u: int, m: int, y: int)
    ensures PeriodScore(UpsertScore(board, user, month, year, gain), u, m, y)
         == PeriodScore(board, u, m, y) + (if u == user && m == month && y == year then gain else 0)
  {
    match FindScoreRow(board, user, month, year)
    case Some(i) =>
      PeriodScoreUpdate(board, i, board[i].(score := board[i].score + gain), u, m, y);
    case None =>
      assert (board + [LeaderRow(user, gain, month, year)])[..|board|] == board;
  }
}
