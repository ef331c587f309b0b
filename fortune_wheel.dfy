/**
 * The fortune-wheel router: `/spin` and `/purchase-spins`. A spin is paid
 * with 10 premium currency (or, for any other payment type, by a payment
 * that is only simulated), draws one reward from the wheel table with
 * probability proportional to its weight, records the spin and credits the
 * reward. The user id, the clock and the `Math.random()` value are
 * parameters.
 */
module FortuneWheel {
  import opened Wrappers
  import opened Text
  import opened Schema
  import opened Sampler

  /** The premium currency a paid spin costs. */
  const SpinCost := 10.0

  /** Premium currency granted per purchased spin. */
  const PremiumPerSpin := 10

  /** One day in milliseconds: the lifetime of a won temporary boost. */
  const DayMs := 86400000

  const UserNotFound := HttpError(404, "User not found")
  const ServerError := HttpError(500, "Server error")

  // ----------------------------------------------------------------- /spin

  /** The `/spin` reply: the reward, the message and the user's balances afterwards. */
  datatype SpinReply = SpinReply(reward: WheelReward, message: string, currency: real, premium: real)

  /**
   * The reward the draw selects: the first whose running total of
   * probabilities reaches `Math.random() * totalProbability`, and the last
   * reward when the loop runs off the end.
   */
  function SelectReward(ws: seq<WheelReward>, roll: Unit): (i: nat)
    requires ws != []
    ensures i < |ws|
  {
    var ps := Probabilities(ws);
    match CumulativePick(ps, Scaled(roll, Total(ps)))
    case Some(k) => k
    case None => |ws| - 1
  }

  /** `description.toLowerCase().includes('speed') ? 'speed' : 'capacity'`. */
  function BoostType(w: WheelReward): (b: string)
    ensures b == "speed" || b == "capacity"
    ensures b == "speed" <==> Contains(ToLower(w.description), "speed")
  {
    if Contains(ToLower(w.description), "speed") then "speed" else "capacity"
  }

  /** `SELECT id FROM shop_items WHERE type = ? AND subtype = ? LIMIT 1`, NULL when no row matches. */
  function FirstItemOfKind(items: seq<ShopItem>, kind: string, subtype: string): (r: Option<int>)
    ensures r.Some? ==> exists it :: it in items && it.id == r.value && it.kind == kind && it.subtype == subtype
    ensures r.None? <==> forall i :: 0 <= i < |items| ==> !(items[i].kind == kind && items[i].subtype == subtype)
  {
    if items == [] then None
    else if items[0].kind == kind && items[0].subtype == subtype then Some(items[0].id)
    else FirstItemOfKind(items[1..], kind, subtype)
  }

  /** The upgrade row a won temporary boost inserts. */
  function WonBoost(items: seq<ShopItem>, user: int, w: WheelReward, now: int): Upgrade {
    Upgrade(user, FirstItemOfKind(items, BoostType(w), BoostType(w)), now, Some(now + DayMs), true)
  }

  /** The `switch` on the reward type: what crediting the reward does to the tables. */
  function Award(t: Tables, user: int, w: WheelReward, now: int): Tables
    requires user in t.users
  {
    var u := t.users[user];
    if w.kind == "currency" then t.(users := t.users[user := u.(currency := u.currency + w.value as real)])
    else if w.kind == "premium_currency" then t.(users := t.users[user := u.(premium := u.premium + w.value as real)])
    else if w.kind == "temporary_boost" then t.(upgrades := t.upgrades + [WonBoost(t.shopItems, user, w, now)])
    else t
  }

  function RewardMessage(w: WheelReward): string {
    if w.kind == "currency" then "You won " + IntToString(w.value) + " in-game currency!"
    else if w.kind == "premium_currency" then "You won " + IntToString(w.value) + " premium currency!"
    else if w.kind == "temporary_boost" then "You won a " + w.description + "!"
    else "You won: " + w.name + "!"
  }

  /**
   * The part of `/spin` after payment: with an empty wheel table the
   * handler fails (500) leaving the tables as they are; otherwise the drawn
   * reward's spin row is recorded and the reward credited.
   */
  function DrawOutcome(t: Tables, user: int, roll: Unit, now: int): (o: Outcome<SpinReply>)
    requires user in t.users
    ensures o.reply.Ok? <==> t.wheelRewards != []
    ensures o.reply.Err? ==> o == Outcome(Err(ServerError), t)
    ensures o.reply.Ok? ==> o.reply.value.reward in t.wheelRewards
  {
    var ws := t.wheelRewards;
    if ws == [] then Outcome(Err(ServerError), t)
    else
      var w := ws[SelectReward(ws, roll)];
      var after := Award(t.(spins := t.spins + [SpinRow(user, w.id, now)]), user, w, now);
      Outcome(Ok(SpinReply(w, RewardMessage(w), after.users[user].currency, after.users[user].premium)), after)
  }

  /** The reward-selection loop, the spin row and the `switch` on the reward type. */
  method Draw(db: Database, user: int, roll: Unit, now: int) returns (r: Result<SpinReply, HttpError>)
    requires user in db.users
    modifies db
    ensures Outcome(r, db.State()) == DrawOutcome(old(db.State()), user, roll, now)
  {
    var t := db.State();
    var ws := t.wheelRewards;
    if ws == [] {
      return Err(ServerError);
    }
    var ps := Probabilities(ws);
    var pick := PickIndex(ps, Scaled(roll, Total(ps)));
    var i := if pick.Some? then pick.value else |ws| - 1;
    var w := ws[i];
    var after := Award(t.(spins := t.spins + [SpinRow(user, w.id, now)]), user, w, now);
    db.users, db.spins, db.upgrades := after.users, after.spins, after.upgrades;
    r := Ok(SpinReply(w, RewardMessage(w), after.users[user].currency, after.users[user].premium));
  }

  /**
   * `/spin`: 404 for an unknown user and 400 for a premium spin the user
   * cannot afford, both changing nothing. Otherwise a premium spin deducts
   * the cost, kept even when the draw then fails on an empty wheel table.
   */
  function SpinOutcome(t: Tables, user: int, paymentType: string, roll: Unit, now: int): (o: Outcome<SpinReply>)
    ensures user !in t.users ==> o == Outcome(Err(UserNotFound), t)
    ensures user in t.users && paymentType == "premium" && t.users[user].premium < SpinCost ==>
      o == Outcome(Err(HttpError(400, "Not enough premium currency")), t)
    ensures o.reply.Ok? ==> user in t.users && o.reply.value.reward in t.wheelRewards
    ensures o.reply.Ok? <==> user in t.users && t.wheelRewards != []
                             && !(paymentType == "premium" && t.users[user].premium < SpinCost)
  {
    if user !in t.users then Outcome(Err(UserNotFound), t)
    else
      var u := t.users[user];
      if paymentType == "premium" && u.premium < SpinCost then
        Outcome(Err(HttpError(400, "Not enough premium currency")), t)
      else if paymentType == "premium" then
        DrawOutcome(t.(users := t.users[user := u.(premium := u.premium - SpinCost)]), user, roll, now)
      else
        DrawOutcome(t, user, roll, now)
  }

  method Spin(db: Database, user: int, paymentType: string, roll: Unit, now: int)
    returns (r: Result<SpinReply, HttpError>)
    modifies db
    ensures Outcome(r, db.State()) == SpinOutcome(old(db.State()), user, paymentType, roll, now)
  {
    if user !in db.users {
      return Err(UserNotFound);
    }
    var u := db.users[user];
    if paymentType == "premium" {
      if u.premium < SpinCost {
        return Err(HttpError(400, "Not enough premium currency"));
      }
      db.users := db.users[user := u.(premium := u.premium - SpinCost)];
    }
    r := Draw(db, user, roll, now);
  }

  /**
   * What a successful spin settles: exactly one spin row for the drawn
   * reward; the spin cost leaves the premium balance only for a premium
   * spin; a currency reward adds its value to the currency, a premium
   * reward to the premium balance, a boost inserts one active upgrade
   * that expires a day later; nothing else changes. A premium spin never
   * leaves the premium balance negative.
   */
  lemma SpinSettles(t: Tables, user: int, paymentType: string, roll: Unit, now: int)
    requires SpinOutcome(t, user, paymentType, roll, now).reply.Ok?
    ensures var o := SpinOutcome(t, user, paymentType, roll, now);
      var w := o.reply.value.reward;
      var before := t.users[user];
      && o.after.spins == t.spins + [SpinRow(user, w.id, now)]
      && o.after.users.Keys == t.users.Keys
      && o.after.users[user].currency == before.currency + (if w.kind == "currency" then w.value as real else 0.0)
      && o.after.users[user].premium
           == before.premium - (if paymentType == "premium" then SpinCost else 0.0)
              + (if w.kind == "premium_currency" then w.value as real else 0.0)
      && o.after.users[user].telegramId == before.telegramId
      && (forall v :: v in t.users && v != user ==> o.after.users[v] == t.users[v])
      && o.after.upgrades == t.upgrades + (if w.kind == "temporary_boost" then [WonBoost(t.shopItems, user, w, now)] else [])
      && o.reply.value.currency == o.after.users[user].currency
      && o.reply.value.premium == o.after.users[user].premium
      && o.after == t.(users := o.after.users, spins := o.after.spins, upgrades := o.after.upgrades)
    ensures var o := SpinOutcome(t, user, paymentType, roll, now);
      paymentType == "premium" && o.reply.value.reward.value >= 0 ==> o.reply.value.premium >= 0.0
  {
  }

  /** A won boost lasts one day from the spin and is active. */
  lemma WonBoostLastsADay(items: seq<ShopItem>, user: int, w: WheelReward, now: int)
    ensures var b := WonBoost(items, user, w, now);
      b.userId == user && b.active && b.purchaseDate == now && b.expiry == Some(now + 86400000)
    ensures var b := WonBoost(items, user, w, now);
      b.itemId.Some? ==> exists it :: it in items && it.id == b.itemId.value && it.kind == BoostType(w)
  {
  }

  /**
   * With non-negative probabilities the fallback to the last reward is never
   * taken, and reward `i` is drawn exactly when the scaled roll falls in its
   * own slice `(Prefix(i), Prefix(i + 1)]` of the running total (the first
   * slice also taking 0), a slice as wide as the reward's probability.
   */
  lemma SpinDrawsBySlice(ws: seq<WheelReward>, roll: Unit, i: nat)
    requires ws != [] && i < |ws|
    requires NonNegative(Probabilities(ws))
    ensures var ps := Probabilities(ws);
      CumulativePick(ps, Scaled(roll, Total(ps))).Some?
    ensures var ps := Probabilities(ws); var x := Scaled(roll, Total(ps));
      SelectReward(ws, roll) == i <==> x <= Prefix(ps, i + 1) && (i == 0 || Prefix(ps, i) < x)
    ensures var ps := Probabilities(ws);
      Prefix(ps, i + 1) - Prefix(ps, i) == ws[i].probability
  {
    var ps := Probabilities(ws);
    PrefixMonotone(ps, 0, |ps|);
    PickAlwaysSucceeds(ps, roll);
    PickIsInterval(ps, Scaled(roll, Total(ps)), i);
  }

  /** The seeded wheel's probabilities sum to exactly 1, so the roll itself is the draw. */
  lemma SeedWheelIsDistribution()
    ensures Total(Probabilities(SeedWheelRewards())) == 1.0
    ensures NonNegative(Probabilities(SeedWheelRewards()))
  {
    var ps := Probabilities(SeedWheelRewards());
    assert ps[0] == 0.3 && ps[1] == 0.15 && ps[2] == 0.05;
    assert ps[3] == 0.2 && ps[4] == 0.2 && ps[5] == 0.1;
    assert Prefix(ps, 2) == 0.45;
    assert Prefix(ps, 4) == 0.7;
    assert Prefix(ps, 6) == 1.0;
  }

  /**
   * On the seeded wheel, reward `i` is won exactly when the roll lies in
   * `(Prefix(i), Prefix(i + 1)]` of the seeded probabilities: 30% for the
   * small currency pack, 15% medium, 5% large, 20% for each temporary
   * boost, 10% for the premium currency.
   */
  lemma SeededWheelOdds(roll: Unit, i: nat)
    requires i < 6
    ensures var ps := Probabilities(SeedWheelRewards());
      SelectReward(SeedWheelRewards(), roll) == i <==> roll <= Prefix(ps, i + 1) && (i == 0 || Prefix(ps, i) < roll)
  {
    SeedWheelIsDistribution();
    SpinDrawsBySlice(SeedWheelRewards(), roll, i);
  }

  /** No seeded shop item has the type `speed` or `capacity`. */
  lemma SeededCatalogueHasNoBoostType(b: string)
    requires b == "speed" || b == "capacity"
    ensures FirstItemOfKind(SeedShopItems(), b, b) == None
  {
    var items := SeedShopItems();
    assert forall k :: 0 <= k < |items| ==> items[k].kind != "speed" && items[k].kind != "capacity" by {
      forall k | 0 <= k < |items| ensures items[k].kind != "speed" && items[k].kind != "capacity" {
        SeedItemKind(k + 1);
      }
    }
  }

  lemma SeedItemKind(n: int)
    requires 1 <= n <= 11
    ensures SeedShopItems()[n - 1].kind != "speed" && SeedShopItems()[n - 1].kind != "capacity"
  {
    assert SeedShopItems()[n - 1] == SeedShopItem(n);
  }

  /**
   * The seeded catalogue has no item whose type is `speed` or `capacity`,
   * so a boost won on the wheel inserts an upgrade without an item, which
   * joins no shop item and so never counts as an owned boost.
   */
  lemma SeededWheelBoostJoinsNothing(ups: seq<Upgrade>, user: int, w: WheelReward, now: int)
    ensures WonBoost(SeedShopItems(), user, w, now).itemId == None
    ensures OwnedBoosts(ups + [WonBoost(SeedShopItems(), user, w, now)], SeedShopItems(), user)
         == OwnedBoosts(ups, SeedShopItems(), user)
  {
    SeededCatalogueHasNoBoostType(BoostType(w));
    var ups' := ups + [WonBoost(SeedShopItems(), user, w, now)];
    assert ups'[..|ups'| - 1] == ups;
  }

  // ------------------------------------------------------- /purchase-spins

  /** A spin package: how many spins it grants and its (simulated) price. */
  datatype Package = Package(spins: int, price: real)

  /** The package table, looked up by `package_id`; a missing id is None. */
  function PackageOf(id: Option<string>): (p: Option<Package>)
    ensures p.Some? ==> p.value.spins in {1, 5, 10}
    ensures p.Some? <==> id == Some("single") || id == Some("pack5") || id == Some("pack10")
  {
    if id == Some("single") then Some(Package(1, 0.99))
    else if id == Some("pack5") then Some(Package(5, 4.49))
    else if id == Some("pack10") then Some(Package(10, 7.99))
    else None
  }

  /** The `/purchase-spins` reply: the spins granted and the new premium balance. */
  datatype PurchaseReply = PurchaseReply(spins: int, premium: real)

  /**
   * `/purchase-spins`: 400 for a missing or unknown package; otherwise the
   * user's premium balance grows by 10 per spin. For an unknown user the
   * UPDATE touches nothing and reading the balance back fails (500).
   */
  function PurchaseSpinsOutcome(t: Tables, user: int, packageId: Option<string>): (o: Outcome<PurchaseReply>)
    ensures PackageOf(packageId).None? ==> o == Outcome(Err(HttpError(400, "Invalid package ID")), t)
    ensures o.reply.Ok? <==> PackageOf(packageId).Some? && user in t.users
    ensures o.reply.Err? ==> o.after == t
  {
    match PackageOf(packageId)
    case None => Outcome(Err(HttpError(400, "Invalid package ID")), t)
    case Some(p) =>
      if user !in t.users then Outcome(Err(ServerError), t)
      else
        var u := t.users[user];
        var premium := u.premium + (p.spins * PremiumPerSpin) as real;
        Outcome(Ok(PurchaseReply(p.spins, premium)), t.(users := t.users[user := u.(premium := premium)]))
  }

  method PurchaseSpins(db: Database, user: int, packageId: Option<string>) returns (r: Result<PurchaseReply, HttpError>)
    modifies db
    ensures Outcome(r, db.State()) == PurchaseSpinsOutcome(old(db.State()), user, packageId)
  {
    var t := db.State();
    var p := PackageOf(packageId);
    if p.None? {
      return Err(HttpError(400, "Invalid package ID"));
    }
    if user !in t.users {
      return Err(ServerError);
    }
    var u := t.users[user];
    var premium := u.premium + (p.value.spins * PremiumPerSpin) as real;
    db.users := t.users[user := u.(premium := premium)];
    r := Ok(PurchaseReply(p.value.spins, premium));
  }

  /**
   * A purchase credits exactly enough premium currency for the spins it
   * sells: each purchased spin then pays for one premium `/spin`, and only
   * the buyer's premium balance changes.
   */
  lemma PurchaseFundsSpins(t: Tables, user: int, packageId: Option<string>)
    requires PurchaseSpinsOutcome(t, user, packageId).reply.Ok?
    ensures var o := PurchaseSpinsOutcome(t, user, packageId);
      var n := o.reply.value.spins;
      && o.after.users[user].premium == t.users[user].premium + n as real * SpinCost
      && o.reply.value.premium == o.after.users[user].premium
      && o.after == t.(users := t.users[user := t.users[user].(premium := o.after.users[user].premium)])
    ensures var o := PurchaseSpinsOutcome(t, user, packageId);
      t.users[user].premium >= 0.0 ==> o.after.users[user].premium >= o.reply.value.spins as real * SpinCost
  {
  }
}
