/**
 * The shop router: the catalogue listing grouped by item type, the user's
 * active purchases, `/purchase` and the simulated in-app-purchase check
 * `/verify-purchase`. Payments in real money are only simulated: such an
 * item is granted without touching a balance. The user id and the clock
 * are parameters.
 */
module Shop {
  import opened Wrappers
  import opened Schema
  import opened Collections
  import opened Ordering

  const DayMs := 86400000

  // -------------------------------------------------------------- GET /

  function Kind(it: ShopItem): string {
    it.kind
  }

  /** The order `ORDER BY type, price` guarantees: within one type, prices ascend. */
  ghost predicate TypePriceOrdered(items: seq<ShopItem>) {
    forall i, j :: 0 <= i < j < |items| && items[i].kind == items[j].kind ==> items[i].price <= items[j].price
  }

  ghost predicate PriceOrdered(items: seq<ShopItem>) {
    forall i, j :: 0 <= i < j < |items| ==> items[i].price <= items[j].price
  }

  /**
   * The listing: the catalogue rows grouped by type, each group holding
   * exactly the items of its type in row order, and a type present iff
   * some item has it.
   */
  function Listing(items: seq<ShopItem>): (groups: map<string, seq<ShopItem>>)
    ensures forall k :: k in groups ==> groups[k] == WithKey(items, Kind, k) && groups[k] != []
    ensures forall it :: it in items ==> it.kind in groups && it in groups[it.kind]
  {
    GroupByPartitions(items, Kind);
    GroupBy(items, Kind)
  }

  /** Taking the items of one type keeps a type-then-price order sorted by price. */
  lemma {:induction false} WithKindPriceOrdered(items: seq<ShopItem>, k: string)
    requires TypePriceOrdered(items)
    ensures PriceOrdered(WithKey(items, Kind, k))
  {
    if items != [] {
      var init, last := items[..|items| - 1], items[|items| - 1];
      assert TypePriceOrdered(init);
      WithKindPriceOrdered(init, k);
      var w := WithKey(init, Kind, k);
      if last.kind == k {
        forall x | x in w ensures x.price <= last.price {
          var i :| 0 <= i < |init| && init[i] == x;
          assert items[i] == x;
        }
      }
    }
  }

  /** With rows in `type, price` order, every group of the listing lists its items cheapest first. */
  lemma ListingGroupsByPrice(items: seq<ShopItem>)
    requires TypePriceOrdered(items)
    ensures forall k :: k in Listing(items) ==> PriceOrdered(Listing(items)[k])
  {
    forall k | k in Listing(items) ensures PriceOrdered(Listing(items)[k]) {
      WithKindPriceOrdered(items, k);
    }
  }

  // ------------------------------------------------------- GET /my-items

  /** A row of `user_upgrades JOIN shop_items`. */
  datatype OwnedItem = OwnedItem(upgrade: Upgrade, item: ShopItem)

  function PurchaseDate(r: OwnedItem): int {
    r.upgrade.purchaseDate
  }

  /** The user's active upgrades joined with their shop items, in upgrade order. */
  function OwnedItems(ups: seq<Upgrade>, items: seq<ShopItem>, user: int): (rows: seq<OwnedItem>)
    ensures forall r :: r in rows ==>
      && r.upgrade in ups && r.upgrade.userId == user && r.upgrade.active
      && r.upgrade.itemId.Some? && FindItem(items, r.upgrade.itemId.value) == Some(r.item)
    ensures forall u :: u in ups && u.userId == user && u.active && u.itemId.Some?
                        && FindItem(items, u.itemId.value).Some? ==>
      OwnedItem(u, FindItem(items, u.itemId.value).value) in rows
  {
    if ups == [] then []
    else
      var u := ups[|ups| - 1];
      var init := OwnedItems(ups[..|ups| - 1], items, user);
      if u.userId == user && u.active && u.itemId.Some? && FindItem(items, u.itemId.value).Some?
      then init + [OwnedItem(u, FindItem(items, u.itemId.value).value)]
      else init
  }

  /** `/my-items`: the joined rows, newest purchase first. */
  function MyItems(t: Tables, user: int): (rows: seq<OwnedItem>)
    ensures multiset(rows) == multiset(OwnedItems(t.upgrades, t.shopItems, user))
    ensures SortedDesc(rows, PurchaseDate)
  {
    SortDesc(OwnedItems(t.upgrades, t.shopItems, user), PurchaseDate)
  }

  // --------------------------------------------------------- /purchase

  /** `!item_id`: a missing id, and also the id 0. */
  predicate IdMissing(id: Option<int>) {
    id.None? || id == Some(0)
  }

  /**
   * The expiry a purchase records: a season pass lasts its `boost_value`
   * in whole days, a temporary boost one day, anything else never expires.
   */
  function PurchaseExpiry(it: ShopItem, now: int): (e: Option<int>)
    ensures e.Some? <==> it.kind == "season_pass" || it.kind == "temporary_boost"
    ensures it.kind == "temporary_boost" ==> e == Some(now + DayMs)
  {
    if it.kind == "season_pass" then Some(now + it.boostValue.Floor * DayMs)
    else if it.kind == "temporary_boost" then Some(now + DayMs)
    else None
  }

  /** The balance the price is taken from: none for real money, else premium or currency. */
  function Charge(u: User, it: ShopItem): User {
    if it.currencyType == "real" then u
    else if it.currencyType == "premium" then u.(premium := u.premium - it.price)
    else u.(currency := u.currency - it.price)
  }

  /** The refusal for a balance below the price, if any. */
  function Unaffordable(u: User, it: ShopItem): Option<HttpError> {
    if it.currencyType == "real" then None
    else if it.currencyType == "premium" then
      (if u.premium < it.price then Some(HttpError(400, "Not enough premium currency")) else None)
    else if u.currency < it.price then Some(HttpError(400, "Not enough currency"))
    else None
  }

  /** The `/purchase` and `/verify-purchase` replies: the item and the balances afterwards. */
  datatype PurchaseReply = PurchaseReply(item: ShopItem, message: string, currency: real, premium: real)

  /**
   * `/purchase`: 400 without an item id, 404 for an unknown item or user,
   * 400 when the balance the item is priced in is short, each changing
   * nothing; otherwise the price is charged and one active upgrade row is
   * inserted.
   */
  function PurchaseOutcome(t: Tables, user: int, itemId: Option<int>, now: int): (o: Outcome<PurchaseReply>)
    ensures o.reply.Err? ==> o.after == t
    ensures o.reply.Ok? <==>
      && !IdMissing(itemId) && FindItem(t.shopItems, itemId.value).Some? && user in t.users
      && Unaffordable(t.users[user], FindItem(t.shopItems, itemId.value).value).None?
    ensures o.reply.Ok? ==> o.reply.value.item == FindItem(t.shopItems, itemId.value).value
  {
    if IdMissing(itemId) then Outcome(Err(HttpError(400, "Item ID is required")), t)
    else match FindItem(t.shopItems, itemId.value)
      case None => Outcome(Err(HttpError(404, "Item not found")), t)
      case Some(it) =>
        if user !in t.users then Outcome(Err(HttpError(404, "User not found")), t)
        else match Unaffordable(t.users[user], it)
          case Some(e) => Outcome(Err(e), t)
          case None =>
            var u := Charge(t.users[user], it);
            var row := Upgrade(user, Some(itemId.value), now, PurchaseExpiry(it, now), true);
            Outcome(Ok(PurchaseReply(it, "Successfully purchased " + it.name, u.currency, u.premium)),
                    t.(users := t.users[user := u], upgrades := t.upgrades + [row]))
  }

  method Purchase(db: Database, user: int, itemId: Option<int>, now: int) returns (r: Result<PurchaseReply, HttpError>)
    modifies db
    ensures Outcome(r, db.State()) == PurchaseOutcome(old(db.State()), user, itemId, now)
  {
    if IdMissing(itemId) {
      return Err(HttpError(400, "Item ID is required"));
    }
    var item := FindItem(db.shopItems, itemId.value);
    if item.None? {
      return Err(HttpError(404, "Item not found"));
    }
    var it := item.value;
    if user !in db.users {
      return Err(HttpError(404, "User not found"));
    }
    var refusal := Unaffordable(db.users[user], it);
    if refusal.Some? {
      return Err(refusal.value);
    }
    var u := Charge(db.users[user], it);
    db.users := db.users[user := u];
    db.upgrades := db.upgrades + [Upgrade(user, Some(itemId.value), now, PurchaseExpiry(it, now), true)];
    r := Ok(PurchaseReply(it, "Successfully purchased " + it.name, u.currency, u.premium));
  }

  /**
   * What a purchase settles: the price leaves exactly the balance the item
   * is priced in (none for real money), that balance stays non-negative,
   * one active upgrade row for the item is appended, and nothing else
   * changes.
   */
  lemma PurchaseSettles(t: Tables, user: int, itemId: Option<int>, now: int)
    requires PurchaseOutcome(t, user, itemId, now).reply.Ok?
    ensures var o := PurchaseOutcome(t, user, itemId, now);
      var it := o.reply.value.item; var before := t.users[user]; var after := o.after.users[user];
      && o.after == t.(users := o.after.users, upgrades := o.after.upgrades)
      && o.after.users == t.users[user := after]
      && o.after.upgrades == t.upgrades + [Upgrade(user, Some(it.id), now, PurchaseExpiry(it, now), true)]
      && after.currency == before.currency - (if it.currencyType in {"real", "premium"} then 0.0 else it.price)
      && after.premium == before.premium - (if it.currencyType == "premium" then it.price else 0.0)
      && (it.currencyType == "premium" ==> after.premium >= 0.0)
      && (it.currencyType !in {"real", "premium"} ==> after.currency >= 0.0)
  {
  }

  /** Every seeded item is priced in real money, so buying from the seeded catalogue leaves every balance as it was. */
  lemma SeededPurchasesAreFree(t: Tables, user: int, itemId: Option<int>, now: int)
    requires t.shopItems == SeedShopItems()
    ensures PurchaseOutcome(t, user, itemId, now).after.users == t.users
  {
    var o := PurchaseOutcome(t, user, itemId, now);
    if o.reply.Ok? {
      var it := FindItem(t.shopItems, itemId.value).value;
      var k :| 0 <= k < |t.shopItems| && t.shopItems[k] == it;
      assert it.currencyType == "real";
    }
  }

  /**
   * A purchase adds the bought item to the user's owned boosts, after the
   * ones already owned: the boost a route looks up (the first active row of
   * a type and subtype) becomes the new item's only when the user held none
   * of that type and subtype, so buying a second item of the same kind
   * does not change the boost in effect.
   */
  lemma PurchaseAddsOwnedBoost(t: Tables, user: int, itemId: Option<int>, now: int)
    requires PurchaseOutcome(t, user, itemId, now).reply.Ok?
    ensures var o := PurchaseOutcome(t, user, itemId, now); var it := o.reply.value.item;
      OwnedBoosts(o.after.upgrades, o.after.shopItems, user)
        == OwnedBoosts(t.upgrades, t.shopItems, user) + [OwnedBoost(it.kind, it.subtype, it.boostValue)]
    ensures var o := PurchaseOutcome(t, user, itemId, now); var it := o.reply.value.item;
      UserBoost(o.after, user, it.kind, it.subtype)
        == if FindBoost(OwnedBoosts(t.upgrades, t.shopItems, user), it.kind, it.subtype).Some?
           then UserBoost(t, user, it.kind, it.subtype) else it.boostValue
    ensures var o := PurchaseOutcome(t, user, itemId, now);
      forall v :: v != user ==> OwnedBoosts(o.after.upgrades, o.after.shopItems, v) == OwnedBoosts(t.upgrades, t.shopItems, v)
  {
    var o := PurchaseOutcome(t, user, itemId, now);
    var it := o.reply.value.item;
    var ups := o.after.upgrades;
    assert ups[..|ups| - 1] == t.upgrades;
    var before := OwnedBoosts(t.upgrades, t.shopItems, user);
    var b := OwnedBoost(it.kind, it.subtype, it.boostValue);
    FindBoostAppend(before, b);
  }

  /** Appending a row leaves an earlier match in place and otherwise finds the new row when it matches. */
  lemma FindBoostAppend(rows: seq<OwnedBoost>, b: OwnedBoost)
    ensures FindBoost(rows + [b], b.kind, b.subtype)
      == if FindBoost(rows, b.kind, b.subtype).Some? then FindBoost(rows, b.kind, b.subtype) else Some(|rows|)
  {
    assert (rows + [b])[..|rows|] == rows;
  }

  // -------------------------------------------------- /verify-purchase

  /** A verified season pass lasts `boost_value` days, counted in milliseconds. */
  function VerifiedExpiry(it: ShopItem, now: int): (e: Option<int>)
    ensures e.Some? <==> it.kind == "season_pass"
  {
    if it.kind == "season_pass" then Some(now + (it.boostValue * DayMs as real).Floor) else None
  }

  /** `UPDATE users SET premium_currency = premium_currency + ? WHERE id = ?`: no row, no change. */
  function AddPremium(users: map<int, User>, user: int, amount: real): (users': map<int, User>)
    ensures users'.Keys == users.Keys
    ensures user in users ==> users'[user] == users[user].(premium := users[user].premium + amount)
    ensures forall v :: v in users && v != user ==> users'[v] == users[v]
  {
    if user in users then users[user := users[user].(premium := users[user].premium + amount)] else users
  }

  /**
   * `/verify-purchase`: 400 without a receipt or product id and 404 for an
   * unknown product, changing nothing. Otherwise a premium-currency product
   * credits its `boost_value` to the premium balance and any other product
   * inserts an active upgrade row; the reply then reads the user back, and
   * for an unknown user that fails (500) after the change.
   */
  function VerifyOutcome(t: Tables, user: int, receipt: Option<string>, productId: Option<int>, now: int)
    : (o: Outcome<PurchaseReply>)
    ensures receipt.None? || receipt == Some("") || IdMissing(productId) ==>
      o == Outcome(Err(HttpError(400, "Receipt and product ID are required")), t)
    ensures o.reply.Ok? <==>
      && !(receipt.None? || receipt == Some("") || IdMissing(productId))
      && FindItem(t.shopItems, productId.value).Some? && user in t.users
  {
    if receipt.None? || receipt == Some("") || IdMissing(productId) then
      Outcome(Err(HttpError(400, "Receipt and product ID are required")), t)
    else match FindItem(t.shopItems, productId.value)
      case None => Outcome(Err(HttpError(404, "Item not found")), t)
      case Some(it) =>
        var after :=
          if it.kind == "premium_currency" then t.(users := AddPremium(t.users, user, it.boostValue))
          else t.(upgrades := t.upgrades + [Upgrade(user, Some(productId.value), now, VerifiedExpiry(it, now), true)]);
        if user !in after.users then Outcome(Err(HttpError(500, "Server error")), after)
        else
          var u := after.users[user];
          Outcome(Ok(PurchaseReply(it, "Purchase verified successfully", u.currency, u.premium)), after)
  }

  method VerifyPurchase(db: Database, user: int, receipt: Option<string>, productId: Option<int>, now: int)
    returns (r: Result<PurchaseReply, HttpError>)
    modifies db
    ensures Outcome(r, db.State()) == VerifyOutcome(old(db.State()), user, receipt, productId, now)
  {
    if receipt.None? || receipt == Some("") || IdMissing(productId) {
      return Err(HttpError(400, "Receipt and product ID are required"));
    }
    var item := FindItem(db.shopItems, productId.value);
    if item.None? {
      return Err(HttpError(404, "Item not found"));
    }
    var it := item.value;
    if it.kind == "premium_currency" {
      db.users := AddPremium(db.users, user, it.boostValue);
    } else {
      db.upgrades := db.upgrades + [Upgrade(user, Some(productId.value), now, VerifiedExpiry(it, now), true)];
    }
    if user !in db.users {
      return Err(HttpError(500, "Server error"));
    }
    r := Ok(PurchaseReply(it, "Purchase verified successfully", db.users[user].currency, db.users[user].premium));
  }

  /**
   * A verified purchase never charges: the in-game currency of every user
   * is unchanged, a premium-currency product adds its `boost_value` to the
   * premium balance and inserts nothing, any other product inserts one
   * upgrade row and leaves the balances alone. The change is made whether
   * or not the user exists.
   */
  lemma VerifySettles(t: Tables, user: int, receipt: Option<string>, productId: Option<int>, now: int)
    requires !(receipt.None? || receipt == Some("") || IdMissing(productId))
    requires FindItem(t.shopItems, productId.value).Some?
    ensures var o := VerifyOutcome(t, user, receipt, productId, now); var it := FindItem(t.shopItems, productId.value).value;
      && o.after.users.Keys == t.users.Keys
      && (forall v :: v in t.users ==> o.after.users[v].currency == t.users[v].currency)
      && (it.kind == "premium_currency" ==>
            && o.after.upgrades == t.upgrades
            && o.after.users == AddPremium(t.users, user, it.boostValue))
      && (it.kind != "premium_currency" ==>
            && o.after.users == t.users
            && o.after.upgrades == t.upgrades + [Upgrade(user, Some(it.id), now, VerifiedExpiry(it, now), true)])
      && o.after == t.(users := o.after.users, upgrades := o.after.upgrades)
  {
  }
}
