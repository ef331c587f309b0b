/**
 * The SQLite store of the game server: one datatype per row kind, one
 * `Database` object holding every table, and the count-guarded seeding of
 * the catalogue tables (planets, resources, shop items, wheel rewards).
 *
 * Row ids of AUTOINCREMENT tables that routes look up by id are explicit
 * fields; expedition ids are positions in `expeditions` (rows are never
 * deleted, so position + 1 is the AUTOINCREMENT id). Timestamps are
 * milliseconds since the epoch.
 */
module Schema {
  import opened Wrappers

  datatype Planet = Planet(id: int, name: string, difficulty: int, baseTime: int,
                           multiplier: real, dangerLevel: int)

  datatype Resource = Resource(id: int, name: string, rarity: int, baseValue: int)

  /** A `planet_resources` row. */
  datatype SpawnRow = SpawnRow(planetId: int, resourceId: int, spawnRate: real)

  /** A `shop_items` row; `kind` is the `type` column. */
  datatype ShopItem = ShopItem(id: int, name: string, description: string, kind: string,
                               subtype: string, price: real, currencyType: string,
                               boostValue: real)

  /** A `fortune_wheel_rewards` row; `kind` is the `type` column. */
  datatype WheelReward = WheelReward(id: int, name: string, description: string,
                                     kind: string, value: int, probability: real)

  /** Balances are REAL in effect: prices are REAL and SQLite keeps the fractional result. */
  datatype User = User(telegramId: string, currency: real, premium: real)

  datatype Status = Active | Completed | TimedOut

  datatype Expedition = Expedition(userId: int, planetId: int, startTime: int, endTime: int,
                                   status: Status, success: bool)

  /** An `expedition_resources` row. */
  datatype LootRow = LootRow(expeditionId: nat, resourceId: int, quantity: int)

  /** A `user_upgrades` row; a missing item or expiry is SQL NULL. */
  datatype Upgrade = Upgrade(userId: int, itemId: Option<int>, purchaseDate: int,
                             expiry: Option<int>, active: bool)

  datatype LeaderRow = LeaderRow(userId: int, score: int, month: int, year: int)

  datatype SpinRow = SpinRow(userId: int, rewardId: int, spinDate: int)

  /** An HTTP error reply: status code and the `error` message. */
  datatype HttpError = HttpError(status: int, message: string)

  /** The contents of every table at one moment. */
  datatype Tables = Tables(users: map<int, User>, planets: seq<Planet>, resources: seq<Resource>,
                           spawns: seq<SpawnRow>, inventory: map<(int, int), int>,
                           expeditions: seq<Expedition>, loot: seq<LootRow>,
                           shopItems: seq<ShopItem>, upgrades: seq<Upgrade>,
                           wheelRewards: seq<WheelReward>, spins: seq<SpinRow>,
                           leaderboard: seq<LeaderRow>)

  /** What a route handler answers, and the tables it leaves behind. */
  datatype Outcome<R> = Outcome(reply: Result<R, HttpError>, after: Tables)

  class Database {
    var users: map<int, User>
    var planets: seq<Planet>
    var resources: seq<Resource>
    var spawns: seq<SpawnRow>
    /** `user_inventory`, keyed by (user_id, resource_id). */
    var inventory: map<(int, int), int>
    var expeditions: seq<Expedition>
    var loot: seq<LootRow>
    var shopItems: seq<ShopItem>
    var upgrades: seq<Upgrade>
    var wheelRewards: seq<WheelReward>
    var spins: seq<SpinRow>
    var leaderboard: seq<LeaderRow>

    function State(): Tables
      reads this
    {
      Tables(users, planets, resources, spawns, inventory, expeditions, loot,
             shopItems, upgrades, wheelRewards, spins, leaderboard)
    }

    /** A freshly created database: every table exists and is empty. */
    constructor ()
      ensures users == map[] && inventory == map[]
      ensures planets == [] && resources == [] && spawns == [] && expeditions == []
      ensures loot == [] && shopItems == [] && upgrades == [] && wheelRewards == []
      ensures spins == [] && leaderboard == []
    {
      users, inventory := map[], map[];
      planets, resources, spawns, expeditions := [], [], [], [];
      loot, shopItems, upgrades, wheelRewards := [], [], [], [];
      spins, leaderboard := [], [];
    }

    /**
     * `insertInitialData`: each catalogue table receives its seed rows, one
     * INSERT per row in seed order, only when it holds no rows yet. The
     * AUTOINCREMENT id of a row inserted into a table that was never
     * written is its 1-based position.
     */
    method InsertInitialData()
      modifies this
      ensures State() == old(State()).(
        planets := if old(planets) == [] then SeedPlanets() else old(planets),
        resources := if old(resources) == [] then SeedResources() else old(resources),
        shopItems := if old(shopItems) == [] then SeedShopItems() else old(shopItems),
        wheelRewards := if old(wheelRewards) == [] then SeedWheelRewards() else old(wheelRewards))
    {
      SeedPlanetTable();
      SeedResourceTable();
      SeedShopTable();
      SeedWheelTable();
    }

    /** `SELECT COUNT(*)` on the planets table, then the seed inserts when it is 0. */
    method SeedPlanetTable()
      modifies this
      ensures State() == old(State()).(planets := if old(planets) == [] then SeedPlanets() else old(planets))
    {
      if |planets| == 0 {
        planets := InsertRows(SeedPlanets(), (p: Planet, id: int) => p.(id := id));
      }
    }

    /** `SELECT COUNT(*)` on the resources table, then the seed inserts when it is 0. */
    method SeedResourceTable()
      modifies this
      ensures State() == old(State()).(resources := if old(resources) == [] then SeedResources() else old(resources))
    {
      if |resources| == 0 {
        resources := InsertRows(SeedResources(), (r: Resource, id: int) => r.(id := id));
      }
    }

    /** `SELECT COUNT(*)` on the shop items table, then the seed inserts when it is 0. */
    method SeedShopTable()
      modifies this
      ensures State() == old(State()).(shopItems := if old(shopItems) == [] then SeedShopItems() else old(shopItems))
    {
      if |shopItems| == 0 {
        shopItems := InsertRows(SeedShopItems(), (it: ShopItem, id: int) => it.(id := id));
      }
    }

    /** `SELECT COUNT(*)` on the wheel rewards table, then the seed inserts when it is 0. */
    method SeedWheelTable()
      modifies this
      ensures State() == old(State()).(wheelRewards := if old(wheelRewards) == [] then SeedWheelRewards() else old(wheelRewards))
    {
      if |wheelRewards| == 0 {
        wheelRewards := InsertRows(SeedWheelRewards(), (w: WheelReward, id: int) => w.(id := id));
      }
    }

    /** The invariants of the seeded catalogue that the routes' arithmetic relies on. */
    ghost predicate CatalogueSound()
      reads this
    {
      && (forall p :: p in planets ==> PlanetSound(p))
      && (forall r :: r in resources ==> ResourceSound(r))
      && (forall it :: it in shopItems ==> ShopItemSound(it))
    }
  }

  /**
   * `rows.forEach(row => db.run('INSERT ...', ...))` into an empty
   * AUTOINCREMENT table: the row inserted i-th receives id i + 1, and a
   * seed whose rows already carry those ids is stored as it is.
   */
  method InsertRows<R>(seed: seq<R>, withId: (R, int) -> R) returns (table: seq<R>)
    ensures |table| == |seed|
    ensures forall i :: 0 <= i < |seed| ==> table[i] == withId(seed[i], i + 1)
    ensures (forall i :: 0 <= i < |seed| ==> withId(seed[i], i + 1) == seed[i]) ==> table == seed
  {
    table := [];
    for i := 0 to |seed|
      invariant |table| == i
      invariant forall j :: 0 <= j < i ==> table[j] == withId(seed[j], j + 1)
    {
      table := table + [withId(seed[i], |table| + 1)];
    }
  }

  /** Seeding a fresh store yields a sound catalogue, and seeding again changes nothing. */
  method InitializeTwice() returns (db: Database)
    ensures fresh(db)
    ensures db.planets == SeedPlanets() && db.resources == SeedResources()
    ensures db.shopItems == SeedShopItems() && db.wheelRewards == SeedWheelRewards()
    ensures db.CatalogueSound()
  {
    db := new Database();
    db.InsertInitialData();
    db.InsertInitialData();
  }

  ghost predicate PlanetSound(p: Planet) {
    p.baseTime > 0 && p.multiplier >= 1.0 && 1 <= p.dangerLevel <= 5 && 1 <= p.difficulty <= 5
  }

  ghost predicate ResourceSound(r: Resource) {
    1 <= r.rarity <= 5 && r.baseValue > 0
  }

  /** Every boost is a fraction in [0, 1] except the season passes, whose boost is a day count. */
  ghost predicate ShopItemSound(it: ShopItem) {
    && it.price > 0.0
    && (it.kind != "season_pass" ==> 0.0 <= it.boostValue <= 1.0)
    && (it.kind == "season_pass" ==> it.boostValue >= 1.0)
  }

  /** Seeded planet `n`, with the id it receives (1..4). `baseTime` is in seconds. */
  function SeedPlanet(n: int): (p: Planet)
    requires 1 <= n <= 4
    ensures p.id == n && PlanetSound(p)
  {
    match n
    case 1 => Planet(1, "Crystallis", 3, 120, 2.5, 4)
    case 2 => Planet(2, "Ferrum", 1, 180, 1.0, 1)
    case 3 => Planet(3, "Radion", 4, 90, 3.0, 5)
    case _ => Planet(4, "Aquaris", 2, 150, 1.5, 2)
  }

  /** The four seeded planets, in insertion order. */
  function SeedPlanets(): (ps: seq<Planet>)
    ensures |ps| == 4
    ensures forall i :: 0 <= i < |ps| ==> ps[i].id == i + 1 && PlanetSound(ps[i])
  {
    seq(4, i requires 0 <= i < 4 => SeedPlanet(i + 1))
  }

  /** Seeded resource `n` (ids 1..5); rarity is never 0, so `1 / rarity` is defined. */
  function SeedResource(n: int): (r: Resource)
    requires 1 <= n <= 5
    ensures r.id == n && ResourceSound(r)
  {
    match n
    case 1 => Resource(1, "Iron Ore", 1, 10)
    case 2 => Resource(2, "Copper Ore", 1, 15)
    case 3 => Resource(3, "Platinum Crystal", 3, 75)
    case 4 => Resource(4, "Quantum Shard", 5, 200)
    case _ => Resource(5, "Ancient Artifact", 5, 500)
  }

  /** The five seeded resources, in insertion order. */
  function SeedResources(): (rs: seq<Resource>)
    ensures |rs| == 5
    ensures forall i :: 0 <= i < |rs| ==> rs[i].id == i + 1 && ResourceSound(rs[i])
  {
    seq(5, i requires 0 <= i < 5 => SeedResource(i + 1))
  }

  /**
   * Seeded shop item `n` (ids 1..11), sold for real money; the insurance
   * items recover at most half of a failed expedition's loot.
   */
  function SeedShopItem(n: int): (it: ShopItem)
    requires 1 <= n <= 11
    ensures it.id == n && it.currencyType == "real" && ShopItemSound(it)
    ensures it.kind == "insurance" ==> it.subtype == "recovery" && 0.0 < it.boostValue <= 0.5
  {
    match n
    case 1 => ShopItem(1, "Basic Speed Upgrade", "Increases return speed by 10%", "spaceship", "speed", 4.99, "real", 0.1)
    case 2 => ShopItem(2, "Advanced Speed Upgrade", "Increases return speed by 25%", "spaceship", "speed", 9.99, "real", 0.25)
    case 3 => ShopItem(3, "Basic Capacity Upgrade", "Increases storage capacity by 10%", "spaceship", "capacity", 4.99, "real", 0.1)
    case 4 => ShopItem(4, "Basic Suit", "Extends autonomy by 10%", "suit", "autonomy", 2.99, "real", 0.1)
    case 5 => ShopItem(5, "Advanced Suit", "Extends autonomy by 25%", "suit", "autonomy", 5.99, "real", 0.25)
    case 6 => ShopItem(6, "Basic Drone", "Automatically collects 10% additional resources", "drone", "collection", 3.99, "real", 0.1)
    case 7 => ShopItem(7, "Advanced Drone", "Automatically collects 25% additional resources", "drone", "collection", 7.99, "real", 0.25)
    case 8 => ShopItem(8, "Basic Insurance", "Recover 25% of lost loot in case of failure", "insurance", "recovery", 1.99, "real", 0.25)
    case 9 => ShopItem(9, "Advanced Insurance", "Recover 50% of lost loot in case of failure", "insurance", "recovery", 3.99, "real", 0.5)
    case 10 => ShopItem(10, "Monthly Pass", "One month of exclusive rewards and missions", "season_pass", "monthly", 9.99, "real", 30.0)
    case _ => ShopItem(11, "Quarterly Pass", "Three months of exclusive rewards and missions", "season_pass", "quarterly", 24.99, "real", 90.0)
  }

  /** The eleven seeded shop items, in insertion order. */
  function SeedShopItems(): (items: seq<ShopItem>)
    ensures |items| == 11
    ensures forall i :: 0 <= i < |items| ==>
      items[i].id == i + 1 && items[i].currencyType == "real" && ShopItemSound(items[i])
    ensures forall i :: 0 <= i < |items| && items[i].kind == "insurance" ==>
      items[i].subtype == "recovery" && 0.0 < items[i].boostValue <= 0.5
  {
    seq(11, i requires 0 <= i < 11 => SeedShopItem(i + 1))
  }

  /** Seeded wheel reward `n` (ids 1..6). */
  function SeedWheelReward(n: int): (w: WheelReward)
    requires 1 <= n <= 6
    ensures w.id == n && 0.0 < w.probability < 1.0
  {
    match n
    case 1 => WheelReward(1, "Small Currency Pack", "100 in-game currency", "currency", 100, 0.3)
    case 2 => WheelReward(2, "Medium Currency Pack", "250 in-game currency", "currency", 250, 0.15)
    case 3 => WheelReward(3, "Large Currency Pack", "500 in-game currency", "currency", 500, 0.05)
    case 4 => WheelReward(4, "Temporary Speed Boost", "15% speed boost for 1 day", "temporary_boost", 15, 0.2)
    case 5 => WheelReward(5, "Temporary Capacity Boost", "15% capacity boost for 1 day", "temporary_boost", 15, 0.2)
    case _ => WheelReward(6, "Premium Currency", "10 premium currency", "premium_currency", 10, 0.1)
  }

  /** The six seeded wheel rewards, in insertion order. */
  function SeedWheelRewards(): (ws: seq<WheelReward>)
    ensures |ws| == 6
    ensures forall i :: 0 <= i < |ws| ==> ws[i].id == i + 1 && 0.0 < ws[i].probability < 1.0
  {
    seq(6, i requires 0 <= i < 6 => SeedWheelReward(i + 1))
  }

  /** The probabilities of the wheel rewards, in table order. */
  function Probabilities(ws: seq<WheelReward>): (ps: seq<real>)
    ensures |ps| == |ws|
    ensures forall i :: 0 <= i < |ws| ==> ps[i] == ws[i].probability
  {
    if ws == [] then [] else Probabilities(ws[..|ws| - 1]) + [ws[|ws| - 1].probability]
  }

  /** `SELECT * FROM planets WHERE id = ?`. */
  function FindPlanet(ps: seq<Planet>, id: int): (r: Option<Planet>)
    ensures r.Some? ==> r.value in ps && r.value.id == id
    ensures r.None? ==> forall p :: p in ps ==> p.id != id
  {
    if ps == [] then None
    else if ps[0].id == id then Some(ps[0])
    else FindPlanet(ps[1..], id)
  }

  /** `SELECT * FROM resources WHERE id = ?`. */
  function FindResource(rs: seq<Resource>, id: int): (r: Option<Resource>)
    ensures r.Some? ==> r.value in rs && r.value.id == id
    ensures r.None? ==> forall x :: x in rs ==> x.id != id
  {
    if rs == [] then None
    else if rs[0].id == id then Some(rs[0])
    else FindResource(rs[1..], id)
  }

  /** `SELECT * FROM shop_items WHERE id = ?`. */
  function FindItem(items: seq<ShopItem>, id: int): (r: Option<ShopItem>)
    ensures r.Some? ==> r.value in items && r.value.id == id
    ensures r.None? ==> forall it :: it in items ==> it.id != id
  {
    if items == [] then None
    else if items[0].id == id then Some(items[0])
    else FindItem(items[1..], id)
  }

  /** A row of `user_upgrades JOIN shop_items` for one user's active upgrades. */
  datatype OwnedBoost = OwnedBoost(kind: string, subtype: string, boostValue: real)

  /**
   * `SELECT si.type, si.subtype, si.boost_value FROM user_upgrades uu JOIN
   * shop_items si ON uu.item_id = si.id WHERE uu.user_id = ? AND uu.active = 1`,
   * in upgrade order. The expiry date is not consulted.
   */
  function OwnedBoosts(ups: seq<Upgrade>, items: seq<ShopItem>, user: int): (rows: seq<OwnedBoost>)
    ensures |rows| <= |ups|
  {
    if ups == [] then []
    else
      var u := ups[|ups| - 1];
      var joined :=
        if u.userId == user && u.active && u.itemId.Some? && FindItem(items, u.itemId.value).Some?
        then var it := FindItem(items, u.itemId.value).value; [OwnedBoost(it.kind, it.subtype, it.boostValue)]
        else [];
      OwnedBoosts(ups[..|ups| - 1], items, user) + joined
  }

  /** `userUpgrades.find(u => u.type === kind && u.subtype === subtype)`: the first matching row. */
  function FindBoost(rows: seq<OwnedBoost>, kind: string, subtype: string): (r: Option<nat>)
    ensures r.Some? ==> r.value < |rows| && rows[r.value].kind == kind && rows[r.value].subtype == subtype
    ensures r.Some? ==> forall j :: 0 <= j < r.value ==> !(rows[j].kind == kind && rows[j].subtype == subtype)
    ensures r.None? ==> forall j :: 0 <= j < |rows| ==> !(rows[j].kind == kind && rows[j].subtype == subtype)
  {
    if rows == [] then None
    else
      var r := FindBoost(rows[..|rows| - 1], kind, subtype);
      if r.Some? then r
      else if rows[|rows| - 1].kind == kind && rows[|rows| - 1].subtype == subtype then Some(|rows| - 1)
      else None
  }

  /** The found row's boost value, or 0 when there is none. */
  function BoostOf(rows: seq<OwnedBoost>, kind: string, subtype: string): real {
    match FindBoost(rows, kind, subtype)
    case Some(i) => rows[i].boostValue
    case None => 0.0
  }

  /** The boost the user holds for an upgrade kind, 0 when none. */
  function UserBoost(t: Tables, user: int, kind: string, subtype: string): real {
    BoostOf(OwnedBoosts(t.upgrades, t.shopItems, user), kind, subtype)
  }

  /** Every owned boost row copies the type, subtype and boost of some catalogue item. */
  lemma {:induction false} OwnedBoostsFromCatalogue(ups: seq<Upgrade>, items: seq<ShopItem>, user: int, b: OwnedBoost)
    requires b in OwnedBoosts(ups, items, user)
    ensures exists it :: it in items && b == OwnedBoost(it.kind, it.subtype, it.boostValue)
  {
    var init := OwnedBoosts(ups[..|ups| - 1], items, user);
    if b !in init {
      var u := ups[|ups| - 1];
      var it := FindItem(items, u.itemId.value).value;
      assert b == OwnedBoost(it.kind, it.subtype, it.boostValue);
    } else {
      OwnedBoostsFromCatalogue(ups[..|ups| - 1], items, user, b);
    }
  }

  /** A boost drawn from a sound catalogue is a fraction in [0, 1] for every kind but season passes. */
  lemma OwnedBoostsSound(ups: seq<Upgrade>, items: seq<ShopItem>, user: int, kind: string, subtype: string)
    requires forall it :: it in items ==> ShopItemSound(it)
    requires kind != "season_pass"
    ensures 0.0 <= BoostOf(OwnedBoosts(ups, items, user), kind, subtype) <= 1.0
  {
    var rows := OwnedBoosts(ups, items, user);
    var r := FindBoost(rows, kind, subtype);
    if r.Some? {
      assert rows[r.value] in rows;
      OwnedBoostsFromCatalogue(ups, items, user, rows[r.value]);
    }
  }
}
