/**
 * The expedition router: `/start`, `/active`, `/mine`, `/explore`,
 * `/check-danger`, `/time-up`, `/return` and `/history`. Each handler runs
 * as one atomic step over the store; the authenticated user id, the clock
 * and every `Math.random()` value are parameters.
 */
module ExpeditionRoutes {
  import opened Wrappers
  import opened Schema
  import opened Sampler
  import opened Ordering
  import opened Expeditions

  // ---------------------------------------------------------------- /start

  /** The `/start` reply: the new row's id, the row, and `countdown` in seconds. */
  datatype StartReply = StartReply(id: nat, expedition: Expedition, countdown: real)

  /** `planet_id` as the request body carries it: `!planet_id` holds for a missing id and for 0. */
  predicate PlanetIdMissing(planetId: Option<int>) {
    planetId.None? || planetId == Some(0)
  }

  /**
   * `/start`: 400 without a planet id, 404 for an unknown planet, 400 while
   * an expedition is active (joined with its planet or not); otherwise one
   * active row is inserted whose end is the start plus the suit-boosted
   * duration.
   */
  function StartOutcome(t: Tables, user: int, planetId: Option<int>, now: int): (o: Outcome<StartReply>)
    ensures o.reply.Err? ==> o.after == t
    ensures o.reply.Ok? <==> !PlanetIdMissing(planetId) && FindPlanet(t.planets, planetId.value).Some?
                             && FirstActive(t.expeditions, user).None?
    ensures o.reply.Ok? ==>
      && o.after == t.(expeditions := t.expeditions + [o.reply.value.expedition])
      && o.reply.value.id == |t.expeditions|
      && IsActiveFor(o.reply.value.expedition, user)
      && o.reply.value.expedition.planetId == planetId.value
      && o.reply.value.expedition.startTime == now
    ensures o.reply.Ok? ==>
      var p := FindPlanet(t.planets, planetId.value).value;
      var boost := UserBoost(t, user, "suit", "autonomy");
      && o.reply.value.countdown == Duration(p.baseTime, boost)
      && o.reply.value.expedition.endTime == EndTime(now, p.baseTime, boost)
  {
    if PlanetIdMissing(planetId) then Outcome(Err(HttpError(400, "Planet ID is required")), t)
    else
      match FindPlanet(t.planets, planetId.value)
      case None => Outcome(Err(HttpError(404, "Planet not found")), t)
      case Some(p) =>
        if FirstActive(t.expeditions, user).Some? then
          Outcome(Err(HttpError(400, "You already have an active expedition")), t)
        else
          var boost := UserBoost(t, user, "suit", "autonomy");
          var row := Expedition(user, planetId.value, now, EndTime(now, p.baseTime, boost), Active, false);
          Outcome(Ok(StartReply(|t.expeditions|, row, Duration(p.baseTime, boost))),
                  t.(expeditions := t.expeditions + [row]))
  }

  method Start(db: Database, user: int, planetId: Option<int>, now: int) returns (r: Result<StartReply, HttpError>)
    modifies db
    ensures Outcome(r, db.State()) == StartOutcome(old(db.State()), user, planetId, now)
  {
    var t := db.State();
    if PlanetIdMissing(planetId) {
      return Err(HttpError(400, "Planet ID is required"));
    }
    var planet := FindPlanet(t.planets, planetId.value);
    if planet.None? {
      return Err(HttpError(404, "Planet not found"));
    }
    if FirstActive(t.expeditions, user).Some? {
      return Err(HttpError(400, "You already have an active expedition"));
    }
    var boost := UserBoost(t, user, "suit", "autonomy");
    var seconds := Duration(planet.value.baseTime, boost);
    var row := Expedition(user, planetId.value, now, EndTime(now, planet.value.baseTime, boost), Active, false);
    db.expeditions := t.expeditions + [row];
    r := Ok(StartReply(|t.expeditions|, row, seconds));
  }

  /**
   * `/start` keeps the store's invariants (one active expedition per user,
   * every expedition on an existing planet), and afterwards the new row is
   * the one `/active` reports and a second `/start` is refused.
   */
  lemma StartKeepsInvariants(t: Tables, user: int, planetId: Option<int>, now: int, planetId2: int, now2: int)
    requires SingleActive(t.expeditions)
    ensures SingleActive(StartOutcome(t, user, planetId, now).after.expeditions)
    ensures PlanetsJoin(t.expeditions, t.planets) ==>
      PlanetsJoin(StartOutcome(t, user, planetId, now).after.expeditions, t.planets)
    ensures StartOutcome(t, user, planetId, now).reply.Ok? ==>
      var o := StartOutcome(t, user, planetId, now);
      && ActiveJoined(o.after.expeditions, o.after.planets, user) == Some(o.reply.value.id)
      && StartOutcome(o.after, user, Some(planetId2), now2).reply.Err?
  {
    var o := StartOutcome(t, user, planetId, now);
    if o.reply.Ok? {
      var row := o.reply.value.expedition;
      StartKeepsSingleActive(t.expeditions, row);
      var exps := t.expeditions + [row];
      assert exps[|t.expeditions|] == row;
      assert FindPlanet(t.planets, row.planetId).Some?;
      assert JoinsPlanet(row, t.planets);
      assert forall j :: 0 <= j < |t.expeditions| ==> exps[j] == t.expeditions[j];
      assert FirstActive(exps, user).Some?;
    }
  }

  /**
   * Over a sound catalogue the suit boost is a fraction in [0, 1], so an
   * accepted `/start` on a planet with positive `base_time` stores an end
   * at least `base_time` seconds after the start, and the countdown it
   * returns is at least `base_time`.
   */
  lemma StartEndsLater(t: Tables, user: int, planetId: Option<int>, now: int)
    requires forall it :: it in t.shopItems ==> ShopItemSound(it)
    requires StartOutcome(t, user, planetId, now).reply.Ok?
    requires FindPlanet(t.planets, planetId.value).value.baseTime > 0
    ensures var o := StartOutcome(t, user, planetId, now);
      var baseTime := FindPlanet(t.planets, planetId.value).value.baseTime;
      && o.reply.value.expedition.endTime >= o.reply.value.expedition.startTime + 1000 * baseTime
      && o.reply.value.expedition.endTime > o.reply.value.expedition.startTime
      && o.reply.value.countdown >= baseTime as real
  {
    var baseTime := FindPlanet(t.planets, planetId.value).value.baseTime;
    var boost := UserBoost(t, user, "suit", "autonomy");
    OwnedBoostsSound(t.upgrades, t.shopItems, user, "suit", "autonomy");
    assert baseTime as real * boost >= 0.0;
  }

  // --------------------------------------------------------------- /active

  datatype ActiveReply = ActiveReply(id: nat, expedition: Expedition, planetName: string, baseTime: int,
                                     remaining: int)

  /** `Math.max(0, Math.floor((end - now) / 1000))`: whole seconds left, never negative. */
  function RemainingSeconds(end: int, now: int): (s: int)
    ensures s >= 0
    ensures end >= now ==> s * 1000 <= end - now < (s + 1) * 1000
    ensures end < now ==> s == 0
  {
    var d := (end - now) / 1000;
    if d > 0 then d else 0
  }

  function ActiveStatus(t: Tables, user: int, now: int): (r: Result<ActiveReply, HttpError>)
    ensures ActiveJoined(t.expeditions, t.planets, user).None? <==> r == Err(HttpError(404, "No active expedition found"))
    ensures r.Ok? ==>
      && r.value.id == ActiveJoined(t.expeditions, t.planets, user).value
      && r.value.expedition == t.expeditions[r.value.id]
      && r.value.remaining == RemainingSeconds(r.value.expedition.endTime, now)
  {
    match ActiveJoined(t.expeditions, t.planets, user)
    case None => Err(HttpError(404, "No active expedition found"))
    case Some(k) =>
      var e := t.expeditions[k];
      var p := FindPlanet(t.planets, e.planetId).value;
      Ok(ActiveReply(k, e, p.name, p.baseTime, RemainingSeconds(e.endTime, now)))
  }

  // ------------------------------------------------------ /mine, /explore

  /** A row of `resources r JOIN planet_resources pr ON r.id = pr.resource_id WHERE pr.planet_id = ?`. */
  datatype Stock = Stock(resource: Resource, spawnRate: real)

  function PlanetStock(spawns: seq<SpawnRow>, resources: seq<Resource>, planetId: int): (stock: seq<Stock>)
    ensures |stock| <= |spawns|
    ensures forall s :: s in stock ==> s.resource in resources
    ensures forall i :: 0 <= i < |stock| ==> stock[i].resource in resources
  {
    if spawns == [] then []
    else
      var sp := spawns[|spawns| - 1];
      var res := FindResource(resources, sp.resourceId);
      PlanetStock(spawns[..|spawns| - 1], resources, planetId)
        + (if sp.planetId == planetId && res.Some? then [Stock(res.value, sp.spawnRate)] else [])
  }

  function Rates(stock: seq<Stock>): (ws: seq<real>)
    ensures |ws| == |stock|
    ensures forall i :: 0 <= i < |stock| ==> ws[i] == stock[i].spawnRate
  {
    seq(|stock|, i requires 0 <= i < |stock| => stock[i].spawnRate)
  }

  ghost predicate RaritiesDefined(stock: seq<Stock>) {
    forall i :: 0 <= i < |stock| ==> stock[i].resource.rarity != 0
  }

  /** A mined or found resource as the reply lists it. */
  datatype Found = Found(resourceId: int, name: string, quantity: int, value: int, rarity: int)

  /**
   * One draw: the cumulative pick on `Math.random() * total`, then the
   * quantity for the picked resource. The find is the resource of the
   * picked stock row (the first whose running spawn total reaches the
   * scaled draw, see `PickIsInterval`), in the quantity `Quantity` gives
   * for its rarity, the planet's multiplier and the drone boost, and worth
   * `base_value` per item. Empty when the pick runs off the end, which a
   * non-empty stock with a non-negative total never does.
   */
  function Dig(stock: seq<Stock>, multiplier: real, drone: real, pick: Unit, base: int): (fs: seq<Found>)
    requires RaritiesDefined(stock)
    ensures |fs| <= 1
    ensures |stock| > 0 && Total(Rates(stock)) >= 0.0 ==> |fs| == 1
    ensures forall f :: f in fs ==> f.quantity >= 1
    ensures var c := CumulativePick(Rates(stock), Scaled(pick, Total(Rates(stock))));
      && (fs == [] <==> c.None?)
      && (c.Some? ==>
            var res := stock[c.value].resource;
            var q := Quantity(base, res.rarity, multiplier, drone);
            && fs[0].resourceId == res.id && fs[0].name == res.name && fs[0].rarity == res.rarity
            && fs[0].quantity == q && fs[0].value == res.baseValue * q)
  {
    var weights := Rates(stock);
    PickSucceedsOnStock(stock, pick);
    match CumulativePick(weights, Scaled(pick, Total(weights)))
    case None => []
    case Some(i) =>
      var res := stock[i].resource;
      var q := Quantity(base, res.rarity, multiplier, drone);
      [Found(res.id, res.name, q, res.baseValue * q, res.rarity)]
  }

  lemma PickSucceedsOnStock(stock: seq<Stock>, pick: Unit)
    ensures |stock| > 0 && Total(Rates(stock)) >= 0.0 ==>
      CumulativePick(Rates(stock), Scaled(pick, Total(Rates(stock)))).Some?
  {
    if |stock| > 0 && Total(Rates(stock)) >= 0.0 {
      PickAlwaysSucceeds(Rates(stock), pick);
    }
  }

  /** The `expedition_resources` rows recording finds of expedition `id`: one per find, none merged. */
  function LootRows(id: nat, fs: seq<Found>): (rows: seq<LootRow>)
    ensures |rows| == |fs|
    ensures forall i :: 0 <= i < |fs| ==>
      rows[i] == LootRow(id, fs[i].resourceId, fs[i].quantity)
  {
    seq(|fs|, i requires 0 <= i < |fs| => LootRow(id, fs[i].resourceId, fs[i].quantity))
  }

  lemma LootRowsAppend(id: nat, a: seq<Found>, b: seq<Found>)
    ensures LootRows(id, a + b) == LootRows(id, a) + LootRows(id, b)
  {
  }

  datatype DangerKind = Temperature | Radiation | MagneticStorm | Landslide | HostileCreature
  {
    function Tag(): string {
      match this
      case Temperature => "temperature"
      case Radiation => "radiation"
      case MagneticStorm => "magnetic_storm"
      case Landslide => "landslide"
      case HostileCreature => "hostile_creature"
    }

    function Name(): string {
      match this
      case Temperature => "Extreme Temperature"
      case Radiation => "Radiation Spike"
      case MagneticStorm => "Magnetic Storm"
      case Landslide => "Landslide"
      case HostileCreature => "Hostile Creature"
    }

    /** The damage `/mine` reports. */
    function Damage(): int {
      match this
      case Temperature => 10
      case Radiation => 15
      case MagneticStorm => 20
      case Landslide => 25
      case HostileCreature => 30
    }

    /** The icon `/check-danger` reports. */
    function Icon(): string {
      match this
      case Temperature => "fa-thermometer-full"
      case Radiation => "fa-radiation"
      case MagneticStorm => "fa-bolt"
      case Landslide => "fa-mountain"
      case HostileCreature => "fa-spider"
    }
  }

  /** `dangerTypes[i]`, in table order; damage grows by 5 from 10 along the table. */
  function DangerAt(i: nat): (d: DangerKind)
    requires i < 5
    ensures d.Damage() == 10 + 5 * i
  {
    [Temperature, Radiation, MagneticStorm, Landslide, HostileCreature][i]
  }

  /** The danger roll of `/mine` and `/check-danger`. */
  function RollDanger(level: int, roll: Unit, pick: Unit): (d: Option<DangerKind>)
    ensures d.Some? <==> DangerOccurs(level, roll)
  {
    if DangerOccurs(level, roll) then Some(DangerAt(DangerIndex(pick))) else None
  }

  datatype MineReply = MineReply(mined: seq<Found>, danger: Option<DangerKind>)

  /** The base quantity of a mine: 2..6 for `method === 'manual'`, 1..3 otherwise. */
  function MineBase(manual: bool, roll: Unit): (b: int)
    ensures manual ==> 2 <= b <= 6
    ensures !manual ==> 1 <= b <= 3
  {
    if manual then ManualBase(roll) else AutoBase(roll)
  }

  /** The messages of the two refusals shared by `/mine` and `/explore`. */
  const NoActive := HttpError(404, "No active expedition found")
  const Ended := HttpError(400, "Expedition has ended. Return to your spaceship.")
  const NoStock := HttpError(404, "No resources available on this planet")

  /**
   * `/mine`: 404 without an active expedition, 400 after its end, 404 when
   * its planet spawns nothing; otherwise at most one find is recorded for
   * the expedition and a danger is rolled and reported, with no effect on
   * the store.
   */
  function MineOutcome(t: Tables, user: int, manual: bool, now: int,
                       pickRoll: Unit, baseRoll: Unit, dangerRoll: Unit, dangerPick: Unit): (o: Outcome<MineReply>)
    requires forall res :: res in t.resources ==> res.rarity != 0
    ensures ActiveJoined(t.expeditions, t.planets, user).None? ==> o.reply == Err(NoActive)
    ensures var a := ActiveJoined(t.expeditions, t.planets, user);
      a.Some? ==> (o.reply == Err(Ended) <==> ActRefused(t.expeditions[a.value], now))
    ensures var a := ActiveJoined(t.expeditions, t.planets, user);
      o.reply == Err(NoStock) <==>
        && a.Some? && !ActRefused(t.expeditions[a.value], now)
        && PlanetStock(t.spawns, t.resources, t.expeditions[a.value].planetId) == []
    ensures var a := ActiveJoined(t.expeditions, t.planets, user);
      o.reply.Ok? <==>
        && a.Some? && !ActRefused(t.expeditions[a.value], now)
        && PlanetStock(t.spawns, t.resources, t.expeditions[a.value].planetId) != []
    ensures o.reply.Err? ==> o.after == t
    ensures o.reply.Ok? ==>
      && |o.reply.value.mined| <= 1
      && (forall f :: f in o.reply.value.mined ==> f.quantity >= 1)
      && o.after == t.(loot := t.loot + LootRows(ActiveJoined(t.expeditions, t.planets, user).value, o.reply.value.mined))
    ensures o.reply.Ok? ==>
      var e := t.expeditions[ActiveJoined(t.expeditions, t.planets, user).value];
      var p := FindPlanet(t.planets, e.planetId).value;
      var drone := UserBoost(t, user, "drone", "collection");
      && o.reply.value.mined
         == Dig(PlanetStock(t.spawns, t.resources, e.planetId), p.multiplier, drone, pickRoll, MineBase(manual, baseRoll))
      && o.reply.value.danger == RollDanger(p.dangerLevel, dangerRoll, dangerPick)
  {
    match ActiveJoined(t.expeditions, t.planets, user)
    case None => Outcome(Err(NoActive), t)
    case Some(k) =>
      var e := t.expeditions[k];
      if ActRefused(e, now) then Outcome(Err(Ended), t)
      else
        var p := FindPlanet(t.planets, e.planetId).value;
        var stock := PlanetStock(t.spawns, t.resources, e.planetId);
        if stock == [] then Outcome(Err(NoStock), t)
        else
          var drone := UserBoost(t, user, "drone", "collection");
          var mined := Dig(stock, p.multiplier, drone, pickRoll, MineBase(manual, baseRoll));
          Outcome(Ok(MineReply(mined, RollDanger(p.dangerLevel, dangerRoll, dangerPick))),
                  t.(loot := t.loot + LootRows(k, mined)))
  }

  method Mine(db: Database, user: int, manual: bool, now: int,
              pickRoll: Unit, baseRoll: Unit, dangerRoll: Unit, dangerPick: Unit)
    returns (r: Result<MineReply, HttpError>)
    requires forall res :: res in db.resources ==> res.rarity != 0
    modifies db
    ensures Outcome(r, db.State())
         == MineOutcome(old(db.State()), user, manual, now, pickRoll, baseRoll, dangerRoll, dangerPick)
  {
    var t := db.State();
    var active := ActiveJoined(t.expeditions, t.planets, user);
    if active.None? {
      return Err(NoActive);
    }
    var k := active.value;
    var e := t.expeditions[k];
    if now > e.endTime {
      return Err(Ended);
    }
    var p := FindPlanet(t.planets, e.planetId).value;
    var stock := PlanetStock(t.spawns, t.resources, e.planetId);
    if |stock| == 0 {
      return Err(NoStock);
    }
    var drone := UserBoost(t, user, "drone", "collection");
    var weights := Rates(stock);
    var pick := PickIndex(weights, Scaled(pickRoll, Total(weights)));
    var mined := [];
    if pick.Some? {
      var res := stock[pick.value].resource;
      assert stock[pick.value] in stock;
      var q := Quantity(MineBase(manual, baseRoll), res.rarity, p.multiplier, drone);
      mined := [Found(res.id, res.name, q, res.baseValue * q, res.rarity)];
      db.loot := t.loot + [LootRow(k, res.id, q)];
    }
    r := Ok(MineReply(mined, RollDanger(p.dangerLevel, dangerRoll, dangerPick)));
  }

  /**
   * What `/mine` records belongs to the active expedition alone: every
   * other expedition's collected resources are unchanged, and recorded
   * quantities stay positive.
   */
  lemma MineRecordsOwnLoot(t: Tables, user: int, manual: bool, now: int,
                           pickRoll: Unit, baseRoll: Unit, dangerRoll: Unit, dangerPick: Unit, other: nat)
    requires forall res :: res in t.resources ==> res.rarity != 0
    requires MineOutcome(t, user, manual, now, pickRoll, baseRoll, dangerRoll, dangerPick).reply.Ok?
    requires other != ActiveJoined(t.expeditions, t.planets, user).value
    ensures var o := MineOutcome(t, user, manual, now, pickRoll, baseRoll, dangerRoll, dangerPick);
      CollectedOf(o.after.loot, o.after.resources, other) == CollectedOf(t.loot, t.resources, other)
    ensures LootPositive(t.loot) ==>
      LootPositive(MineOutcome(t, user, manual, now, pickRoll, baseRoll, dangerRoll, dangerPick).after.loot)
  {
    var o := MineOutcome(t, user, manual, now, pickRoll, baseRoll, dangerRoll, dangerPick);
    var k := ActiveJoined(t.expeditions, t.planets, user).value;
    var added := LootRows(k, o.reply.value.mined);
    LootRowsPositive(k, o.reply.value.mined);
    CollectedOfOthers(t.loot, added, t.resources, other);
  }

  /** `/mine` and `/check-danger` roll dangers the same way: on equal rolls they report the same danger. */
  lemma MineAndCheckDangerAgree(t: Tables, user: int, manual: bool, now: int,
                                pickRoll: Unit, baseRoll: Unit, dangerRoll: Unit, dangerPick: Unit)
    requires forall res :: res in t.resources ==> res.rarity != 0
    requires MineOutcome(t, user, manual, now, pickRoll, baseRoll, dangerRoll, dangerPick).reply.Ok?
    ensures CheckDanger(t, user, now, dangerRoll, dangerPick)
         == Ok(MineOutcome(t, user, manual, now, pickRoll, baseRoll, dangerRoll, dangerPick).reply.value.danger)
  {
  }

  /** Finds with positive quantities give loot rows with positive quantities. */
  lemma LootRowsPositive(id: nat, fs: seq<Found>)
    requires forall f :: f in fs ==> f.quantity >= 1
    ensures forall l :: l in LootRows(id, fs) ==> l.quantity >= 1 && l.expeditionId == id
  {
    var rows := LootRows(id, fs);
    forall l | l in rows ensures l.quantity >= 1 && l.expeditionId == id {
      var i :| 0 <= i < |rows| && rows[i] == l;
      assert fs[i] in fs;
    }
  }

  /** The two random values of one exploration draw: the pick and the base quantity. */
  datatype Roll = Roll(pick: Unit, base: Unit)

  /** The finds of an exploration, draw by draw. */
  function Finds(stock: seq<Stock>, multiplier: real, drone: real, rolls: seq<Roll>): (fs: seq<Found>)
    requires RaritiesDefined(stock)
    ensures |fs| <= |rolls|
    ensures forall f :: f in fs ==> f.quantity >= 1
  {
    if rolls == [] then []
    else
      var last := rolls[|rolls| - 1];
      Finds(stock, multiplier, drone, rolls[..|rolls| - 1]) + Dig(stock, multiplier, drone, last.pick, AutoBase(last.base))
  }

  /** With a non-negative spawn total every draw finds something: as many finds as draws. */
  lemma {:induction false} FindsEveryDraw(stock: seq<Stock>, multiplier: real, drone: real, rolls: seq<Roll>)
    requires RaritiesDefined(stock) && |stock| > 0 && Total(Rates(stock)) >= 0.0
    ensures |Finds(stock, multiplier, drone, rolls)| == |rolls|
  {
    if rolls != [] {
      FindsEveryDraw(stock, multiplier, drone, rolls[..|rolls| - 1]);
    }
  }

  /**
   * `/explore`: the refusals of `/mine`; otherwise one draw per roll (2 to
   * 4 of them), every find recorded for the active expedition.
   */
  function ExploreOutcome(t: Tables, user: int, now: int, rolls: seq<Roll>): (o: Outcome<seq<Found>>)
    requires forall res :: res in t.resources ==> res.rarity != 0
    ensures ActiveJoined(t.expeditions, t.planets, user).None? ==> o.reply == Err(NoActive)
    ensures var a := ActiveJoined(t.expeditions, t.planets, user);
      a.Some? ==> (o.reply == Err(Ended) <==> ActRefused(t.expeditions[a.value], now))
    ensures var a := ActiveJoined(t.expeditions, t.planets, user);
      o.reply == Err(NoStock) <==>
        && a.Some? && !ActRefused(t.expeditions[a.value], now)
        && PlanetStock(t.spawns, t.resources, t.expeditions[a.value].planetId) == []
    ensures var a := ActiveJoined(t.expeditions, t.planets, user);
      o.reply.Ok? <==>
        && a.Some? && !ActRefused(t.expeditions[a.value], now)
        && PlanetStock(t.spawns, t.resources, t.expeditions[a.value].planetId) != []
    ensures o.reply.Err? ==> o.after == t
    ensures o.reply.Ok? ==>
      && |o.reply.value| <= |rolls|
      && (forall f :: f in o.reply.value ==> f.quantity >= 1)
      && o.after == t.(loot := t.loot + LootRows(ActiveJoined(t.expeditions, t.planets, user).value, o.reply.value))
    ensures o.reply.Ok? ==>
      var e := t.expeditions[ActiveJoined(t.expeditions, t.planets, user).value];
      o.reply.value == Finds(PlanetStock(t.spawns, t.resources, e.planetId),
                             FindPlanet(t.planets, e.planetId).value.multiplier,
                             UserBoost(t, user, "drone", "collection"), rolls)
  {
    match ActiveJoined(t.expeditions, t.planets, user)
    case None => Outcome(Err(NoActive), t)
    case Some(k) =>
      var e := t.expeditions[k];
      if ActRefused(e, now) then Outcome(Err(Ended), t)
      else
        var p := FindPlanet(t.planets, e.planetId).value;
        var stock := PlanetStock(t.spawns, t.resources, e.planetId);
        if stock == [] then Outcome(Err(NoStock), t)
        else
          var found := Finds(stock, p.multiplier, UserBoost(t, user, "drone", "collection"), rolls);
          Outcome(Ok(found), t.(loot := t.loot + LootRows(k, found)))
  }

  method Explore(db: Database, user: int, now: int, countRoll: Unit, rolls: seq<Roll>)
    returns (r: Result<seq<Found>, HttpError>)
    requires forall res :: res in db.resources ==> res.rarity != 0
    requires |rolls| == ExploreCount(countRoll)
    modifies db
    ensures Outcome(r, db.State()) == ExploreOutcome(old(db.State()), user, now, rolls)
  {
    var t := db.State();
    var active := ActiveJoined(t.expeditions, t.planets, user);
    if active.None? {
      return Err(NoActive);
    }
    var k := active.value;
    var e := t.expeditions[k];
    if now > e.endTime {
      return Err(Ended);
    }
    var p := FindPlanet(t.planets, e.planetId).value;
    var stock := PlanetStock(t.spawns, t.resources, e.planetId);
    if |stock| == 0 {
      return Err(NoStock);
    }
    var drone := UserBoost(t, user, "drone", "collection");
    var found := ExploreDraws(stock, p.multiplier, drone, rolls);
    db.loot := t.loot + LootRows(k, found);
    r := Ok(found);
  }

  /**
   * With non-negative spawn rates every draw of `/explore` finds something:
   * a successful exploration reports one find per roll, and what it records
   * belongs to the active expedition alone.
   */
  lemma ExploreFindsPerRoll(t: Tables, user: int, now: int, countRoll: Unit, rolls: seq<Roll>, other: nat)
    requires forall res :: res in t.resources ==> res.rarity != 0
    requires forall sp :: sp in t.spawns ==> sp.spawnRate >= 0.0
    requires |rolls| == ExploreCount(countRoll)
    requires ExploreOutcome(t, user, now, rolls).reply.Ok?
    requires other != ActiveJoined(t.expeditions, t.planets, user).value
    ensures 2 <= |ExploreOutcome(t, user, now, rolls).reply.value| <= 4
    ensures var o := ExploreOutcome(t, user, now, rolls);
      CollectedOf(o.after.loot, o.after.resources, other) == CollectedOf(t.loot, t.resources, other)
  {
    var o := ExploreOutcome(t, user, now, rolls);
    var k := ActiveJoined(t.expeditions, t.planets, user).value;
    var e := t.expeditions[k];
    var stock := PlanetStock(t.spawns, t.resources, e.planetId);
    StockRatesNonNegative(t.spawns, t.resources, e.planetId);
    assert NonNegative(Rates(stock));
    PrefixMonotone(Rates(stock), 0, |stock|);
    FindsEveryDraw(stock, FindPlanet(t.planets, e.planetId).value.multiplier, UserBoost(t, user, "drone", "collection"), rolls);
    LootRowsPositive(k, o.reply.value);
    CollectedOfOthers(t.loot, LootRows(k, o.reply.value), t.resources, other);
  }

  /** A planet's stock carries spawn rates taken from `planet_resources`. */
  lemma {:induction false} StockRatesNonNegative(spawns: seq<SpawnRow>, resources: seq<Resource>, planetId: int)
    requires forall sp :: sp in spawns ==> sp.spawnRate >= 0.0
    ensures forall s :: s in PlanetStock(spawns, resources, planetId) ==> s.spawnRate >= 0.0
  {
    if spawns != [] {
      assert forall sp :: sp in spawns[..|spawns| - 1] ==> sp in spawns;
      StockRatesNonNegative(spawns[..|spawns| - 1], resources, planetId);
      assert spawns[|spawns| - 1] in spawns;
    }
  }

  /**
   * The exploration loop: `resourceCount` draws, each picking a resource and
   * pushing one find when the pick succeeds.
   */
  method ExploreDraws(stock: seq<Stock>, multiplier: real, drone: real, rolls: seq<Roll>)
    returns (found: seq<Found>)
    requires RaritiesDefined(stock)
    ensures found == Finds(stock, multiplier, drone, rolls)
  {
    found := [];
    var weights := Rates(stock);
    for i := 0 to |rolls|
      invariant found == Finds(stock, multiplier, drone, rolls[..i])
    {
      assert rolls[..i + 1][..i] == rolls[..i];
      var pick := PickIndex(weights, Scaled(rolls[i].pick, Total(weights)));
      if pick.Some? {
        var res := stock[pick.value].resource;
        assert stock[pick.value] in stock;
        var q := Quantity(AutoBase(rolls[i].base), res.rarity, multiplier, drone);
        found := found + [Found(res.id, res.name, q, res.baseValue * q, res.rarity)];
      }
    }
    assert rolls[..|rolls|] == rolls;
  }

  // --------------------------------------------------------- /check-danger

  function CheckDanger(t: Tables, user: int, now: int, roll: Unit, pick: Unit): (r: Result<Option<DangerKind>, HttpError>)
    ensures ActiveJoined(t.expeditions, t.planets, user).None? ==> r == Err(NoActive)
    ensures r.Ok? <==> ActiveJoined(t.expeditions, t.planets, user).Some?
                       && !ActRefused(t.expeditions[ActiveJoined(t.expeditions, t.planets, user).value], now)
    ensures r.Ok? ==> (r.value.Some? <==> DangerOccurs(
      FindPlanet(t.planets, t.expeditions[ActiveJoined(t.expeditions, t.planets, user).value].planetId).value.dangerLevel, roll))
  {
    match ActiveJoined(t.expeditions, t.planets, user)
    case None => Err(NoActive)
    case Some(k) =>
      var e := t.expeditions[k];
      if now > e.endTime then Err(Ended)
      else Ok(RollDanger(FindPlanet(t.planets, e.planetId).value.dangerLevel, roll, pick))
  }

  // ------------------------------------------------- /time-up and /return

  /** `UPDATE users SET currency = currency + ? WHERE id = ?`: no row, no change. */
  function AddCurrency(users: map<int, User>, user: int, amount: int): (users': map<int, User>)
    ensures users'.Keys == users.Keys
    ensures user in users ==> users'[user].currency == users[user].currency + amount as real
    ensures forall u :: u in users && u != user ==> users'[u] == users[u]
  {
    if user in users then users[user := users[user].(currency := users[user].currency + amount as real)] else users
  }

  /**
   * The `/time-up` loop: each row recovering a positive quantity is added to
   * the user's stock and to the total, and its reply row shows the recovered
   * quantity.
   */
  method SettleTimeUp(inv: map<(int, int), int>, user: int, cs: seq<Collected>, recovery: real)
    returns (inv': map<(int, int), int>, total: int, rows: seq<Collected>)
    ensures inv' == InventoryAfter(inv, user, cs, false, recovery)
    ensures total == TotalCredit(cs, false, recovery)
    ensures rows == TimeUpRows(cs, recovery)
  {
    inv', total, rows := inv, 0, cs;
    for i := 0 to |cs|
      invariant |rows| == |cs|
      invariant inv' == InventoryAfter(inv, user, cs[..i], false, recovery)
      invariant total == TotalCredit(cs[..i], false, recovery)
      invariant forall j :: 0 <= j < i ==> rows[j] == TimeUpRows(cs, recovery)[j]
      invariant forall j :: i <= j < |cs| ==> rows[j] == cs[j]
    {
      assert cs[..i + 1][..i] == cs[..i];
      var fq := (cs[i].quantity as real * recovery).Floor;
      assert fq == Credit(cs[i].quantity, false, recovery);
      if fq > 0 {
        var key := (user, cs[i].resourceId);
        inv' := inv'[key := (if key in inv' then inv'[key] else 0) + fq];
        total := total + cs[i].baseValue * fq;
        rows := rows[i := rows[i].(quantity := fq)];
      }
    }
    assert cs[..|cs|] == cs;
  }

  /**
   * The `/return` loop: each row's credit (its quantity on success, the
   * recovered quantity otherwise) is added when positive; after a failure
   * with insurance every reply row shows its recovered quantity.
   */
  method SettleReturn(inv: map<(int, int), int>, user: int, cs: seq<Collected>, success: bool, recovery: real)
    returns (inv': map<(int, int), int>, total: int, rows: seq<Collected>)
    ensures inv' == InventoryAfter(inv, user, cs, success, recovery)
    ensures total == TotalCredit(cs, success, recovery)
    ensures rows == ReturnRows(cs, success, recovery)
  {
    inv', total, rows := inv, 0, cs;
    for i := 0 to |cs|
      invariant |rows| == |cs|
      invariant inv' == InventoryAfter(inv, user, cs[..i], success, recovery)
      invariant total == TotalCredit(cs[..i], success, recovery)
      invariant forall j :: 0 <= j < i ==> rows[j] == ReturnRows(cs, success, recovery)[j]
      invariant forall j :: i <= j < |cs| ==> rows[j] == cs[j]
    {
      assert cs[..i + 1][..i] == cs[..i];
      var fq := cs[i].quantity;
      if !success {
        fq := (cs[i].quantity as real * recovery).Floor;
      }
      assert fq == Credit(cs[i].quantity, success, recovery);
      if fq > 0 {
        var key := (user, cs[i].resourceId);
        inv' := inv'[key := (if key in inv' then inv'[key] else 0) + fq];
        total := total + cs[i].baseValue * fq;
      }
      if !success && recovery > 0.0 {
        rows := rows[i := rows[i].(quantity := fq)];
      }
    }
    assert cs[..|cs|] == cs;
  }

  /** The `/time-up` reply: the recovery fraction, the rows shown, and the value credited. */
  datatype TimeUpReply = TimeUpReply(recovery: real, resources: seq<Collected>, totalValue: int)

  /** The insurance recovery fraction the user holds, 0 without insurance. */
  function Recovery(t: Tables, user: int): real {
    UserBoost(t, user, "insurance", "recovery")
  }

  /**
   * `/time-up`: 404 without an active expedition, 400 up to its end time;
   * afterwards the expedition is marked timed out and, with insurance, the
   * recovered share of its loot is credited to inventory and its value to
   * the user's currency. Only those three tables change.
   */
  function TimeUpOutcome(t: Tables, user: int, now: int): (o: Outcome<TimeUpReply>)
    ensures ActiveJoined(t.expeditions, t.planets, user).None? ==> o.reply == Err(NoActive)
    ensures o.reply.Err? ==> o.after == t
    ensures o.reply.Ok? <==> ActiveJoined(t.expeditions, t.planets, user).Some?
                             && !TimeUpRefused(t.expeditions[ActiveJoined(t.expeditions, t.planets, user).value], now)
    ensures o.after == t.(expeditions := o.after.expeditions, inventory := o.after.inventory, users := o.after.users)
  {
    match ActiveJoined(t.expeditions, t.planets, user)
    case None => Outcome(Err(NoActive), t)
    case Some(k) =>
      var e := t.expeditions[k];
      if TimeUpRefused(e, now) then Outcome(Err(HttpError(400, "Expedition has not ended yet")), t)
      else TimeOut(t, user, k)
  }

  /**
   * While an expedition is active, at every instant exactly one of two
   * things holds: `/mine`, `/explore` and `/check-danger` go ahead (the
   * first two refusing only for a planet that spawns nothing), or
   * `/time-up` is accepted. The end time itself still belongs to acting.
   */
  lemma ActOrTimeUp(t: Tables, user: int, manual: bool, now: int, pickRoll: Unit, baseRoll: Unit,
                    dangerRoll: Unit, dangerPick: Unit, rolls: seq<Roll>)
    requires forall res :: res in t.resources ==> res.rarity != 0
    requires ActiveJoined(t.expeditions, t.planets, user).Some?
    ensures var m := MineOutcome(t, user, manual, now, pickRoll, baseRoll, dangerRoll, dangerPick).reply;
      (m.Ok? || m == Err(NoStock)) != TimeUpOutcome(t, user, now).reply.Ok?
    ensures var x := ExploreOutcome(t, user, now, rolls).reply;
      (x.Ok? || x == Err(NoStock)) != TimeUpOutcome(t, user, now).reply.Ok?
    ensures CheckDanger(t, user, now, dangerRoll, dangerPick).Ok? != TimeUpOutcome(t, user, now).reply.Ok?
    ensures TimeUpOutcome(t, user, t.expeditions[ActiveJoined(t.expeditions, t.planets, user).value].endTime).reply.Err?
  {
  }

  /** The accepted `/time-up` of expedition `k`. */
  function TimeOut(t: Tables, user: int, k: nat): Outcome<TimeUpReply>
    requires k < |t.expeditions|
  {
    var recovery := Recovery(t, user);
    var cs := CollectedOf(t.loot, t.resources, k);
    var insured := recovery > 0.0;
    var total := if insured then TotalCredit(cs, false, recovery) else 0;
    Outcome(Ok(TimeUpReply(recovery, if insured then TimeUpRows(cs, recovery) else [], total)),
            t.(expeditions := Close(t.expeditions, k, TimedOut, false),
               inventory := if insured then InventoryAfter(t.inventory, user, cs, false, recovery) else t.inventory,
               users := if total > 0 then AddCurrency(t.users, user, total) else t.users))
  }

  method TimeUp(db: Database, user: int, now: int) returns (r: Result<TimeUpReply, HttpError>)
    modifies db
    ensures Outcome(r, db.State()) == TimeUpOutcome(old(db.State()), user, now)
  {
    var active := ActiveJoined(db.expeditions, db.planets, user);
    if active.None? {
      return Err(NoActive);
    }
    var k := active.value;
    if now <= db.expeditions[k].endTime {
      return Err(HttpError(400, "Expedition has not ended yet"));
    }
    r := TimeOutExpedition(db, user, k);
  }

  /** The body of `/time-up` once the active expedition `k` is found to be over. */
  method TimeOutExpedition(db: Database, user: int, k: nat) returns (r: Result<TimeUpReply, HttpError>)
    requires k < |db.expeditions|
    modifies db
    ensures Outcome(r, db.State()) == TimeOut(old(db.State()), user, k)
  {
    // The status write does not touch the tables read below, so every read
    // is taken from the store as it was on entry.
    var t := db.State();
    var recovery := Recovery(t, user);
    var cs := CollectedOf(t.loot, t.resources, k);
    var inventory, total, rows := t.inventory, 0, cs;
    if recovery > 0.0 {
      inventory, total, rows := SettleTimeUp(t.inventory, user, cs, recovery);
    }
    var users := if total > 0 then AddCurrency(t.users, user, total) else t.users;
    db.expeditions, db.inventory, db.users := Close(t.expeditions, k, TimedOut, false), inventory, users;
    r := Ok(TimeUpReply(recovery, if recovery > 0.0 then rows else [], total));
  }

  /**
   * After a successful `/time-up` the expedition is over: the invariant of
   * one active expedition per user still holds, the row is timed out, and
   * a repeated `/time-up` or a `/return` answers 404.
   */
  lemma TimeUpEndsExpedition(t: Tables, user: int, now: int, later: int, month: int, year: int)
    requires SingleActive(t.expeditions)
    requires TimeUpOutcome(t, user, now).reply.Ok?
    ensures var o := TimeUpOutcome(t, user, now);
      && SingleActive(o.after.expeditions)
      && o.after.expeditions[ActiveJoined(t.expeditions, t.planets, user).value].status == TimedOut
      && TimeUpOutcome(o.after, user, later).reply == Err(NoActive)
      && ReturnOutcome(o.after, user, later, month, year).reply == Err(NoActive)
  {
    var k := ActiveJoined(t.expeditions, t.planets, user).value;
    CloseKeepsSingleActive(t.expeditions, k, TimedOut, false);
    CloseEndsActivity(t.expeditions, t.planets, k, TimedOut, false);
  }

  /**
   * What `/time-up` credits: each (user, resource) stock grows by the
   * recovered quantities of that resource's rows and nobody else's stock
   * moves; the user's currency grows by the reported total when it is
   * positive. Without insurance nothing but the status changes.
   */
  lemma TimeUpSettlement(t: Tables, user: int, now: int, u: int, res: int)
    requires TimeUpOutcome(t, user, now).reply.Ok?
    ensures var o := TimeUpOutcome(t, user, now);
      var k := ActiveJoined(t.expeditions, t.planets, user).value;
      var cs := CollectedOf(t.loot, t.resources, k);
      var recovery := o.reply.value.recovery;
      && recovery == Recovery(t, user)
      && o.reply.value.totalValue == (if recovery > 0.0 then TotalCredit(cs, false, recovery) else 0)
      && o.reply.value.resources == (if recovery > 0.0 then TimeUpRows(cs, recovery) else [])
      && Get(o.after.inventory, (u, res))
         == Get(t.inventory, (u, res)) + (if u == user && recovery > 0.0 then CreditedOf(cs, res, false, recovery) else 0)
      && (user in t.users ==>
            (o.after.users[user].currency
             == t.users[user].currency + (if o.reply.value.totalValue > 0 then o.reply.value.totalValue else 0) as real))
      && (recovery <= 0.0 ==>
            (o.reply.value.totalValue == 0 && o.reply.value.resources == []
             && o.after == t.(expeditions := Close(t.expeditions, k, TimedOut, false))))
  {
    var o := TimeUpOutcome(t, user, now);
    var k := ActiveJoined(t.expeditions, t.planets, user).value;
    var cs := CollectedOf(t.loot, t.resources, k);
    var recovery := Recovery(t, user);
    if recovery > 0.0 {
      InventoryConservation(t.inventory, user, cs, false, recovery, u, res);
    }
  }

  /** The `/return` reply; `recovery` is null (None) after a success. */
  datatype ReturnReply = ReturnReply(success: bool, recovery: Option<real>, resources: seq<Collected>, totalValue: int)

  /**
   * `/return`: 404 without an active expedition; otherwise the expedition
   * is completed, successfully when the clock has not passed its end. A
   * success, or a failure with insurance, credits the loot (in full or the
   * recovered share) to inventory, its value to the user's currency and to
   * the user's score for the current month. Only those four tables change.
   */
  function ReturnOutcome(t: Tables, user: int, now: int, month: int, year: int): (o: Outcome<ReturnReply>)
    ensures ActiveJoined(t.expeditions, t.planets, user).None? <==> o.reply == Err(NoActive)
    ensures o.reply.Err? ==> o.after == t
    ensures o.reply.Ok? ==>
      (o.reply.value.success <==> now <= t.expeditions[ActiveJoined(t.expeditions, t.planets, user).value].endTime)
    ensures o.after == t.(expeditions := o.after.expeditions, inventory := o.after.inventory,
                          users := o.after.users, leaderboard := o.after.leaderboard)
  {
    match ActiveJoined(t.expeditions, t.planets, user)
    case None => Outcome(Err(NoActive), t)
    case Some(k) => Complete(t, user, k, now <= t.expeditions[k].endTime, month, year)
  }

  /** The `/return` of expedition `k`, successful or not. */
  function Complete(t: Tables, user: int, k: nat, success: bool, month: int, year: int): (o: Outcome<ReturnReply>)
    requires k < |t.expeditions|
    ensures o.reply.Ok? && o.reply.value.success == success
  {
    var recovery := if success then 0.0 else Recovery(t, user);
    var cs := CollectedOf(t.loot, t.resources, k);
    var settles := success || recovery > 0.0;
    var total := if settles then TotalCredit(cs, success, recovery) else 0;
    Outcome(Ok(ReturnReply(success, if success then None else Some(recovery),
                           ReturnRows(cs, success, recovery), total)),
            t.(expeditions := Close(t.expeditions, k, Completed, success),
               inventory := if settles then InventoryAfter(t.inventory, user, cs, success, recovery) else t.inventory,
               users := if settles then AddCurrency(t.users, user, total) else t.users,
               leaderboard := if settles then UpsertScore(t.leaderboard, user, month, year, total) else t.leaderboard))
  }

  method Return(db: Database, user: int, now: int, month: int, year: int) returns (r: Result<ReturnReply, HttpError>)
    modifies db
    ensures Outcome(r, db.State()) == ReturnOutcome(old(db.State()), user, now, month, year)
  {
    var active := ActiveJoined(db.expeditions, db.planets, user);
    if active.None? {
      return Err(NoActive);
    }
    var k := active.value;
    r := CompleteExpedition(db, user, k, now <= db.expeditions[k].endTime, month, year);
  }

  /** The body of `/return` once the active expedition `k` is found. */
  method CompleteExpedition(db: Database, user: int, k: nat, success: bool, month: int, year: int)
    returns (r: Result<ReturnReply, HttpError>)
    requires k < |db.expeditions|
    modifies db
    ensures Outcome(r, db.State()) == Complete(old(db.State()), user, k, success, month, year)
  {
    var t := db.State();
    var recovery := 0.0;
    if !success {
      recovery := Recovery(t, user);
    }
    var cs := CollectedOf(t.loot, t.resources, k);
    var inventory, total, rows := t.inventory, 0, cs;
    var users, board := t.users, t.leaderboard;
    if success || recovery > 0.0 {
      inventory, total, rows := SettleReturn(t.inventory, user, cs, success, recovery);
      users := AddCurrency(t.users, user, total);
      board := UpsertScore(t.leaderboard, user, month, year, total);
    } else {
      ReturnRowsAsCollected(cs, success, recovery);
    }
    db.expeditions, db.inventory, db.users, db.leaderboard :=
      Close(t.expeditions, k, Completed, success), inventory, users, board;
    r := Ok(ReturnReply(success, if success then None else Some(recovery), rows, total));
  }

  /**
   * After `/return` the expedition is over: the invariant still holds, the
   * row is completed, and a repeated `/return` or a `/time-up` answers 404.
   */
  lemma ReturnEndsExpedition(t: Tables, user: int, now: int, month: int, year: int, later: int)
    requires SingleActive(t.expeditions)
    requires ReturnOutcome(t, user, now, month, year).reply.Ok?
    ensures var o := ReturnOutcome(t, user, now, month, year);
      && SingleActive(o.after.expeditions)
      && o.after.expeditions[ActiveJoined(t.expeditions, t.planets, user).value].status == Completed
      && ReturnOutcome(o.after, user, later, month, year).reply == Err(NoActive)
      && TimeUpOutcome(o.after, user, later).reply == Err(NoActive)
  {
    var k := ActiveJoined(t.expeditions, t.planets, user).value;
    var success := now <= t.expeditions[k].endTime;
    CloseKeepsSingleActive(t.expeditions, k, Completed, success);
    CloseEndsActivity(t.expeditions, t.planets, k, Completed, success);
  }

  /**
   * What `/return` credits when it settles: each (user, resource) stock
   * grows by that resource's credits and nobody else's moves, and the
   * reported total is added both to the user's currency and to the user's
   * score for the period, leaving every other score as it was.
   */
  lemma ReturnSettlement(t: Tables, user: int, now: int, month: int, year: int, u: int, res: int, m: int, y: int)
    requires ReturnOutcome(t, user, now, month, year).reply.Ok?
    ensures var o := ReturnOutcome(t, user, now, month, year);
      var k := ActiveJoined(t.expeditions, t.planets, user).value;
      var cs := CollectedOf(t.loot, t.resources, k);
      var success := o.reply.value.success;
      var recovery := if success then 0.0 else Recovery(t, user);
      && o.reply.value.resources == ReturnRows(cs, success, recovery)
      && (success || recovery > 0.0 ==>
        && o.reply.value.totalValue == TotalCredit(cs, success, recovery)
        && Get(o.after.inventory, (u, res))
           == Get(t.inventory, (u, res)) + (if u == user then CreditedOf(cs, res, success, recovery) else 0)
        && (user in t.users ==>
              o.after.users[user].currency == t.users[user].currency + o.reply.value.totalValue as real)
        && PeriodScore(o.after.leaderboard, u, m, y)
           == PeriodScore(t.leaderboard, u, m, y) + (if u == user && m == month && y == year then o.reply.value.totalValue else 0))
  {
    var o := ReturnOutcome(t, user, now, month, year);
    var k := ActiveJoined(t.expeditions, t.planets, user).value;
    var cs := CollectedOf(t.loot, t.resources, k);
    var success := o.reply.value.success;
    var recovery := if success then 0.0 else Recovery(t, user);
    if success || recovery > 0.0 {
      InventoryConservation(t.inventory, user, cs, success, recovery, u, res);
      UpsertScoreAdds(t.leaderboard, user, month, year, o.reply.value.totalValue, u, m, y);
    }
  }

  /**
   * A late `/return` without insurance pays nothing and changes nothing but
   * the expedition's status, which becomes `completed` with success false.
   */
  lemma ReturnWithoutPayout(t: Tables, user: int, now: int, month: int, year: int)
    requires ReturnOutcome(t, user, now, month, year).reply.Ok?
    ensures var o := ReturnOutcome(t, user, now, month, year);
      var k := ActiveJoined(t.expeditions, t.planets, user).value;
      var success := o.reply.value.success;
      !success && Recovery(t, user) <= 0.0 ==>
        && o.reply.value.totalValue == 0
        && o.after == t.(expeditions := Close(t.expeditions, k, Completed, false))
  { }

  /**
   * Insurance never pays more than success: with every recorded quantity
   * positive, non-negative resource values and a sound catalogue (recovery
   * in [0, 1]), what `/time-up` or a late `/return` credits lies between 0
   * and the value of the expedition's loot, which an on-time `/return`
   * credits in full.
   */
  lemma InsuredPayoutBounded(t: Tables, user: int, now: int, month: int, year: int)
    requires LootPositive(t.loot)
    requires forall r :: r in t.resources ==> r.baseValue >= 0
    requires forall it :: it in t.shopItems ==> ShopItemSound(it)
    requires ActiveJoined(t.expeditions, t.planets, user).Some?
    ensures var cs := CollectedOf(t.loot, t.resources, ActiveJoined(t.expeditions, t.planets, user).value);
      var up := TimeUpOutcome(t, user, now).reply;
      var back := ReturnOutcome(t, user, now, month, year).reply;
      && (up.Ok? ==> 0 <= up.value.totalValue <= LootValue(cs))
      && 0 <= back.value.totalValue <= LootValue(cs)
      && (back.value.success ==> back.value.totalValue == LootValue(cs))
  {
    var k := ActiveJoined(t.expeditions, t.planets, user).value;
    var cs := CollectedOf(t.loot, t.resources, k);
    var recovery := Recovery(t, user);
    OwnedBoostsSound(t.upgrades, t.shopItems, user, "insurance", "recovery");
    CollectedFromLoot(t.loot, t.resources, k);
    CollectedValuesNonNegative(t.loot, t.resources, k);
    InsuranceNeverExceedsSuccess(cs, recovery);
    InsuranceNeverExceedsSuccess(cs, 0.0);
    SuccessCreditsHistoryValue(cs, recovery);
    SuccessCreditsHistoryValue(cs, 0.0);
  }

  /**
   * On a successful return every recorded quantity is credited in full, so
   * the reported total is the value `/history` lists for the expedition.
   */
  lemma ReturnPaysHistoryValue(t: Tables, user: int, now: int, month: int, year: int)
    requires LootPositive(t.loot)
    requires ReturnOutcome(t, user, now, month, year).reply.Ok?
    requires ReturnOutcome(t, user, now, month, year).reply.value.success
    ensures var o := ReturnOutcome(t, user, now, month, year);
      o.reply.value.totalValue
      == LootValue(CollectedOf(o.after.loot, o.after.resources, ActiveJoined(t.expeditions, t.planets, user).value))
  {
    var k := ActiveJoined(t.expeditions, t.planets, user).value;
    var cs := CollectedOf(t.loot, t.resources, k);
    CollectedFromLoot(t.loot, t.resources, k);
    SuccessCreditsHistoryValue(cs, 0.0);
  }

  // -------------------------------------------------------------- /history

  /** Completed expeditions of the user whose planet joins, with their ids. */
  function CompletedOf(exps: seq<Expedition>, planets: seq<Planet>, user: int): (cands: seq<(nat, Expedition)>)
    ensures forall c :: c in cands ==>
      c.0 < |exps| && exps[c.0] == c.1 && c.1.userId == user && c.1.status == Completed && JoinsPlanet(c.1, planets)
    ensures forall i :: (0 <= i < |exps| && exps[i].userId == user && exps[i].status == Completed
                         && JoinsPlanet(exps[i], planets)) ==> (i, exps[i]) in cands
  {
    if exps == [] then []
    else
      var n := |exps| - 1;
      var e := exps[n];
      CompletedOf(exps[..n], planets, user)
        + (if e.userId == user && e.status == Completed && JoinsPlanet(e, planets) then [(n, e)] else [])
  }

  function EndKey(c: (nat, Expedition)): int {
    c.1.endTime
  }

  datatype HistoryEntry = HistoryEntry(id: nat, expedition: Expedition, planetName: string,
                                       resources: seq<Collected>, totalValue: int)

  /** `ORDER BY e.end_time DESC LIMIT 10` over the user's completed expeditions. */
  function HistorySelection(t: Tables, user: int): (sel: seq<(nat, Expedition)>)
    ensures IsTopSelection(sel, CompletedOf(t.expeditions, t.planets, user), EndKey, 10)
    ensures |sel| <= 10
  {
    TopBy(CompletedOf(t.expeditions, t.planets, user), EndKey, 10)
  }

  /** One history entry per selected expedition, with its resources and their value. */
  function HistoryEntries(t: Tables, sel: seq<(nat, Expedition)>): (hs: seq<HistoryEntry>)
    requires forall c :: c in sel ==> JoinsPlanet(c.1, t.planets)
    ensures |hs| == |sel|
    ensures forall i :: 0 <= i < |sel| ==>
      && hs[i].id == sel[i].0 && hs[i].expedition == sel[i].1
      && hs[i].resources == CollectedOf(t.loot, t.resources, sel[i].0)
      && hs[i].totalValue == LootValue(hs[i].resources)
  {
    if sel == [] then []
    else
      var init, c := sel[..|sel| - 1], sel[|sel| - 1];
      assert forall d :: d in init ==> d in sel;
      assert c in sel && JoinsPlanet(c.1, t.planets);
      var cs := CollectedOf(t.loot, t.resources, c.0);
      HistoryEntries(t, init)
        + [HistoryEntry(c.0, c.1, FindPlanet(t.planets, c.1.planetId).value.name, cs, LootValue(cs))]
  }

  function History(t: Tables, user: int): (hs: seq<HistoryEntry>)
    ensures |hs| == |HistorySelection(t, user)| <= 10
    ensures forall i :: 0 <= i < |hs| ==>
      && hs[i].id < |t.expeditions| && hs[i].expedition == t.expeditions[hs[i].id]
      && hs[i].expedition.status == Completed && hs[i].expedition.userId == user
      && hs[i].resources == CollectedOf(t.loot, t.resources, hs[i].id)
      && hs[i].totalValue == LootValue(hs[i].resources)
  {
    var sel := HistorySelection(t, user);
    SelectionFromCandidates(sel, CompletedOf(t.expeditions, t.planets, user), EndKey, 10);
    var hs := HistoryEntries(t, sel);
    assert forall i :: 0 <= i < |sel| ==> sel[i] in sel;
    hs
  }
}
