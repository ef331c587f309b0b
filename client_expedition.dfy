/**
 * The browser-side `Expedition` object: the active expedition it tracks,
 * the list of collected loot it merges in place as resources come in, the
 * guards on starting, mining, exploring and auto-collecting, the countdown
 * display and the totals shown before returning to the ship. Timers, the
 * DOM and the HTTP calls are outside the model: a timer is a flag saying
 * whether it is set, the clock is a `now` parameter in milliseconds, and
 * each server answer is a parameter.
 */
module ClientExpedition {
  import opened Wrappers
  import opened Text
  import opened Collections

  /**
   * A loot object as the client holds it. Every field may be absent, as on
   * a JavaScript object; `totalValue` is `total_value`.
   */
  datatype Loot = Loot(id: Option<int>, name: Option<string>, rarity: Option<int>,
                       quantity: Option<int>, value: Option<int>, totalValue: Option<int>)

  /** `activeExpedition` as far as the client reads it. */
  datatype Active = Active(id: int, endTime: int)

  /** `x || 1` on a count: an absent or zero count is 1. */
  function OrOne(q: Option<int>): int {
    if q.None? || q.value == 0 then 1 else q.value
  }

  /** `x || 0` on a value. */
  function OrZero(v: Option<int>): int {
    if v.None? then 0 else v.value
  }

  /** The `findIndex` test: same id (two absent ids are the same), or same name and rarity. */
  predicate SameResource(entry: Loot, r: Loot) {
    entry.id == r.id || (entry.name == r.name && entry.rarity == r.rarity)
  }

  /** `findIndex`: the first entry that matches, or |list| when none does. */
  function MatchIndex(list: seq<Loot>, r: Loot): (i: nat)
    ensures i <= |list|
    ensures i < |list| ==> SameResource(list[i], r)
    ensures forall j :: 0 <= j < i ==> !SameResource(list[j], r)
  {
    if list == [] then 0
    else if SameResource(list[0], r) then 0
    else 1 + MatchIndex(list[1..], r)
  }

  /** The new entry `{...resource, quantity, total_value}` pushed when nothing matches. */
  function Fresh(r: Loot): Loot {
    r.(quantity := Some(OrOne(r.quantity)), totalValue := Some(OrOne(r.quantity) * OrZero(r.value)))
  }

  /** The matched entry after `r` is folded into it; the price per item is `r`'s. */
  function Folded(entry: Loot, r: Loot): Loot {
    var q := OrOne(entry.quantity) + OrOne(r.quantity);
    entry.(quantity := Some(q), totalValue := Some(q * OrZero(r.value)))
  }

  /** The collected list after `addCollectedResource(r)`. */
  function Merged(list: seq<Loot>, r: Option<Loot>): seq<Loot> {
    match r
    case None => list
    case Some(x) =>
      var i := MatchIndex(list, x);
      if i == |list| then list + [Fresh(x)] else list[i := Folded(list[i], x)]
  }

  /**
   * A null resource is ignored. Otherwise, when some entry matches, the
   * first match absorbs it: its count becomes `(old ‖ 1) + (new ‖ 1)`, its
   * `total_value` that count times `value ‖ 0`, and every other entry and the
   * length stay as they were. When none matches, exactly one entry is
   * appended with count `new ‖ 1`.
   */
  lemma MergeCases(list: seq<Loot>, r: Option<Loot>)
    ensures r.None? ==> Merged(list, r) == list
    ensures r.Some? && MatchIndex(list, r.value) < |list| ==>
      var i := MatchIndex(list, r.value);
      var m := Merged(list, r);
      && |m| == |list|
      && (forall j :: 0 <= j < |list| && j != i ==> m[j] == list[j])
      && m[i].quantity == Some(OrOne(list[i].quantity) + OrOne(r.value.quantity))
      && m[i].totalValue == Some((OrOne(list[i].quantity) + OrOne(r.value.quantity)) * OrZero(r.value.value))
      && m[i].id == list[i].id && m[i].name == list[i].name && m[i].rarity == list[i].rarity
      && m[i].value == list[i].value
    ensures r.Some? && MatchIndex(list, r.value) == |list| ==>
      var m := Merged(list, r);
      && (forall j :: 0 <= j < |list| ==> !SameResource(list[j], r.value))
      && |m| == |list| + 1 && m[..|list|] == list
      && m[|list|].quantity == Some(OrOne(r.value.quantity))
      && m[|list|].totalValue == Some(OrOne(r.value.quantity) * OrZero(r.value.value))
      && m[|list|].id == r.value.id && m[|list|].name == r.value.name
  {
    if r.Some? && MatchIndex(list, r.value) == |list| {
      assert Merged(list, r)[..|list|] == list;
    }
  }

  /**
   * Loot objects without an `id` all match one another (`undefined ===
   * undefined`), whatever their names: such a resource is always folded
   * into the first id-less entry.
   */
  lemma UnidentifiedLootMerges(list: seq<Loot>, r: Loot)
    requires list != [] && list[0].id.None? && r.id.None?
    ensures MatchIndex(list, r) == 0
    ensures |Merged(list, Some(r))| == |list|
  {
  }

  /** A count that `‖ 1` treats as it is: absent, or not negative. */
  predicate Counted(x: Loot) {
    x.quantity.None? || x.quantity.value >= 0
  }

  predicate AllCounted(list: seq<Loot>) {
    forall j :: 0 <= j < |list| ==> Counted(list[j])
  }

  /** The items a loot object stands for, `quantity ‖ 1`. */
  function Items(x: Loot): int {
    OrOne(x.quantity)
  }

  /** The credits a loot object is worth in the confirmation, `(value ‖ 0) × (quantity ‖ 1)`. */
  function Worth(x: Loot): int {
    OrZero(x.value) * OrOne(x.quantity)
  }

  /** The sum of `f` over a list, added up from the front as `forEach` does. */
  function Total(list: seq<Loot>, f: Loot -> int): int {
    if list == [] then 0 else Total(list[..|list| - 1], f) + f(list[|list| - 1])
  }

  lemma TotalAppend(list: seq<Loot>, x: Loot, f: Loot -> int)
    ensures Total(list + [x], f) == Total(list, f) + f(x)
  {
    assert (list + [x])[..|list|] == list;
  }

  /** Replacing one entry changes the sum by the difference of that entry's terms. */
  lemma {:induction false} TotalUpdate(list: seq<Loot>, i: nat, x: Loot, f: Loot -> int)
    requires i < |list|
    ensures Total(list[i := x], f) == Total(list, f) - f(list[i]) + f(x)
  {
    var n := |list| - 1;
    if i == n {
      assert list[i := x][..n] == list[..n];
    } else {
      assert list[i := x][..n] == list[..n][i := x];
      TotalUpdate(list[..n], i, x, f);
    }
  }

  /**
   * Merging keeps every count meaningful and adds exactly the incoming
   * `quantity ‖ 1` to the items total: the folded count `(old ‖ 1) + (new
   * ‖ 1)` is at least 2, so the later `‖ 1` leaves it alone. The value total
   * grows by the incoming count priced at the value of the entry that
   * absorbed it (the incoming value when it was appended).
   */
  lemma MergeCounts(list: seq<Loot>, r: Loot)
    requires AllCounted(list) && Counted(r)
    ensures AllCounted(Merged(list, Some(r)))
    ensures Total(Merged(list, Some(r)), Items) == Total(list, Items) + Items(r)
    ensures var i := MatchIndex(list, r);
      Total(Merged(list, Some(r)), Worth) == Total(list, Worth)
        + (if i < |list| then OrZero(list[i].value) else OrZero(r.value)) * Items(r)
  {
    var i := MatchIndex(list, r);
    if i == |list| {
      TotalAppend(list, Fresh(r), Items);
      TotalAppend(list, Fresh(r), Worth);
    } else {
      var e := Folded(list[i], r);
      FoldedTerms(list[i], r);
      TotalUpdate(list, i, e, Items);
      TotalUpdate(list, i, e, Worth);
    }
  }

  /** The folded entry's terms: its items are the two counts added, its worth grows by the incoming count. */
  lemma FoldedTerms(entry: Loot, r: Loot)
    requires Counted(entry) && Counted(r)
    ensures Counted(Folded(entry, r))
    ensures Items(Folded(entry, r)) == Items(entry) + Items(r)
    ensures Worth(Folded(entry, r)) == Worth(entry) + OrZero(entry.value) * Items(r)
  {
    var a, b, v := Items(entry), Items(r), OrZero(entry.value);
    assert a >= 1 && b >= 1;
    assert Folded(entry, r).quantity == Some(a + b);
    assert Worth(Folded(entry, r)) == v * (a + b);
    assert v * (a + b) == v * a + v * b;
  }

  /** Merging a batch of resources one after another, as exploring does. */
  function MergedAll(list: seq<Loot>, rs: seq<Loot>): seq<Loot> {
    if rs == [] then list else Merged(MergedAll(list, rs[..|rs| - 1]), Some(rs[|rs| - 1]))
  }

  /** A batch adds the sum of its counts to the items total. */
  lemma {:induction false} MergedAllCounts(list: seq<Loot>, rs: seq<Loot>)
    requires AllCounted(list) && forall k :: 0 <= k < |rs| ==> Counted(rs[k])
    ensures AllCounted(MergedAll(list, rs))
    ensures Total(MergedAll(list, rs), Items) == Total(list, Items) + Total(rs, Items)
  {
    if rs != [] {
      var n := |rs| - 1;
      MergedAllCounts(list, rs[..n]);
      MergeCounts(MergedAll(list, rs[..n]), rs[n]);
    }
  }

  /**
   * Whether `showResourceFoundModal(r)` gets as far as its own
   * `addCollectedResource(r)`. On the way it writes the rarity badge with
   * `r.rarity.charAt(0)` whenever the `#found-resource-rarity` element is on
   * the page and the rarity is truthy; the server sends the rarity as a
   * number, which has no `charAt`, so the call throws there and the caller
   * lands in its `catch`. Only an absent or zero rarity, or a page without
   * the badge, reaches the second merge.
   */
  predicate ModalReachesMerge(r: Loot, badgeShown: bool) {
    !badgeShown || r.rarity.None? || r.rarity == Some(0)
  }

  /**
   * The collected list after `mineResources` (or `exploreArea` for its
   * first find) merges `r` and then shows it in the found-resource modal.
   */
  function ShownInModal(list: seq<Loot>, r: Loot, badgeShown: bool): seq<Loot> {
    var once := Merged(list, Some(r));
    if ModalReachesMerge(r, badgeShown) then Merged(once, Some(r)) else once
  }

  /**
   * When the modal reaches its merge the shown resource is counted twice in
   * the items total; when it throws first, once.
   */
  lemma ModalCountsTwice(list: seq<Loot>, r: Loot, badgeShown: bool)
    requires AllCounted(list) && Counted(r)
    ensures Total(ShownInModal(list, r, badgeShown), Items)
         == Total(list, Items) + (if ModalReachesMerge(r, badgeShown) then 2 else 1) * Items(r)
  {
    MergeCounts(list, r);
    MergeCounts(Merged(list, Some(r)), r);
  }

  /**
   * Mining 3 ore without a rarity into an empty list records 6 items; the
   * same ore with the server's numeric rarity 1 records 3, the modal
   * throwing before its merge.
   */
  lemma ModalDoubleCountExample()
    ensures var ore := Loot(Some(1), Some("Iron"), None, Some(3), Some(10), None);
      ShownInModal([], ore, true)[0].quantity == Some(6) && |ShownInModal([], ore, true)| == 1
    ensures var ore := Loot(Some(1), Some("Iron"), Some(1), Some(3), Some(10), None);
      ShownInModal([], ore, true)[0].quantity == Some(3) && |ShownInModal([], ore, true)| == 1
  {
    var ore := Loot(Some(1), Some("Iron"), None, Some(3), Some(10), None);
    assert Merged([], Some(ore)) == [Fresh(ore)];
    assert MatchIndex([Fresh(ore)], ore) == 0;
    var ranked := Loot(Some(1), Some("Iron"), Some(1), Some(3), Some(10), None);
    assert Merged([], Some(ranked)) == [Fresh(ranked)];
  }

  /** `Math.max(0, end_time − now)`. */
  function Remaining(a: Active, now: int): (ms: int)
    ensures ms >= 0
    ensures ms == 0 <==> a.endTime <= now
  {
    Max(0, a.endTime - now)
  }

  /** `MIN_COUNTDOWN_WARNING` seconds, in milliseconds. */
  const WarningMs := 30 * 1000
  const BlinkMs := 15000
  /** Auto-collection is skipped below this many milliseconds. */
  const CollectMarginMs := 5000
  /** Exploring is refused below this many milliseconds. */
  const ExploreMarginMs := 10000

  /** One countdown tick: time is up, or the display with its warning states. */
  datatype Tick = TimeUp | Showing(minutes: string, seconds: string, warning: bool, blinking: bool)

  /** `updateCountdown`. */
  function Countdown(a: Active, now: int): Tick {
    var ms := Remaining(a, now);
    if ms <= 0 then TimeUp
    else
      var m := ms / 60000;
      var s := (ms % 60000) / 1000;
      Showing(PadStart2(NatToString(m)), PadStart2(NatToString(s)),
              ms <= WarningMs, ms <= WarningMs && ms <= BlinkMs)
  }

  /**
   * The countdown reports time up exactly when the end time has been
   * reached. Otherwise it shows whole minutes and whole seconds with
   * `60000·m + 1000·s ≤ remaining < 60000·m + 1000·(s + 1)`, the seconds as
   * two digits below 60; the warning shows from 30 seconds left, blinking
   * from 15 seconds, and blinking never without the warning.
   */
  lemma CountdownDisplay(a: Active, now: int)
    ensures Countdown(a, now).TimeUp? <==> a.endTime <= now
    ensures Countdown(a, now).Showing? ==>
      var t := Countdown(a, now);
      && (forall i :: 0 <= i < |t.minutes| ==> IsDigit(t.minutes[i]))
      && |t.seconds| == 2 && IsDigit(t.seconds[0]) && IsDigit(t.seconds[1])
      && var m, s := ParseDecimal(t.minutes), ParseDecimal(t.seconds);
      && s < 60
      && 60000 * m + 1000 * s <= a.endTime - now < 60000 * m + 1000 * (s + 1)
      && (t.warning <==> a.endTime - now <= 30000)
      && (t.blinking <==> a.endTime - now <= 15000)
  {
    if a.endTime > now {
      var ms: nat := a.endTime - now;
      var m, s := ms / 60000, (ms % 60000) / 1000;
      assert Remaining(a, now) == ms;
      assert Countdown(a, now) == Showing(PadStart2(NatToString(m)), PadStart2(NatToString(s)),
                                         ms <= WarningMs, ms <= WarningMs && ms <= BlinkMs);
      ClockSplit(ms);
      PaddedTwoDigits(m);
      PaddedTwoDigits(s);
    }
  }

  /** Whole minutes and the whole seconds left over bracket a positive millisecond count. */
  lemma ClockSplit(ms: nat)
    ensures (ms % 60000) / 1000 < 60
    ensures 60000 * (ms / 60000) + 1000 * ((ms % 60000) / 1000) <= ms
    ensures ms < 60000 * (ms / 60000) + 1000 * ((ms % 60000) / 1000 + 1)
  {
    var m, r := ms / 60000, ms % 60000;
    DivMod(ms, 60000);
    var s, f := r / 1000, r % 1000;
    DivMod(r, 1000);
    assert s < 60;
  }

  lemma DivMod(a: nat, d: nat)
    requires d > 0
    ensures a == d * (a / d) + a % d && 0 <= a % d < d
  {
  }

  /** The auto-collection tick only asks the server when at least 5 seconds are left. */
  predicate CollectsAt(a: Active, now: int) {
    Remaining(a, now) >= CollectMarginMs
  }

  /** `exploreArea` only goes ahead when at least 10 seconds are left. */
  predicate ExploresAt(a: Active, now: int) {
    Remaining(a, now) >= ExploreMarginMs
  }

  /**
   * Any moment at which exploring is allowed also allows auto-collection,
   * and neither is allowed once the countdown has reached time up or within
   * the last 5 seconds.
   */
  lemma MarginsNest(a: Active, now: int)
    ensures ExploresAt(a, now) ==> CollectsAt(a, now)
    ensures a.endTime - now < CollectMarginMs ==> !CollectsAt(a, now) && !ExploresAt(a, now)
    ensures Countdown(a, now).TimeUp? ==> !CollectsAt(a, now)
    ensures CollectsAt(a, now) ==> Countdown(a, now).Showing?
  {
  }

  /** How a guarded action ended. */
  datatype Status = InvalidPlanet | AlreadyActive | NoActive | TooLate | Offline | Failed | Skipped | Done

  /** The client's expedition state. */
  class ExpeditionView {
    var activeExpedition: Option<Active>
    var collectedResources: seq<Loot>
    /** Whether `countdownInterval`, `dangerCheckInterval`, `resourceCollectionInterval` are set. */
    var countdownSet: bool
    var dangerCheckSet: bool
    var collectionSet: bool

    constructor ()
      ensures activeExpedition.None? && collectedResources == []
      ensures !countdownSet && !dangerCheckSet && !collectionSet
    {
      activeExpedition := None;
      collectedResources := [];
      countdownSet, dangerCheckSet, collectionSet := false, false, false;
    }

    /** `addCollectedResource`: the list becomes `Merged(old list, r)` and nothing else changes. */
    method AddCollectedResource(r: Option<Loot>)
      modifies this
      ensures collectedResources == Merged(old(collectedResources), r)
      ensures activeExpedition == old(activeExpedition)
      ensures countdownSet == old(countdownSet) && dangerCheckSet == old(dangerCheckSet)
      ensures collectionSet == old(collectionSet)
    {
      if r.None? {
        return;
      }
      var x := r.value;
      var i := MatchIndex(collectedResources, x);
      if i < |collectedResources| {
        var entry := collectedResources[i];
        var q := OrOne(entry.quantity) + OrOne(x.quantity);
        collectedResources := collectedResources[i := entry.(quantity := Some(q), totalValue := Some(q * OrZero(x.value)))];
      } else {
        collectedResources := collectedResources + [Fresh(x)];
      }
    }

    /**
     * `startExpedition`: without a planet id, or while an expedition is
     * active, nothing changes and no request is made; offline or on a
     * failed request nothing changes either. On success the returned
     * expedition becomes active, the collected list is emptied and the
     * three timers are set.
     */
    method StartExpedition(planetId: Option<string>, connected: bool, response: Option<Active>)
      returns (s: Status)
      modifies this
      ensures (planetId.None? || planetId == Some("")) ==> s == InvalidPlanet
      ensures planetId.Some? && planetId != Some("") && old(activeExpedition).Some? ==> s == AlreadyActive
      ensures s == Done <==>
        planetId.Some? && planetId != Some("") && old(activeExpedition).None? && connected && response.Some?
      ensures s == Done ==>
        && activeExpedition == response && collectedResources == []
        && countdownSet && dangerCheckSet && collectionSet
      ensures s != Done ==>
        && activeExpedition == old(activeExpedition) && collectedResources == old(collectedResources)
        && countdownSet == old(countdownSet) && dangerCheckSet == old(dangerCheckSet)
        && collectionSet == old(collectionSet)
    {
      if planetId.None? || planetId == Some("") {
        return InvalidPlanet;
      }
      if activeExpedition.Some? {
        return AlreadyActive;
      }
      if !connected {
        return Offline;
      }
      if response.None? {
        return Failed;
      }
      activeExpedition := response;
      collectedResources := [];
      countdownSet, dangerCheckSet, collectionSet := true, true, true;
      return Done;
    }

    /**
     * One auto-collection tick: with no active expedition the timer is
     * cleared; with under 5 seconds left nothing happens; otherwise a found
     * resource is merged once.
     */
    method AutoCollect(now: int, found: Option<Loot>) returns (s: Status)
      modifies this
      ensures old(activeExpedition).None? ==> s == NoActive && !collectionSet
      ensures s == Done <==> old(activeExpedition).Some? && CollectsAt(old(activeExpedition).value, now)
      ensures s == Done ==> collectedResources == Merged(old(collectedResources), found)
      ensures s != Done ==> collectedResources == old(collectedResources)
      ensures activeExpedition == old(activeExpedition)
      ensures countdownSet == old(countdownSet) && dangerCheckSet == old(dangerCheckSet)
      ensures old(activeExpedition).Some? ==> collectionSet == old(collectionSet)
    {
      if activeExpedition.None? {
        collectionSet := false;
        return NoActive;
      }
      if Remaining(activeExpedition.value, now) < CollectMarginMs {
        return Skipped;
      }
      AddCollectedResource(found);
      return Done;
    }

    /**
     * `mineResources` with the found resource counted once: with no active
     * expedition or offline nothing changes; otherwise the resource the
     * server found is merged a single time, so the items total grows by its
     * count exactly.
     */
    method MineResources(connected: bool, found: Option<Loot>) returns (s: Status)
      modifies this
      requires AllCounted(collectedResources) && (found.Some? ==> Counted(found.value))
      ensures s == Done <==> old(activeExpedition).Some? && connected
      ensures s == Done ==> collectedResources == Merged(old(collectedResources), found)
      ensures s != Done ==> collectedResources == old(collectedResources)
      ensures AllCounted(collectedResources)
      ensures Total(collectedResources, Items)
        == Total(old(collectedResources), Items) + (if s == Done && found.Some? then Items(found.value) else 0)
      ensures activeExpedition == old(activeExpedition)
      ensures countdownSet == old(countdownSet) && dangerCheckSet == old(dangerCheckSet)
      ensures collectionSet == old(collectionSet)
    {
      if activeExpedition.None? {
        return NoActive;
      }
      if !connected {
        return Offline;
      }
      if found.Some? {
        MergeCounts(collectedResources, found.value);
      }
      AddCollectedResource(found);
      return Done;
    }

    /**
     * `exploreArea` with no extra merge for the modal: refused without an
     * active expedition or with under 10 seconds left; otherwise every
     * found resource is merged in order and the reported item count is the
     * sum of their counts, which is also what the items total grows by.
     */
    method ExploreArea(now: int, connected: bool, found: seq<Loot>) returns (s: Status, totalQuantity: int)
      modifies this
      requires AllCounted(collectedResources) && forall k :: 0 <= k < |found| ==> Counted(found[k])
      ensures old(activeExpedition).Some? && !ExploresAt(old(activeExpedition).value, now) ==> s == TooLate
      ensures s == Done <==> old(activeExpedition).Some? && ExploresAt(old(activeExpedition).value, now) && connected
      ensures s == Done ==> collectedResources == MergedAll(old(collectedResources), found)
      ensures s == Done ==> totalQuantity == Total(found, Items)
      ensures s != Done ==> collectedResources == old(collectedResources) && totalQuantity == 0
      ensures AllCounted(collectedResources)
      ensures Total(collectedResources, Items) == Total(old(collectedResources), Items) + totalQuantity
      ensures activeExpedition == old(activeExpedition)
      ensures countdownSet == old(countdownSet) && dangerCheckSet == old(dangerCheckSet)
      ensures collectionSet == old(collectionSet)
    {
      totalQuantity := 0;
      if activeExpedition.None? {
        return NoActive, 0;
      }
      if Remaining(activeExpedition.value, now) < ExploreMarginMs {
        return TooLate, 0;
      }
      if !connected {
        return Offline, 0;
      }
      var i := 0;
      while i < |found|
        invariant 0 <= i <= |found|
        invariant collectedResources == MergedAll(old(collectedResources), found[..i])
        invariant totalQuantity == Total(found[..i], Items)
        invariant activeExpedition == old(activeExpedition)
        invariant countdownSet == old(countdownSet) && dangerCheckSet == old(dangerCheckSet)
        invariant collectionSet == old(collectionSet)
      {
        assert found[..i + 1][..i] == found[..i];
        AddCollectedResource(Some(found[i]));
        totalQuantity := totalQuantity + OrOne(found[i].quantity);
        i := i + 1;
      }
      assert found[..|found|] == found;
      MergedAllCounts(old(collectedResources), found);
      return Done, totalQuantity;
    }

    /** The totals in `returnToShip`'s confirmation: items and credits over the collected list. */
    method ConfirmationTotals() returns (totalItems: int, totalValue: int)
      ensures totalItems == Total(collectedResources, Items)
      ensures totalValue == Total(collectedResources, Worth)
      ensures AllCounted(collectedResources) ==> totalItems >= |collectedResources|
    {
      totalItems, totalValue := 0, 0;
      var i := 0;
      while i < |collectedResources|
        invariant 0 <= i <= |collectedResources|
        invariant totalItems == Total(collectedResources[..i], Items)
        invariant totalValue == Total(collectedResources[..i], Worth)
      {
        assert collectedResources[..i + 1][..i] == collectedResources[..i];
        totalItems := totalItems + OrOne(collectedResources[i].quantity);
        totalValue := totalValue + OrZero(collectedResources[i].value) * OrOne(collectedResources[i].quantity);
        i := i + 1;
      }
      assert collectedResources[..i] == collectedResources;
      if AllCounted(collectedResources) {
        ItemsAtLeastLength(collectedResources);
      }
    }

    /** `clearExpedition`: every timer cleared, no active expedition, nothing collected. */
    method ClearExpedition()
      modifies this
      ensures activeExpedition.None? && collectedResources == []
      ensures !countdownSet && !dangerCheckSet && !collectionSet
    {
      countdownSet, dangerCheckSet, collectionSet := false, false, false;
      activeExpedition := None;
      collectedResources := [];
    }
  }

  /** Each counted entry stands for at least one item. */
  lemma {:induction false} ItemsAtLeastLength(list: seq<Loot>)
    requires AllCounted(list)
    ensures Total(list, Items) >= |list|
  {
    if list != [] {
      ItemsAtLeastLength(list[..|list| - 1]);
    }
  }
}
