/**
 * The planet list screen: the difficulty stars of each card, the danger
 * and rarity labels, and the two guards on drawing the list and opening a
 * planet's details. A card carries its planet id as the text of its
 * `data-planet-id` attribute, which is what the details view is later
 * called with, so the lookup compares a number with a string the way
 * JavaScript's `==` does.
 */
module ClientPlanets {
  import opened Wrappers
  import opened Text
  import opened ClientLabels

  /** `getDifficultyStars`: five stars, star `i` (from 1) filled while `i ≤ difficulty`. */
  method DifficultyStars(difficulty: int) returns (stars: string)
    ensures stars == Concat(IconList(difficulty, StarFull, StarEmpty))
  {
    stars := "";
    var i := 1;
    while i <= 5
      invariant 1 <= i <= 6
      invariant stars == Concat(IconList(difficulty, StarFull, StarEmpty)[..i - 1])
    {
      assert IconList(difficulty, StarFull, StarEmpty)[..i][..i - 1] == IconList(difficulty, StarFull, StarEmpty)[..i - 1];
      if i <= difficulty {
        stars := stars + StarFull;
      } else {
        stars := stars + StarEmpty;
      }
      i := i + 1;
    }
    assert IconList(difficulty, StarFull, StarEmpty)[..5] == IconList(difficulty, StarFull, StarEmpty);
  }

  /** `getDangerLevel`: the names of danger levels 1 to 5, `Unknown` for anything else. */
  function DangerLevelName(level: int): (name: string)
    ensures name == "Unknown" <==> !(1 <= level <= 5)
  {
    if level == 1 then "Very Low"
    else if level == 2 then "Low"
    else if level == 3 then "Medium"
    else if level == 4 then "High"
    else if level == 5 then "Extreme"
    else "Unknown"
  }

  /** Different danger levels get different names. */
  lemma DangerLevelNameIdentifies(a: int, b: int)
    requires 1 <= a <= 5 && 1 <= b <= 5
    requires DangerLevelName(a) == DangerLevelName(b)
    ensures a == b
  {
  }

  /** An argument of the details view: a number, or the text of an attribute. */
  datatype JsValue = Num(n: int) | Str(s: string)

  /**
   * `Number(s)` for the strings an id can take: the empty string is 0, an
   * optional sign followed only by decimal digits is that integer, and
   * every other string is read as NaN (None). Of the other strings
   * `Number` accepts, surrounding blanks, fractions, exponents, the `0x`,
   * `0b` and `0o` literals and `Infinity` are not modelled.
   */
  function NumberValue(s: string): Option<int> {
    if s == "" then Some(0)
    else
      var body := if s[0] == '-' || s[0] == '+' then s[1..] else s;
      if body != "" && DigitRun(body) == |body| then ParseInt(s) else None
  }

  /** The decimal text of an integer converts back to it. */
  lemma NumberValueOfNumeral(i: int)
    ensures NumberValue(IntToString(i)) == Some(i)
  {
    ParseIntToString(i);
    var n: nat := if i < 0 then -i else i;
    DigitRunAll(NatToString(n));
    if i < 0 {
      assert IntToString(i)[1..] == NatToString(n);
    }
  }

  /** `p.id == planetId`: number against number, or number against a string converted to a number. */
  predicate LooseEquals(id: int, arg: JsValue) {
    match arg
    case Num(n) => n == id
    case Str(s) => NumberValue(s) == Some(id)
  }

  /** A planet as the list holds it. */
  datatype PlanetCard = PlanetCard(id: int, name: string, difficulty: int)

  /** `planetsData.find(p => p.id == planetId)`. */
  function FindLoose(planets: seq<PlanetCard>, arg: JsValue): (r: Option<nat>)
    ensures r.Some? ==> r.value < |planets| && LooseEquals(planets[r.value].id, arg)
    ensures r.Some? ==> forall j :: 0 <= j < r.value ==> !LooseEquals(planets[j].id, arg)
    ensures r.None? ==> forall j :: 0 <= j < |planets| ==> !LooseEquals(planets[j].id, arg)
  {
    if planets == [] then None
    else if LooseEquals(planets[0].id, arg) then Some(0)
    else match FindLoose(planets[1..], arg)
      case None => None
      case Some(k) => Some(k + 1)
  }

  /**
   * Opening a card by the text of its attribute finds the first planet
   * with that id, the same one its number finds.
   */
  lemma CardAttributeFindsPlanet(planets: seq<PlanetCard>, id: int)
    ensures FindLoose(planets, Str(IntToString(id))) == FindLoose(planets, Num(id))
  {
    NumberValueOfNumeral(id);
    assert forall p: int :: LooseEquals(p, Str(IntToString(id))) <==> LooseEquals(p, Num(id));
    FindLooseSame(planets, Str(IntToString(id)), Num(id));
  }

  lemma {:induction false} FindLooseSame(planets: seq<PlanetCard>, a: JsValue, b: JsValue)
    requires forall p: int :: LooseEquals(p, a) <==> LooseEquals(p, b)
    ensures FindLoose(planets, a) == FindLoose(planets, b)
  {
    if planets != [] {
      FindLooseSame(planets[1..], a, b);
    }
  }

  /** What a drawn card shows: the planet's id, name and difficulty stars. */
  datatype Card = Card(attribute: string, name: string, stars: string)

  function CardOf(p: PlanetCard): Card {
    Card(IntToString(p.id), p.name, Concat(IconList(p.difficulty, StarFull, StarEmpty)))
  }

  /** The planet list screen's state. */
  class PlanetsView {
    var planetsData: seq<PlanetCard>
    var cards: seq<Card>
    /** The planet whose details are open. */
    var shown: Option<PlanetCard>

    constructor (planets: seq<PlanetCard>)
      ensures planetsData == planets && cards == [] && shown.None?
    {
      planetsData, cards, shown := planets, [], None;
    }

    /**
     * `renderPlanets`: with no planets nothing is redrawn; otherwise the
     * list is replaced by one card per planet, in order.
     */
    method RenderPlanets()
      modifies this
      ensures planetsData == old(planetsData) && shown == old(shown)
      ensures old(planetsData) == [] ==> cards == old(cards)
      ensures old(planetsData) != [] ==>
        |cards| == |planetsData| && forall i :: 0 <= i < |cards| ==> cards[i] == CardOf(planetsData[i])
    {
      if |planetsData| == 0 {
        return;
      }
      cards := [];
      var i := 0;
      while i < |planetsData|
        invariant 0 <= i <= |planetsData|
        invariant planetsData == old(planetsData) && shown == old(shown)
        invariant |cards| == i && forall j :: 0 <= j < i ==> cards[j] == CardOf(planetsData[j])
      {
        var p := planetsData[i];
        var stars := DifficultyStars(p.difficulty);
        cards := cards + [Card(IntToString(p.id), p.name, stars)];
        i := i + 1;
      }
    }

    /**
     * `showPlanetDetails`: when no planet's id loosely equals the argument
     * nothing changes; otherwise the first such planet is shown.
     */
    method ShowPlanetDetails(planetId: JsValue)
      modifies this
      ensures planetsData == old(planetsData) && cards == old(cards)
      ensures FindLoose(planetsData, planetId).None? ==> shown == old(shown)
      ensures FindLoose(planetsData, planetId).Some? ==> shown == Some(planetsData[FindLoose(planetsData, planetId).value])
    {
      var k := FindLoose(planetsData, planetId);
      if k.None? {
        return;
      }
      shown := Some(planetsData[k.value]);
    }
  }
}
