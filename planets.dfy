/**
 * The planets router: a planet with the resources it spawns, rarest first,
 * and a planet's table of danger events. Both handlers only read.
 */
module Planets {
  import opened Wrappers
  import opened Schema
  import opened Sampler
  import opened Ordering
  import opened ExpeditionRoutes

  const PlanetNotFound := HttpError(404, "Planet not found")

  function Rarity(s: Stock): int {
    s.resource.rarity
  }

  /** GET `/:id`: the planet and its spawned resources ordered by rarity, highest first. */
  function PlanetDetail(t: Tables, id: int): (r: Result<(Planet, seq<Stock>), HttpError>)
    ensures r.Err? <==> FindPlanet(t.planets, id).None?
    ensures r.Err? ==> r.error == PlanetNotFound
    ensures r.Ok? ==> r.value.0 in t.planets && r.value.0.id == id
    ensures r.Ok? ==> multiset(r.value.1) == multiset(PlanetStock(t.spawns, t.resources, id))
    ensures r.Ok? ==> SortedDesc(r.value.1, Rarity)
  {
    match FindPlanet(t.planets, id)
    case None => Err(PlanetNotFound)
    case Some(p) => Ok((p, SortDesc(PlanetStock(t.spawns, t.resources, id), Rarity)))
  }

  /** An entry of the danger table. */
  datatype DangerChance = DangerChance(kind: DangerKind, probability: real)

  /** The five danger events with their probabilities, `danger_level` times 0.05 down to 0.01. */
  function DangerTable(level: int): seq<DangerChance> {
    var l := level as real;
    [DangerChance(Temperature, l * 0.05), DangerChance(Radiation, l * 0.04),
     DangerChance(MagneticStorm, l * 0.03), DangerChance(Landslide, l * 0.02),
     DangerChance(HostileCreature, l * 0.01)]
  }

  /** GET `/:id/dangers`: 404 for an unknown planet, else the planet's danger table. */
  function DangersOutcome(t: Tables, id: int): (r: Result<seq<DangerChance>, HttpError>)
    ensures r.Err? <==> FindPlanet(t.planets, id).None?
    ensures r.Err? ==> r.error == PlanetNotFound
    ensures r.Ok? ==> r.value == DangerTable(FindPlanet(t.planets, id).value.dangerLevel)
  {
    match FindPlanet(t.planets, id)
    case None => Err(PlanetNotFound)
    case Some(p) => Ok(DangerTable(p.dangerLevel))
  }

  /**
   * The danger table lists each danger kind once, in the order `/check-danger`
   * indexes them; entry `i` has probability `level × (5 − i) / 100`, so for
   * a non-negative level the probabilities are non-negative and do not
   * increase along the list, for a level of at most 5 none exceeds 0.25,
   * and the first entry is exactly the chance that `/check-danger` reports
   * a danger at all.
   */
  lemma DangerTableShape(level: int, roll: Unit)
    ensures |DangerTable(level)| == 5
    ensures forall i :: 0 <= i < 5 ==>
      DangerTable(level)[i].kind == DangerAt(i)
      && DangerTable(level)[i].probability == level as real * (5 - i) as real / 100.0
    ensures level >= 0 ==> forall i, j :: 0 <= i <= j < 5 ==>
      0.0 <= DangerTable(level)[j].probability <= DangerTable(level)[i].probability
    ensures level <= 5 ==> forall i :: 0 <= i < 5 ==> DangerTable(level)[i].probability <= 0.25
    ensures DangerOccurs(level, roll) <==> roll < DangerTable(level)[0].probability
  {
    var ds := DangerTable(level);
    forall i | 0 <= i < 5
      ensures ds[i].kind == DangerAt(i) && ds[i].probability == level as real * (5 - i) as real / 100.0
    {
      assert i == 0 || i == 1 || i == 2 || i == 3 || i == 4;
    }
  }

  /** With an unknown id both planet routes answer 404, and with a known one neither does. */
  lemma UnknownPlanetBothNotFound(t: Tables, id: int)
    ensures PlanetDetail(t, id).Err? <==> DangersOutcome(t, id).Err?
  {
  }
}
