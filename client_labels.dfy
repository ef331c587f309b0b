/**
 * Display helpers that several browser modules share: the name of a
 * rarity code (`getRarityText` in the UI module, `getRarityLabel` in the
 * inventory and planets modules, which map the same five codes) and the
 * row of five level icons drawn for difficulty and danger.
 */
module ClientLabels {
  import opened Collections

  /** `CONFIG.GAME.RARITY`: common 1 up to legendary 5. */
  const Common := 1
  const Legendary := 5

  /** The name of a rarity code; anything other than the five codes is `Unknown`. */
  function RarityName(r: int): (name: string)
    ensures name == "Unknown" <==> !(Common <= r <= Legendary)
  {
    if r == 1 then "Common"
    else if r == 2 then "Uncommon"
    else if r == 3 then "Rare"
    else if r == 4 then "Epic"
    else if r == 5 then "Legendary"
    else "Unknown"
  }

  /** Different rarity codes get different names, so the name identifies the code. */
  lemma RarityNameIdentifies(a: int, b: int)
    requires Common <= a <= Legendary && Common <= b <= Legendary
    requires RarityName(a) == RarityName(b)
    ensures a == b
  {
  }

  /** Strings joined end to end, as `+=` in a loop builds them. */
  function Concat(parts: seq<string>): string {
    if parts == [] then "" else Concat(parts[..|parts| - 1]) + parts[|parts| - 1]
  }

  /** How many of the parts are `x`. */
  function CountOf(parts: seq<string>, x: string): nat {
    if parts == [] then 0 else CountOf(parts[..|parts| - 1], x) + (if parts[|parts| - 1] == x then 1 else 0)
  }

  /** The filled and the empty star of a difficulty row. */
  const StarFull := "<i class=\"fas fa-star\"></i>"
  const StarEmpty := "<i class=\"far fa-star\"></i>"

  /** The five icons of a level row, left to right. */
  function IconList(level: int, full: string, empty: string): seq<string> {
    seq(5, i => if i < level then full else empty)
  }

  /**
   * A level row always has five icons; the filled ones come first, icon `i`
   * (from 0) is filled exactly when `i` is below the level, so the number of
   * filled icons is the level clamped into 0..5.
   */
  lemma FilledIcons(level: int, full: string, empty: string)
    requires full != empty
    ensures |IconList(level, full, empty)| == 5
    ensures forall i :: 0 <= i < 5 ==> (IconList(level, full, empty)[i] == full <==> i < level)
    ensures CountOf(IconList(level, full, empty), full) == Max(0, Min(5, level))
  {
    FilledPrefix(level, full, empty, 5);
    assert IconList(level, full, empty)[..5] == IconList(level, full, empty);
  }

  lemma {:induction false} FilledPrefix(level: int, full: string, empty: string, n: nat)
    requires full != empty && n <= 5
    ensures CountOf(IconList(level, full, empty)[..n], full) == Max(0, Min(n, level))
  {
    if n > 0 {
      var icons := IconList(level, full, empty);
      FilledPrefix(level, full, empty, n - 1);
      assert icons[..n][..n - 1] == icons[..n - 1];
    }
  }
}
