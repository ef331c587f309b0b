/**
 * The fortune-wheel screen: segment captions and colours, the prize list
 * grouped by rarity, and the spin button's state (whether a spin is under
 * way and how many spins are left) with the angle the wheel turns to. The
 * canvas drawing and the animation's timing are outside the model; the
 * animation's completion callback runs as part of the spin.
 */
module ClientWheel {
  import opened Wrappers
  import opened Collections
  import Sampler
  import opened ClientLabels

  /**
   * The caption drawn on a segment, `name || 'Prize'` cut when longer than
   * 10 characters: at most 13 characters; a missing or empty name reads
   * `Prize`, a name of up to 10 characters is shown whole and a longer one
   * keeps its first 10 characters followed by `...`.
   */
  function SegmentText(name: Option<string>): (t: string)
    ensures |t| <= 13
    ensures name.None? || name == Some("") ==> t == "Prize"
    ensures name.Some? && 0 < |name.value| <= 10 ==> t == name.value
    ensures name.Some? && |name.value| > 10 ==> |t| == 13 && t[..10] == name.value[..10] && t[10..] == "..."
  {
    var n := if name.None? || name.value == "" then "Prize" else name.value;
    if |n| > 10 then n[..10] + "..." else n
  }

  const CommonColor := "#6c757d"

  /** `getSegmentColor`: the colour of a rarity key, the common colour for any other key. */
  function SegmentColor(rarity: string): string {
    if rarity == "uncommon" then "#28a745"
    else if rarity == "rare" then "#007bff"
    else if rarity == "epic" then "#6f42c1"
    else if rarity == "legendary" then "#ffc107"
    else if rarity == "mythic" then "#dc3545"
    else CommonColor
  }

  /** Each of the six keys has a colour of its own; every other key falls back to the common colour. */
  lemma SegmentColorCases(a: string, b: string)
    ensures SegmentColor(a) == CommonColor <==>
      a != "uncommon" && a != "rare" && a != "epic" && a != "legendary" && a != "mythic"
    ensures SegmentColor(a) == SegmentColor(b) && SegmentColor(a) != CommonColor ==> a == b
  {
  }

  /** A prize as the screen reads it. */
  datatype WheelReward = WheelReward(name: Option<string>, rarity: Option<int>, probability: real)

  /** `rarityMap[reward.rarity] || 'Common'`. */
  function RarityGroup(reward: WheelReward): string {
    if reward.rarity.Some? && Common <= reward.rarity.value <= Legendary then RarityName(reward.rarity.value)
    else "Common"
  }

  /** `groupRewardsByRarity`. */
  function GroupRewardsByRarity(rewards: seq<WheelReward>): map<string, seq<WheelReward>> {
    GroupBy(rewards, RarityGroup)
  }

  /** One of the five names `rarityMap` gives. */
  predicate IsRarityName(k: string) {
    k == "Common" || k == "Uncommon" || k == "Rare" || k == "Epic" || k == "Legendary"
  }

  /** A prize's group is always one of the five rarity names, `Common` for an unmapped or missing rarity. */
  lemma RarityGroupNames(x: WheelReward)
    ensures IsRarityName(RarityGroup(x))
    ensures x.rarity.None? || !(Common <= x.rarity.value <= Legendary) ==> RarityGroup(x) == "Common"
  {
  }

  /**
   * The groups partition the prizes: the group under a name is exactly the
   * prizes of that group, in list order, so every prize lands in the group
   * of its rarity and in no other.
   */
  lemma GroupRewardsSpec(rewards: seq<WheelReward>)
    ensures forall k :: k in GroupRewardsByRarity(rewards) ==>
      GroupRewardsByRarity(rewards)[k] == WithKey(rewards, RarityGroup, k)
    ensures forall x :: x in rewards ==>
      RarityGroup(x) in GroupRewardsByRarity(rewards) && x in GroupRewardsByRarity(rewards)[RarityGroup(x)]
  {
    GroupByPartitions(rewards, RarityGroup);
  }

  /** `this.rewards.length || 8`. */
  function SegmentCount(rewards: nat): (n: nat)
    ensures n > 0
  {
    if rewards == 0 then 8 else rewards
  }

  /** The target rotation `1440 + segmentIndex × (360 / segmentCount)`. */
  function SpinAngle(segmentIndex: int, rewards: nat): real {
    1440.0 + segmentIndex as real * (360.0 / SegmentCount(rewards) as real)
  }

  /**
   * For a segment on the wheel the target lies in four full turns plus less
   * than one more, and different segments get different targets.
   */
  lemma SpinAngleRange(i: int, j: int, rewards: nat)
    requires 0 <= i < SegmentCount(rewards) && 0 <= j < SegmentCount(rewards)
    ensures 1440.0 <= SpinAngle(i, rewards) < 1800.0
    ensures SpinAngle(i, rewards) == SpinAngle(j, rewards) ==> i == j
  {
    var n := SegmentCount(rewards) as real;
    var w := 360.0 / n;
    assert w * n == 360.0;
    assert i as real <= n - 1.0;
    assert i as real * w <= (n - 1.0) * w == 360.0 - w;
  }

  /** `Math.floor(Math.random() * (this.rewards.length || 8))`, used when the reply has no segment index. */
  function FallbackIndex(roll: Sampler.Unit, rewards: nat): (i: int)
    ensures 0 <= i < SegmentCount(rewards)
  {
    var n := SegmentCount(rewards);
    Sampler.ScaleBelow(roll, n as real);
    (roll * n as real).Floor
  }

  /** The part of the spin reply the screen uses. */
  datatype SpinResult = SpinResult(reward: string, segmentIndex: Option<int>)

  datatype SpinStatus = Busy | NoSpins | Failed | Spun

  /** The wheel screen's state. */
  class WheelView {
    var isSpinning: bool
    var spins: int
    var rewards: seq<WheelReward>
    /** The rotation of the last spin. */
    var angle: real

    constructor ()
      ensures !isSpinning && spins == 0 && rewards == [] && angle == 0.0
    {
      isSpinning, spins, rewards, angle := false, 0, [], 0.0;
    }

    /**
     * `spinWheel`: while a spin is under way or with no spins left it only
     * refuses, changing nothing. Otherwise, when the reply carries no
     * reward the spin flag is cleared and the spins stay; with a reward the
     * wheel turns to its segment (the reply's index, or a random one), one
     * spin is used up and the flag is cleared.
     */
    method SpinWheel(response: Option<SpinResult>, roll: Sampler.Unit) returns (s: SpinStatus)
      modifies this
      ensures old(isSpinning) ==> s == Busy
      ensures !old(isSpinning) && old(spins) <= 0 ==> s == NoSpins
      ensures s == Busy || s == NoSpins ==>
        isSpinning == old(isSpinning) && spins == old(spins) && angle == old(angle)
      ensures s == Spun <==> !old(isSpinning) && old(spins) > 0 && response.Some? && response.value.reward != ""
      ensures s == Failed ==> !isSpinning && spins == old(spins) && angle == old(angle)
      ensures s == Spun ==> !isSpinning && spins == old(spins) - 1
      ensures s == Spun ==> angle == SpinAngle(
        if response.value.segmentIndex.Some? then response.value.segmentIndex.value
        else FallbackIndex(roll, |rewards|), |rewards|)
      ensures rewards == old(rewards)
    {
      if isSpinning {
        return Busy;
      }
      if spins <= 0 {
        return NoSpins;
      }
      isSpinning := true;
      if response.None? || response.value.reward == "" {
        isSpinning := false;
        return Failed;
      }
      var segmentIndex := if response.value.segmentIndex.Some? then response.value.segmentIndex.value
                          else FallbackIndex(roll, |rewards|);
      angle := SpinAngle(segmentIndex, |rewards|);
      spins := spins - 1;
      isSpinning := false;
      return Spun;
    }
  }
}
