/**
 * The parts of the browser UI module that compute: the expedition tab's
 * countdown (remaining time, progress bar, the completion notice shown
 * once per expedition), the planet-details rows of difficulty and danger
 * icons with the expedition time, and the truncated names on the wheel.
 * Times are in whole seconds; `now` is `Math.floor(Date.now() / 1000)`.
 */
module ClientUi {
  import opened Wrappers
  import opened Text
  import opened Collections
  import opened ClientLabels

  /** `currentExpedition` as the countdown reads it. */
  datatype Tracked = Tracked(startTime: int, totalTime: int)

  /** `Math.max(0, start_time + total_time − now)`. */
  function Remaining(e: Tracked, now: int): (r: int)
    ensures r >= 0
    ensures r == 0 <==> e.startTime + e.totalTime <= now
  {
    Max(0, e.startTime + e.totalTime - now)
  }

  /**
   * The progress bar width in percent: elapsed time clamped into
   * `[0, total_time]` over `total_time`; `None` stands for the NaN that a
   * zero total gives.
   */
  function Progress(e: Tracked, now: int): (p: Option<real>)
    ensures p.None? <==> e.totalTime == 0
  {
    if e.totalTime == 0 then None
    else
      var elapsed := Max(0, Min(e.totalTime, now - e.startTime));
      Some(elapsed as real / e.totalTime as real * 100.0)
  }

  /**
   * For a positive total the bar stays within 0..100 percent: empty until
   * the start, full from the end on, and never moving backwards as time
   * passes.
   */
  lemma ProgressBounds(e: Tracked, now: int, later: int)
    requires e.totalTime > 0 && now <= later
    ensures 0.0 <= Progress(e, now).value <= 100.0
    ensures now <= e.startTime ==> Progress(e, now).value == 0.0
    ensures now >= e.startTime + e.totalTime ==> Progress(e, now).value == 100.0
    ensures Progress(e, now).value <= Progress(e, later).value
  {
    var t := e.totalTime as real;
    var a := Max(0, Min(e.totalTime, now - e.startTime)) as real;
    var b := Max(0, Min(e.totalTime, later - e.startTime)) as real;
    assert 0.0 <= a <= b <= t;
    assert a / t <= b / t;
    assert a / t <= 1.0;
  }

  /** Hours, minutes and seconds of a remaining time. */
  datatype Hms = Hms(hours: nat, minutes: nat, seconds: nat)

  function Clock(r: nat): Hms {
    Hms(r / 3600, (r % 3600) / 60, r % 60)
  }

  /** The split loses nothing: `3600·h + 60·m + s` is the remaining time, with minutes and seconds below 60. */
  lemma ClockParts(r: nat)
    ensures Clock(r).minutes < 60 && Clock(r).seconds < 60
    ensures 3600 * Clock(r).hours + 60 * Clock(r).minutes + Clock(r).seconds == r
  {
    var h, q := r / 3600, r % 3600;
    var m, s := q / 60, q % 60;
    assert r == 3600 * h + q && q < 3600;
    assert q == 60 * m + s && s < 60;
    assert r == 60 * (60 * h + m) + s;
    ModSixty(60 * h + m, s);
  }

  lemma ModSixty(k: nat, s: nat)
    requires s < 60
    ensures (60 * k + s) % 60 == s
  {
  }

  /** `"<h>h <m>m <s>s"`, without the hours when there are none. */
  function RemainingText(r: nat): string {
    var c := Clock(r);
    var ms := NatToString(c.minutes) + "m " + NatToString(c.seconds) + "s";
    if c.hours > 0 then NatToString(c.hours) + "h " + ms else ms
  }

  /** The expedition tab's countdown state. */
  class CountdownView {
    var currentExpedition: Option<Tracked>
    /** Whether `countdownInterval` is set. */
    var intervalSet: bool
    /** `expeditionCompleteNotified`. */
    var notified: bool
    /** The text of the time-remaining element. */
    var display: string
    /** The width of the progress bar, once drawn. */
    var progress: Option<real>
    /** How many completion notices have been shown, and how many rewards claimed. */
    var notices: nat
    var claims: nat

    /** At most one completion notice per expedition: one more than the claims only while the flag is up. */
    predicate Valid()
      reads this
    {
      notices <= claims + (if notified then 1 else 0)
    }

    constructor ()
      ensures Valid()
      ensures currentExpedition.None? && !intervalSet && !notified && notices == 0 && claims == 0
    {
      currentExpedition := None;
      intervalSet, notified := false, false;
      display, progress := "", None;
      notices, claims := 0, 0;
    }

    /**
     * `updateCountdown`: without an expedition nothing changes. Otherwise
     * the progress bar is redrawn; once no time remains the interval is
     * cleared, `Complete!` shown and the completion notice shown only if
     * the flag was down, raising it; before that the remaining time is
     * shown as hours, minutes and seconds.
     */
    method UpdateCountdown(now: int)
      requires Valid()
      modifies this
      ensures Valid()
      ensures currentExpedition == old(currentExpedition) && claims == old(claims)
      ensures old(currentExpedition).None? ==>
        && intervalSet == old(intervalSet) && notified == old(notified) && notices == old(notices)
        && display == old(display) && progress == old(progress)
      ensures old(currentExpedition).Some? ==>
        var e := old(currentExpedition).value;
        && progress == Progress(e, now)
        && (Remaining(e, now) == 0 ==>
              && !intervalSet && display == "Complete!" && notified
              && notices == old(notices) + (if old(notified) then 0 else 1))
        && (Remaining(e, now) > 0 ==>
              && intervalSet == old(intervalSet) && notified == old(notified) && notices == old(notices)
              && display == RemainingText(Remaining(e, now)))
    {
      if currentExpedition.None? {
        return;
      }
      var e := currentExpedition.value;
      var timeRemaining := Remaining(e, now);
      progress := Progress(e, now);
      if timeRemaining <= 0 {
        intervalSet := false;
        display := "Complete!";
        if !notified {
          notified := true;
          notices := notices + 1;
        }
        return;
      }
      display := RemainingText(timeRemaining);
    }

    /**
     * `claimExpeditionRewards`: once the claim succeeds the tab forgets the
     * expedition and lowers the flag, so the next expedition can notify
     * again; a failed claim changes nothing.
     */
    method ClaimExpeditionRewards(claimed: bool)
      requires Valid()
      modifies this
      ensures Valid()
      ensures claimed ==> currentExpedition.None? && !notified && claims == old(claims) + 1
      ensures !claimed ==> currentExpedition == old(currentExpedition) && notified == old(notified)
                           && claims == old(claims)
      ensures notices == old(notices) && intervalSet == old(intervalSet)
    {
      if claimed {
        currentExpedition := None;
        notified := false;
        claims := claims + 1;
      }
    }
  }

  /**
   * Two countdown ticks after the end show the completion notice once: the
   * second tick finds the flag already up.
   */
  method TwoTicksNotifyOnce(v: CountdownView, now: int, later: int)
    requires v.Valid() && v.currentExpedition.Some? && !v.notified
    requires v.currentExpedition.value.startTime + v.currentExpedition.value.totalTime <= now <= later
    modifies v
    ensures v.notices == old(v.notices) + 1
  {
    v.UpdateCountdown(now);
    v.UpdateCountdown(later);
  }

  /** The difficulty and danger icons of the planet-details modal. */
  const DangerFull := "<i class=\"fas fa-exclamation-triangle danger-icon\"></i>"
  const DangerEmpty := "<i class=\"far fa-exclamation-triangle\"></i>"

  /** The loop `for (let i = 0; i < 5; i++)` that adds a filled icon while `i < level`. */
  method LevelIcons(level: int, full: string, empty: string) returns (html: string)
    ensures html == Concat(IconList(level, full, empty))
  {
    html := "";
    var i := 0;
    while i < 5
      invariant 0 <= i <= 5
      invariant html == Concat(IconList(level, full, empty)[..i])
    {
      assert IconList(level, full, empty)[..i + 1][..i] == IconList(level, full, empty)[..i];
      if i < level {
        html := html + full;
      } else {
        html := html + empty;
      }
      i := i + 1;
    }
    assert IconList(level, full, empty)[..5] == IconList(level, full, empty);
  }

  /** The modal's difficulty and danger rows. */
  method PlanetRows(difficulty: int, dangerLevel: int) returns (stars: string, dangers: string)
    ensures stars == Concat(IconList(difficulty, StarFull, StarEmpty))
    ensures dangers == Concat(IconList(dangerLevel, DangerFull, DangerEmpty))
  {
    stars := LevelIcons(difficulty, StarFull, StarEmpty);
    dangers := LevelIcons(dangerLevel, DangerFull, DangerEmpty);
  }

  /** The expedition time `minutes:ss` of a `base_time` in seconds. */
  function BaseTimeText(baseTime: nat): string {
    NatToString(baseTime / 60) + ":" + PadStart2(NatToString(baseTime % 60))
  }

  /** `m:ss` splits at its colon into digit-only minutes and two seconds digits that give back `base_time`. */
  lemma BaseTimeReadsBack(baseTime: nat)
    ensures var parts := Split(BaseTimeText(baseTime), ':');
      && |parts| == 2 && |parts[1]| == 2
      && (forall i :: 0 <= i < |parts[0]| ==> IsDigit(parts[0][i]))
      && (forall i :: 0 <= i < 2 ==> IsDigit(parts[1][i]))
      && 60 * ParseDecimal(parts[0]) + ParseDecimal(parts[1]) == baseTime
  {
    var q, r := baseTime / 60, baseTime % 60;
    var m, ss := NatToString(q), PadStart2(NatToString(r));
    assert Split(BaseTimeText(baseTime), ':') == [m, ss] by {
      PaddedTwoDigits(r);
      SplitDigitsAtColon(m, ss);
    }
    PaddedTwoDigits(r);
    assert 60 * q + r == baseTime;
  }

  /** Wheel segment names longer than 10 characters are cut to 8 and marked with `...`. */
  function WheelLabel(name: string): string {
    if |name| > 10 then name[..8] + "..." else name
  }

  /** A label never exceeds 11 characters, keeps a short name whole and always starts like the name. */
  lemma WheelLabelShape(name: string)
    ensures |WheelLabel(name)| <= 11
    ensures |name| <= 10 ==> WheelLabel(name) == name
    ensures |name| > 10 ==> WheelLabel(name)[..8] == name[..8] && WheelLabel(name)[8..] == "..."
  {
  }
}
