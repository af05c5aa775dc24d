/**
 * The two time-driven overlays: the `Filter` flash played on game over, and the
 * `Background` day/night cross-fade. Both read the level clock (`stateTime`, in
 * milliseconds) and drive a colour whose four channels are all set to one value,
 * modelled here as that value.
 */
module Overlays {
  import opened Common
  import opened MathUtils

  /** `Filter.animDur`, in milliseconds. */
  const FILTER_DURATION: real := 300.0

  /** The full-screen flash. `shade` is the value of all four colour channels. */
  datatype Filter = Filter(playing: bool, startTime: real, shade: real)

  /** The constructor leaves the filter idle and fully transparent. */
  const IdleFilter: Filter := Filter(false, 0.0, 0.0)

  /** `Filter.play`. */
  function PlayFilter(f: Filter, now: real): (r: Filter)
    ensures r.playing && r.startTime == now && r.shade == f.shade
  {
    f.(playing := true, startTime := now)
  }

  /**
   * `Filter.update`: while playing, the shade falls linearly from 1 to 0 over
   * `animDur`; once the time is up it stops, transparent.
   */
  function UpdateFilter(f: Filter, now: real): (r: Filter)
    ensures !f.playing ==> r == f
    ensures f.playing && now >= f.startTime + FILTER_DURATION ==> !r.playing && r.shade == 0.0
    ensures f.playing && now < f.startTime + FILTER_DURATION ==> r.playing && 0.0 < r.shade <= 1.0
    ensures f.playing && f.startTime <= now < f.startTime + FILTER_DURATION ==>
      (1.0 - r.shade) * FILTER_DURATION == now - f.startTime
    ensures r.startTime == f.startTime
    ensures 0.0 <= f.shade <= 1.0 ==> 0.0 <= r.shade <= 1.0
  {
    if !f.playing then f
    else
      var val := Sat(Step(f.startTime, f.startTime + FILTER_DURATION, now));
      SatStepDone(f.startTime, f.startTime + FILTER_DURATION, now);
      if val >= 1.0 then f.(playing := false, shade := 0.0)
      else f.(shade := 1.0 - val)
  }

  /** `Background.animDur`, in milliseconds. */
  const FADE_DURATION: real := 1500.0

  datatype Fade = ToDay | ToNight

  /** The background: `dayAlpha` is the value of the day layer's four colour channels. */
  datatype Background = Background(anim: Option<Fade>, startTime: real, isDay: bool, dayAlpha: real)

  /** `Background.reset` (also the state after construction). */
  const DayBackground: Background := Background(None, 0.0, true, 1.0)

  function ResetBackground(bg: Background): (r: Background)
    ensures r.isDay && r.anim.None? && r.dayAlpha == 1.0
    ensures Settled(r)
  {
    bg.(anim := None, isDay := true, dayAlpha := 1.0)
  }

  /** `Background.play`. */
  function PlayFade(bg: Background, fade: Fade, now: real): (r: Background)
    ensures r.anim == Some(fade) && r.startTime == now
    ensures r.isDay == bg.isDay && r.dayAlpha == bg.dayAlpha
  {
    bg.(anim := Some(fade), startTime := now)
  }

  /** `Background.change`: start fading towards the other time of day. */
  function Change(bg: Background, now: real): (r: Background)
    ensures r.isDay == !bg.isDay
    ensures r.anim == Some(if bg.isDay then ToNight else ToDay)
    ensures r.startTime == now && r.dayAlpha == bg.dayAlpha
    ensures Settled(bg) ==> Settled(r)
  {
    var fade := if bg.isDay then ToNight else ToDay;
    PlayFade(bg, fade, now).(isDay := !bg.isDay)
  }

  /**
   * What the background keeps true: a running fade heads to the current time of
   * day, an idle background shows it fully, and the alpha is a proper opacity.
   */
  predicate Settled(bg: Background)
  {
    && (bg.anim == Some(ToDay) ==> bg.isDay)
    && (bg.anim == Some(ToNight) ==> !bg.isDay)
    && (bg.anim.None? ==> bg.dayAlpha == (if bg.isDay then 1.0 else 0.0))
    && 0.0 <= bg.dayAlpha <= 1.0
  }

  /**
   * `Background.update`: the day layer fades in (to day) or out (to night) over
   * `animDur`; at the end the fade is dropped.
   */
  function UpdateBackground(bg: Background, now: real): (r: Background)
    ensures bg.anim.None? ==> r == bg
    ensures bg.anim.Some? && now >= bg.startTime + FADE_DURATION ==> r.anim.None?
    ensures bg.anim.Some? && now < bg.startTime + FADE_DURATION ==> r.anim == bg.anim
    ensures bg.anim == Some(ToDay) && bg.startTime <= now < bg.startTime + FADE_DURATION ==>
      r.dayAlpha * FADE_DURATION == now - bg.startTime
    ensures bg.anim == Some(ToNight) && bg.startTime <= now < bg.startTime + FADE_DURATION ==>
      (1.0 - r.dayAlpha) * FADE_DURATION == now - bg.startTime
    ensures bg.anim.Some? && now <= bg.startTime ==> r.dayAlpha == (if bg.anim == Some(ToDay) then 0.0 else 1.0)
    ensures r.isDay == bg.isDay && r.startTime == bg.startTime
    ensures Settled(bg) ==> Settled(r)
  {
    if bg.anim.None? then bg
    else
      var val := Sat(Step(bg.startTime, bg.startTime + FADE_DURATION, now));
      SatStepDone(bg.startTime, bg.startTime + FADE_DURATION, now);
      var alpha := if bg.anim.value == ToDay then val else 1.0 - val;
      var faded := bg.(dayAlpha := alpha);
      if val >= 1.0 then
        assert Settled(bg) ==> alpha == (if bg.isDay then 1.0 else 0.0) by {
          if bg.anim.value == ToDay { assert bg.anim == Some(ToDay); } else { assert bg.anim == Some(ToNight); }
        }
        faded.(anim := None)
      else faded
  }

  /**
   * The two fades mirror each other: started together, the day layer's alpha
   * fading in and the one fading out add up to 1 at every moment.
   */
  lemma FadesMirror(bg: Background, now: real)
    ensures UpdateBackground(bg.(anim := Some(ToDay)), now).dayAlpha
          + UpdateBackground(bg.(anim := Some(ToNight)), now).dayAlpha == 1.0
  {
  }

  /** Two changes give back the time of day; the fade in flight heads there. */
  lemma ChangeTwice(bg: Background, t1: real, t2: real)
    ensures Change(Change(bg, t1), t2).isDay == bg.isDay
    ensures Change(Change(bg, t1), t2).anim == Some(if bg.isDay then ToDay else ToNight)
  {
  }

  /**
   * A completed fade leaves the day layer fully shown by day and fully hidden by
   * night.
   */
  lemma FadeCompletes(bg: Background, now: real)
    requires Settled(bg) && bg.anim.Some?
    requires now >= bg.startTime + FADE_DURATION
    ensures UpdateBackground(bg, now).dayAlpha == (if bg.isDay then 1.0 else 0.0)
    ensures UpdateBackground(bg, now).anim.None?
  {
  }
}
