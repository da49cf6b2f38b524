/**
 * The per-minute and per-day XP quotas of the handler: the configured limits
 * with their defaults, the requested gain of a message, and the clamp that cuts
 * a gain down to what is left in both windows.
 */
module Quota {
  import opened Common

  const DefaultMinuteLimit := 5
  const DefaultDailyLimit := 500

  /** `config.xp`: either limit may be left unset. */
  datatype XpConfig = XpConfig(minuteLimit: Option<int>, dailyLimit: Option<int>)

  datatype Limits = Limits(minute: int, daily: int)

  /** `config.xp?.minuteLimit ?? 5` and `config.xp?.dailyLimit ?? 500`. */
  function EffectiveLimits(xp: Option<XpConfig>): (lim: Limits)
    ensures xp.None? ==> lim == Limits(DefaultMinuteLimit, DefaultDailyLimit)
    ensures xp.Some? && xp.value.minuteLimit.Some? ==> lim.minute == xp.value.minuteLimit.value
    ensures xp.Some? && xp.value.minuteLimit.None? ==> lim.minute == DefaultMinuteLimit
    ensures xp.Some? && xp.value.dailyLimit.Some? ==> lim.daily == xp.value.dailyLimit.value
    ensures xp.Some? && xp.value.dailyLimit.None? ==> lim.daily == DefaultDailyLimit
  {
    match xp
    case None => Limits(DefaultMinuteLimit, DefaultDailyLimit)
    case Some(c) => Limits(c.minuteLimit.GetOr(DefaultMinuteLimit), c.dailyLimit.GetOr(DefaultDailyLimit))
  }

  /** A message asks for 2 XP when its trimmed text is longer than 50 code units, else 1. */
  function RequestedGain(trimmedLength: nat): (gain: nat)
    ensures gain == 1 || gain == 2
    ensures gain == 2 <==> trimmedLength > 50
  {
    if trimmedLength > 50 then 2 else 1
  }

  /** Either window has already reached its limit. */
  predicate Exhausted(minuteXP: nat, dayXP: nat, lim: Limits) {
    minuteXP >= lim.minute || dayXP >= lim.daily
  }

  /**
   * `min(gain, max(0, minuteLimit - minuteXP), max(0, dailyLimit - dayXP))`: the
   * largest part of `gain` that fits in both windows.
   */
  function Grant(gain: nat, minuteXP: nat, dayXP: nat, lim: Limits): (g: nat)
    ensures g <= gain
    ensures g > 0 ==> minuteXP + g <= lim.minute && dayXP + g <= lim.daily
    ensures g == gain || minuteXP + g == lim.minute || dayXP + g == lim.daily || g == 0
    ensures g == 0 <==> gain == 0 || Exhausted(minuteXP, dayXP, lim)
  {
    var possibleMinute := Max0(lim.minute - minuteXP);
    var possibleDay := Max0(lim.daily - dayXP);
    Min(gain, Min(possibleMinute, possibleDay))
  }

  function Min(a: nat, b: nat): (m: nat)
    ensures m <= a && m <= b && (m == a || m == b)
  {
    if a <= b then a else b
  }

  /**
   * The gate refuses exactly when one window has no room left: it stops every message
   * whose clamp would come out as 0.
   */
  lemma ExhaustedIsNoRoom(gain: nat, minuteXP: nat, dayXP: nat, lim: Limits)
    requires gain >= 1
    ensures Exhausted(minuteXP, dayXP, lim) <==> Max0(lim.minute - minuteXP) == 0 || Max0(lim.daily - dayXP) == 0
    ensures Exhausted(minuteXP, dayXP, lim) <==> Grant(gain, minuteXP, dayXP, lim) == 0
  {
  }

  /** On an unexhausted quota a message always earns at least 1 XP, so `canGain <= 0` cannot follow. */
  lemma GrantPositive(trimmedLength: nat, minuteXP: nat, dayXP: nat, lim: Limits)
    requires !Exhausted(minuteXP, dayXP, lim)
    ensures 1 <= Grant(RequestedGain(trimmedLength), minuteXP, dayXP, lim) <= 2
  {
  }

  /** 499 XP today out of 500: a long message is clamped to 1 XP and fills the day. */
  lemma PartialGrantAtDailyEdge()
    ensures Grant(RequestedGain(51), 0, 499, Limits(DefaultMinuteLimit, DefaultDailyLimit)) == 1
    ensures Grant(RequestedGain(51), 4, 0, Limits(DefaultMinuteLimit, DefaultDailyLimit)) == 1
    ensures Grant(RequestedGain(51), 0, 0, Limits(DefaultMinuteLimit, DefaultDailyLimit)) == 2
  {
  }
}
