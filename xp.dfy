/**
 * The XP handler of utils/xp.js as a function of the user record before the
 * update to the user record after it, with an outcome tag. The class in
 * user_progress.dfy performs the same transition in place, step by step.
 */
module Xp {
  import opened Common
  import opened JsString
  import opened Eligibility
  import opened Quota
  import opened Reward
  import opened Level

  /** The fields of the user document that the handler reads or writes. */
  datatype Progress = Progress(
    messageCount: nat,
    banned: bool,
    totalXP: nat,
    dayXP: nat,
    weekXP: nat,
    monthXP: nat,
    minuteXP: nat,
    dayKey: Option<string>,
    minuteKey: Option<string>,
    topCoin: int,
    lastMessageText: string,
    lastMessageAt: Option<int>)

  /** The current instant and the day and minute window keys derived from it. */
  datatype Now = Now(instant: int, dayKey: string, minuteKey: string)

  datatype Outcome =
    | Ignored(why: Skip)               // passed on before the user is touched
    | Banned                           // counted as a message, no XP
    | NotCounted                       // text too short or without a word character
    | QuotaExhausted                   // a window was already full after rollover
    | Granted(gain: nat)               // XP added, level unchanged
    | LeveledUp(gain: nat, reward: Reward)
  {
    /** The outcomes after which the handler saves the user document. */
    predicate Persists() {
      NotCounted? || QuotaExhausted? || Granted? || LeveledUp?
    }

    predicate GainsXp() {
      Granted? || LeveledUp?
    }
  }

  datatype Transition = Transition(user: Progress, outcome: Outcome)

  /** A window counter after rollover: kept when its key is current, 0 otherwise. */
  function RolledXp(key: Option<string>, xp: nat, current: string): nat {
    if key == Some(current) then xp else 0
  }

  /** The day and minute windows are reset independently when their key changes. */
  function Rollover(u: Progress, now: Now): (v: Progress)
    ensures v.dayKey == Some(now.dayKey) && v.minuteKey == Some(now.minuteKey)
    ensures u.dayKey != Some(now.dayKey) ==> v.dayXP == 0
    ensures u.dayKey == Some(now.dayKey) ==> v.dayXP == u.dayXP
    ensures u.minuteKey != Some(now.minuteKey) ==> v.minuteXP == 0
    ensures u.minuteKey == Some(now.minuteKey) ==> v.minuteXP == u.minuteXP
    ensures v.(dayKey := u.dayKey, dayXP := u.dayXP, minuteKey := u.minuteKey, minuteXP := u.minuteXP) == u
  {
    var d := if u.dayKey != Some(now.dayKey) then u.(dayKey := Some(now.dayKey), dayXP := 0) else u;
    if d.minuteKey != Some(now.minuteKey) then d.(minuteKey := Some(now.minuteKey), minuteXP := 0) else d
  }

  /** Rolling over twice at the same instant is rolling over once. */
  lemma RolloverIdempotent(u: Progress, now: Now)
    ensures Rollover(Rollover(u, now), now) == Rollover(u, now)
  {
  }

  /** The five XP aggregates, each raised by `g`. */
  function AddXp(u: Progress, g: nat): (v: Progress)
    ensures v.totalXP == u.totalXP + g && v.dayXP == u.dayXP + g && v.weekXP == u.weekXP + g
    ensures v.monthXP == u.monthXP + g && v.minuteXP == u.minuteXP + g
    ensures v.(totalXP := u.totalXP, dayXP := u.dayXP, weekXP := u.weekXP,
               monthXP := u.monthXP, minuteXP := u.minuteXP) == u
  {
    u.(totalXP := u.totalXP + g, dayXP := u.dayXP + g, weekXP := u.weekXP + g,
       monthXP := u.monthXP + g, minuteXP := u.minuteXP + g)
  }

  /** The trimmed payload of an admitted message. */
  function TrimmedText(message: Option<Message>): string
    requires Admit(message).Admitted?
  {
    Trim(Admit(message).text)
  }

  /** The XP aggregates, the window keys and the coin balance agree. */
  predicate SameXpAndCoin(u: Progress, v: Progress) {
    v.totalXP == u.totalXP && v.dayXP == u.dayXP && v.weekXP == u.weekXP
    && v.monthXP == u.monthXP && v.minuteXP == u.minuteXP && v.topCoin == u.topCoin
    && v.dayKey == u.dayKey && v.minuteKey == u.minuteKey
  }

  /** The fields no XP credit touches agree. */
  predicate SameBookkeeping(u: Progress, v: Progress) {
    v.messageCount == u.messageCount && v.banned == u.banned
    && v.lastMessageText == u.lastMessageText && v.lastMessageAt == u.lastMessageAt
  }

  /**
   * The handler from the window rollover on (utils/xp.js:76-155), for a text that earns XP:
   * roll the windows over, stop if a quota is full, else grant the clamped gain and pay
   * the level-up reward.
   */
  function CreditXp(u: Progress, trimmed: string, now: Now, lim: Limits): (r: Transition)
    ensures r.outcome.QuotaExhausted? || r.outcome.GainsXp()
  {
    var rolled := Rollover(u, now);
    if Exhausted(rolled.minuteXP, rolled.dayXP, lim) then
      Transition(rolled.(lastMessageText := trimmed, lastMessageAt := Some(now.instant)), QuotaExhausted)
    else
      var g := Grant(RequestedGain(JsLength(trimmed)), rolled.minuteXP, rolled.dayXP, lim);
      var oldLevel := CalcLevel(rolled.totalXP);
      var gained := AddXp(rolled, g);
      var newLevel := CalcLevel(gained.totalXP);
      var coin := if newLevel > oldLevel then LevelUpReward(oldLevel, newLevel).totalCoin else 0;
      var outcome := if newLevel > oldLevel then LeveledUp(g, LevelUpReward(oldLevel, newLevel)) else Granted(g);
      Transition(gained.(topCoin := gained.topCoin + coin, lastMessageText := trimmed,
                         lastMessageAt := Some(now.instant)), outcome)
  }

  /**
   * CreditXp rolls the windows over and records the last message; it stops with
   * QuotaExhausted exactly when a rolled-over window is full, changing nothing else.
   */
  lemma CreditRollsOver(u: Progress, trimmed: string, now: Now, lim: Limits)
    ensures var r := CreditXp(u, trimmed, now, lim);
      SameBookkeeping(u.(lastMessageText := trimmed, lastMessageAt := Some(now.instant)), r.user)
      && r.user.dayKey == Some(now.dayKey) && r.user.minuteKey == Some(now.minuteKey)
    ensures var r := CreditXp(u, trimmed, now, lim);
      r.outcome.QuotaExhausted? <==>
        Exhausted(RolledXp(u.minuteKey, u.minuteXP, now.minuteKey), RolledXp(u.dayKey, u.dayXP, now.dayKey), lim)
    ensures var r := CreditXp(u, trimmed, now, lim);
      r.outcome.QuotaExhausted? ==>
        r.user == Rollover(u, now).(lastMessageText := trimmed, lastMessageAt := Some(now.instant))
  {
  }

  /**
   * A grant is 1 or 2 XP, at most the requested gain, added to all five aggregates after
   * rollover, and keeps both windows within their limits; it is cut short only by a limit.
   */
  lemma CreditGrant(u: Progress, trimmed: string, now: Now, lim: Limits)
    ensures var r := CreditXp(u, trimmed, now, lim);
      r.outcome.GainsXp() ==>
        var g := r.outcome.gain;
        g == Grant(RequestedGain(JsLength(trimmed)), RolledXp(u.minuteKey, u.minuteXP, now.minuteKey),
                   RolledXp(u.dayKey, u.dayXP, now.dayKey), lim)
        && 1 <= g <= RequestedGain(JsLength(trimmed))
        && r.user.totalXP == u.totalXP + g
        && r.user.weekXP == u.weekXP + g && r.user.monthXP == u.monthXP + g
        && r.user.dayXP == RolledXp(u.dayKey, u.dayXP, now.dayKey) + g
        && r.user.minuteXP == RolledXp(u.minuteKey, u.minuteXP, now.minuteKey) + g
        && r.user.dayXP <= lim.daily && r.user.minuteXP <= lim.minute
        && (g < RequestedGain(JsLength(trimmed)) ==> r.user.dayXP == lim.daily || r.user.minuteXP == lim.minute)
    ensures var r := CreditXp(u, trimmed, now, lim);
      r.outcome.QuotaExhausted? ==> r.user.totalXP == u.totalXP && r.user.topCoin == u.topCoin
  {
  }

  /**
   * The coin balance moves only on a level-up, by the reward for going from the old
   * level to the new one; a grant without a level change leaves the level as it was.
   */
  lemma CreditLevels(u: Progress, trimmed: string, now: Now, lim: Limits)
    ensures var r := CreditXp(u, trimmed, now, lim);
      r.outcome.Granted? ==> CalcLevel(r.user.totalXP) == CalcLevel(u.totalXP) && r.user.topCoin == u.topCoin
    ensures var r := CreditXp(u, trimmed, now, lim);
      r.outcome.LeveledUp? ==>
        CalcLevel(u.totalXP) < CalcLevel(r.user.totalXP)
        && r.outcome.reward == LevelUpReward(CalcLevel(u.totalXP), CalcLevel(r.user.totalXP))
        && r.user.topCoin == u.topCoin + r.outcome.reward.totalCoin
  {
    var rolled := Rollover(u, now);
    if !Exhausted(rolled.minuteXP, rolled.dayXP, lim) {
      LevelMonotone(rolled.totalXP, CreditXp(u, trimmed, now, lim).user.totalXP);
    }
  }

  /** The handler for a message that passed the four early exits (utils/xp.js:55-155). */
  function HandleAdmitted(u: Progress, text: string, now: Now, lim: Limits): (r: Transition)
    ensures r.user.messageCount == u.messageCount + 1 && r.user.banned == u.banned
    ensures r.outcome.Banned? <==> u.banned
    ensures r.outcome.NotCounted? <==> !u.banned && !EarnsXp(Trim(text))
    ensures r.outcome.Banned? || r.outcome.NotCounted? ==> SameXpAndCoin(u, r.user)
    ensures r.outcome.Persists() <==> !r.outcome.Banned?
    ensures r.outcome.Persists() ==>
      r.user.lastMessageText == Trim(text) && r.user.lastMessageAt == Some(now.instant)
    ensures r.outcome.Banned? ==>
      r.user.lastMessageText == u.lastMessageText && r.user.lastMessageAt == u.lastMessageAt
    ensures r.user.totalXP >= u.totalXP
  {
    var trimmed := Trim(text);
    var counted := u.(messageCount := u.messageCount + 1);
    if counted.banned then Transition(counted, Banned)
    else if !EarnsXp(trimmed) then
      Transition(counted.(lastMessageText := trimmed, lastMessageAt := Some(now.instant)), NotCounted)
    else
      CreditGrant(counted, trimmed, now, lim);
      CreditXp(counted, trimmed, now, lim)
  }

  /** One run of the handler on the update `message` for the user `u`. */
  function Handle(u: Progress, message: Option<Message>, now: Now, xp: Option<XpConfig>): (r: Transition)
    ensures r.outcome.Ignored? <==> Admit(message).Skipped?
    ensures r.outcome.Ignored? ==> r.user == u && r.outcome.why == Admit(message).why
    ensures Admit(message).Admitted? ==>
      r == HandleAdmitted(u, Admit(message).text, now, EffectiveLimits(xp))
    ensures Admit(message).Admitted? && !u.banned && EarnsXp(TrimmedText(message)) ==>
      r == CreditXp(u.(messageCount := u.messageCount + 1), TrimmedText(message), now, EffectiveLimits(xp))
  {
    match Admit(message)
    case Skipped(why) => Transition(u, Ignored(why))
    case Admitted(text) => HandleAdmitted(u, text, now, EffectiveLimits(xp))
  }
}
