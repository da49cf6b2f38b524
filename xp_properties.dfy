/**
 * What the XP handler promises, stated about Xp.Handle: per call (quotas, monotone
 * XP and level, rejections leave XP alone, the coin reward) and over a stream of
 * messages (the per-minute and per-day quotas bound the XP a user can collect).
 */
module XpProperties {
  import opened Common
  import opened JsString
  import opened Eligibility
  import opened Quota
  import opened Reward
  import opened Level
  import opened Xp

  /** A message is either passed on without touching XP and coin, or credited by CreditXp. */
  lemma HandleCases(u: Progress, message: Option<Message>, now: Now, xp: Option<XpConfig>)
    ensures var r := Handle(u, message, now, xp);
      if r.outcome.Ignored? || r.outcome.Banned? || r.outcome.NotCounted? then
        SameXpAndCoin(u, r.user) && !r.outcome.GainsXp()
      else
        Admit(message).Admitted? && !u.banned && EarnsXp(TrimmedText(message))
        && r == CreditXp(u.(messageCount := u.messageCount + 1), TrimmedText(message), now, EffectiveLimits(xp))
  {
    var r := Handle(u, message, now, xp);
    if Admit(message).Admitted? {
      assert r == HandleAdmitted(u, Admit(message).text, now, EffectiveLimits(xp));
    }
  }

  /** A granted gain never overflows either window. */
  lemma GrantWithinQuotas(u: Progress, message: Option<Message>, now: Now, xp: Option<XpConfig>)
    ensures var r := Handle(u, message, now, xp);
      r.outcome.GainsXp() ==>
        r.user.minuteXP <= EffectiveLimits(xp).minute && r.user.dayXP <= EffectiveLimits(xp).daily
  {
    var r := Handle(u, message, now, xp);
    HandleCases(u, message, now, xp);
    if !(r.outcome.Ignored? || r.outcome.Banned? || r.outcome.NotCounted?) {
      CreditGrant(u.(messageCount := u.messageCount + 1), TrimmedText(message), now, EffectiveLimits(xp));
    }
  }

  /** With non-negative limits, a user within both quotas stays within them. */
  lemma QuotasPreserved(u: Progress, message: Option<Message>, now: Now, xp: Option<XpConfig>)
    requires 0 <= EffectiveLimits(xp).minute && 0 <= EffectiveLimits(xp).daily
    requires u.minuteXP <= EffectiveLimits(xp).minute && u.dayXP <= EffectiveLimits(xp).daily
    ensures Handle(u, message, now, xp).user.minuteXP <= EffectiveLimits(xp).minute
    ensures Handle(u, message, now, xp).user.dayXP <= EffectiveLimits(xp).daily
  {
    var r := Handle(u, message, now, xp);
    HandleCases(u, message, now, xp);
    if !(r.outcome.Ignored? || r.outcome.Banned? || r.outcome.NotCounted?) {
      CreditRollsOver(u.(messageCount := u.messageCount + 1), TrimmedText(message), now, EffectiveLimits(xp));
      CreditGrant(u.(messageCount := u.messageCount + 1), TrimmedText(message), now, EffectiveLimits(xp));
    }
  }

  /** The XP aggregates grow by exactly the grant, and the coin moves only on a level-up. */
  predicate XpMovesOnlyByGrant(u: Progress, r: Transition) {
    var g := if r.outcome.GainsXp() then r.outcome.gain else 0;
    r.user.totalXP == u.totalXP + g
    && r.user.weekXP == u.weekXP + g
    && r.user.monthXP == u.monthXP + g
    && CalcLevel(u.totalXP) <= CalcLevel(r.user.totalXP)
    && (!r.outcome.LeveledUp? ==> r.user.topCoin == u.topCoin)
  }

  lemma CreditXpOnlyByGrant(u: Progress, trimmed: string, now: Now, lim: Limits)
    ensures XpMovesOnlyByGrant(u, CreditXp(u, trimmed, now, lim))
  {
    CreditGrant(u, trimmed, now, lim);
    CreditLevels(u, trimmed, now, lim);
    LevelMonotone(u.totalXP, CreditXp(u, trimmed, now, lim).user.totalXP);
  }

  lemma AdmittedXpOnlyByGrant(u: Progress, text: string, now: Now, lim: Limits)
    ensures XpMovesOnlyByGrant(u, HandleAdmitted(u, text, now, lim))
  {
    var r := HandleAdmitted(u, text, now, lim);
    if r.outcome.Banned? || r.outcome.NotCounted? {
      assert SameXpAndCoin(u, r.user);
    } else {
      var counted := u.(messageCount := u.messageCount + 1);
      assert r == CreditXp(counted, Trim(text), now, lim);
      CreditXpOnlyByGrant(counted, Trim(text), now, lim);
    }
  }

  /**
   * `totalXP` grows by exactly the grant and by nothing otherwise, so the level never
   * falls; without a grant, no XP aggregate and no coin changes but by window rollover.
   */
  lemma XpOnlyByGrant(u: Progress, message: Option<Message>, now: Now, xp: Option<XpConfig>)
    ensures XpMovesOnlyByGrant(u, Handle(u, message, now, xp))
  {
    if Admit(message).Admitted? {
      AdmittedXpOnlyByGrant(u, Admit(message).text, now, EffectiveLimits(xp));
    }
  }

  /** Updates passed on early, banned users and texts that earn nothing leave XP and coin as they were. */
  lemma RejectionsKeepXp(u: Progress, message: Option<Message>, now: Now, xp: Option<XpConfig>)
    ensures var r := Handle(u, message, now, xp);
      r.outcome.Ignored? || r.outcome.Banned? || r.outcome.NotCounted? ==> SameXpAndCoin(u, r.user)
    ensures var r := Handle(u, message, now, xp);
      r.outcome.Banned? || r.outcome.NotCounted? ==> r.user.messageCount == u.messageCount + 1
  {
  }

  /** Every path past the ban check records the trimmed text as the last message. */
  lemma LastMessageRecorded(u: Progress, message: Option<Message>, now: Now, xp: Option<XpConfig>)
    requires Admit(message).Admitted? && !u.banned
    ensures Handle(u, message, now, xp).user.lastMessageText == TrimmedText(message)
    ensures Handle(u, message, now, xp).user.lastMessageAt == Some(now.instant)
  {
  }

  /** CreditXp's level-ups are one-level rises. */
  lemma CreditLevelUpIsOneLevel(u: Progress, trimmed: string, now: Now, lim: Limits)
    ensures var r := CreditXp(u, trimmed, now, lim);
      r.outcome.LeveledUp? ==>
        r.outcome.reward.newLevel == r.outcome.reward.oldLevel + 1
        && r.outcome.reward.milestoneCoin == RangeMilestoneCoin(r.outcome.reward.oldLevel, r.outcome.reward.newLevel)
  {
    CreditGrant(u, trimmed, now, lim);
    CreditLevels(u, trimmed, now, lim);
    var rolled := Rollover(u, now);
    if !Exhausted(rolled.minuteXP, rolled.dayXP, lim) {
      var g := Grant(RequestedGain(JsLength(trimmed)), rolled.minuteXP, rolled.dayXP, lim);
      LevelStepAtMostOne(rolled.totalXP, rolled.totalXP + g);
      SingleStepMilestone(CalcLevel(rolled.totalXP));
    }
  }

  /**
   * A level-up raises the level by exactly one (a grant is at most 2 XP), pays 50 coin
   * plus the bonus of the new level, and so pays the same as awarding every milestone in
   * `(oldLevel, newLevel]`: no milestone can be skipped.
   */
  lemma LevelUpIsOneLevel(u: Progress, message: Option<Message>, now: Now, xp: Option<XpConfig>)
    ensures var r := Handle(u, message, now, xp);
      r.outcome.LeveledUp? ==>
        r.outcome.reward.newLevel == r.outcome.reward.oldLevel + 1
        && r.outcome.reward.perLevelCoin == CoinPerLevel
        && r.outcome.reward.milestoneCoin == RangeMilestoneCoin(r.outcome.reward.oldLevel, r.outcome.reward.newLevel)
        && r.user.topCoin == u.topCoin + CoinPerLevel + MilestoneBonus(CalcLevel(r.user.totalXP))
  {
    var r := Handle(u, message, now, xp);
    HandleCases(u, message, now, xp);
    if !(r.outcome.Ignored? || r.outcome.Banned? || r.outcome.NotCounted?) {
      CreditLevels(u.(messageCount := u.messageCount + 1), TrimmedText(message), now, EffectiveLimits(xp));
      CreditLevelUpIsOneLevel(u.(messageCount := u.messageCount + 1), TrimmedText(message), now, EffectiveLimits(xp));
    }
  }

  // ---------------------------------------------------------------------------
  // Worked examples

  /** An admitted message whose trimmed text earns XP and is long enough to ask for 2. */
  predicate LongEarningMessage(message: Option<Message>) {
    Admit(message).Admitted? && EarnsXp(TrimmedText(message)) && JsLength(TrimmedText(message)) > 50
  }

  // For a message that earns XP from a user who is not banned, `Handle` is the XP credit
  // of the counted user; the next three lemmas state what that credit does.

  /** The quota gate of an earning message, on the windows as rolled over for `now`. */
  lemma EarningQuotaGate(u: Progress, message: Option<Message>, now: Now, xp: Option<XpConfig>)
    requires Admit(message).Admitted? && !u.banned && EarnsXp(TrimmedText(message))
    ensures var r := CreditXp(u.(messageCount := u.messageCount + 1), TrimmedText(message), now, EffectiveLimits(xp));
      var m := RolledXp(u.minuteKey, u.minuteXP, now.minuteKey);
      var d := RolledXp(u.dayKey, u.dayXP, now.dayKey);
      (r.outcome.QuotaExhausted? <==> Exhausted(m, d, EffectiveLimits(xp)))
      && (r.outcome.QuotaExhausted? ==>
            r.user.totalXP == u.totalXP && r.user.minuteXP == m && r.user.dayXP == d)
      && r.user.minuteKey == Some(now.minuteKey) && r.user.dayKey == Some(now.dayKey)
  {
    CreditRollsOver(u.(messageCount := u.messageCount + 1), TrimmedText(message), now, EffectiveLimits(xp));
  }

  /** The grant of an earning message is the clamp of its requested gain, added on top. */
  lemma EarningGrant(u: Progress, message: Option<Message>, now: Now, xp: Option<XpConfig>)
    requires Admit(message).Admitted? && !u.banned && EarnsXp(TrimmedText(message))
    ensures var r := CreditXp(u.(messageCount := u.messageCount + 1), TrimmedText(message), now, EffectiveLimits(xp));
      var m := RolledXp(u.minuteKey, u.minuteXP, now.minuteKey);
      var d := RolledXp(u.dayKey, u.dayXP, now.dayKey);
      r.outcome.GainsXp() ==>
        r.outcome.gain == Grant(RequestedGain(JsLength(TrimmedText(message))), m, d, EffectiveLimits(xp))
        && r.user.totalXP == u.totalXP + r.outcome.gain
        && r.user.minuteXP == m + r.outcome.gain && r.user.dayXP == d + r.outcome.gain
  {
    CreditGrant(u.(messageCount := u.messageCount + 1), TrimmedText(message), now, EffectiveLimits(xp));
  }

  /** The coin of an earning message moves only with the level, by the level-up reward. */
  lemma EarningLevels(u: Progress, message: Option<Message>, now: Now, xp: Option<XpConfig>)
    requires Admit(message).Admitted? && !u.banned && EarnsXp(TrimmedText(message))
    ensures var r := CreditXp(u.(messageCount := u.messageCount + 1), TrimmedText(message), now, EffectiveLimits(xp));
      (r.outcome.Granted? ==> CalcLevel(r.user.totalXP) == CalcLevel(u.totalXP) && r.user.topCoin == u.topCoin)
      && (r.outcome.LeveledUp? ==>
            CalcLevel(u.totalXP) < CalcLevel(r.user.totalXP)
            && r.outcome.reward == LevelUpReward(CalcLevel(u.totalXP), CalcLevel(r.user.totalXP))
            && r.user.topCoin == u.topCoin + r.outcome.reward.totalCoin)
  {
    CreditLevels(u.(messageCount := u.messageCount + 1), TrimmedText(message), now, EffectiveLimits(xp));
  }

  /** 499 of 500 XP today: a long message earns 1 XP, not 2, and fills the day. */
  lemma PartialGrantExample(u: Progress, message: Option<Message>, now: Now)
    requires LongEarningMessage(message)
    requires !u.banned && u.dayKey == Some(now.dayKey) && u.dayXP == 499
    requires u.minuteKey == Some(now.minuteKey) && u.minuteXP == 0
    ensures var r := Handle(u, message, now, None);
      r.outcome.GainsXp() && r.outcome.gain == 1
      && r.user.dayXP == 500 && r.user.totalXP == u.totalXP + 1
  {
    EarningQuotaGate(u, message, now, None);
    EarningGrant(u, message, now, None);
  }

  /** A full minute window is reset by the next minute's key before the grant. */
  lemma MinuteRolloverExample(u: Progress, message: Option<Message>)
    requires LongEarningMessage(message)
    requires !u.banned && u.minuteKey == Some("2024-01-01T00:00") && u.minuteXP == 5
    requires u.dayKey == Some("2024-01-01") && u.dayXP == 5
    ensures var r := Handle(u, message, Now(0, "2024-01-01", "2024-01-01T00:01"), None);
      r.outcome.GainsXp() && r.user.minuteXP == r.outcome.gain == 2
      && r.user.minuteKey == Some("2024-01-01T00:01") && r.user.dayXP == 7
  {
    var now := Now(0, "2024-01-01", "2024-01-01T00:01");
    EarningQuotaGate(u, message, now, None);
    EarningGrant(u, message, now, None);

    assert "2024-01-01T00:00" != "2024-01-01T00:01" by {
      assert "2024-01-01T00:00"[15] != "2024-01-01T00:01"[15];
    }
  }

  /** In the same minute the full window blocks the message, and no XP field changes. */
  lemma FullMinuteExample(u: Progress, message: Option<Message>, now: Now)
    requires LongEarningMessage(message)
    requires !u.banned && u.minuteKey == Some(now.minuteKey) && u.minuteXP == 5
    ensures var r := Handle(u, message, now, None);
      r.outcome == QuotaExhausted && r.user.totalXP == u.totalXP && r.user.minuteXP == 5
  {
    EarningQuotaGate(u, message, now, None);
  }

  /** Going from 19 to 20 XP is a level-up to 2 worth 50 coin. */
  lemma FirstLevelUpExample(u: Progress, message: Option<Message>, now: Now)
    requires LongEarningMessage(message)
    requires !u.banned && u.totalXP == 19 && u.dayKey == Some(now.dayKey) && u.dayXP == 0
    requires u.minuteKey == Some(now.minuteKey) && u.minuteXP == 4
    ensures var r := Handle(u, message, now, None);
      r.outcome == LeveledUp(1, Reward(1, 2, 50, 0, 50)) && r.user.topCoin == u.topCoin + 50
  {
    var r := Handle(u, message, now, None);
    EarningQuotaGate(u, message, now, None);
    EarningGrant(u, message, now, None);
    EarningLevels(u, message, now, None);
    assert r.outcome.GainsXp() && r.outcome.gain == 1 && r.user.totalXP == 20;
    LevelExamples();
    assert MilestoneBonus(2) == 0 by {
      assert 2 !in Milestones;
    }
  }

  /** Reaching 125 XP from level 4 is level 5, a milestone: 50 + 20 coin. */
  lemma MilestoneLevelUpExample(u: Progress, message: Option<Message>, now: Now)
    requires LongEarningMessage(message)
    requires !u.banned && u.totalXP == 123 && u.dayKey == Some(now.dayKey) && u.dayXP == 0
    requires u.minuteKey == Some(now.minuteKey) && u.minuteXP == 0
    ensures var r := Handle(u, message, now, None);
      r.outcome == LeveledUp(2, Reward(4, 5, 50, 20, 70)) && r.user.topCoin == u.topCoin + 70
  {
    var r := Handle(u, message, now, None);
    EarningQuotaGate(u, message, now, None);
    EarningGrant(u, message, now, None);
    EarningLevels(u, message, now, None);
    assert r.outcome.GainsXp() && r.outcome.gain == 2 && r.user.totalXP == 125;
    LevelExamples();
    RewardExamples();
  }

  /** A banned user never gains XP, whatever the text and the quotas. */
  lemma BannedGetsNothing(u: Progress, message: Option<Message>, now: Now, xp: Option<XpConfig>)
    requires u.banned
    ensures var r := Handle(u, message, now, xp);
      !r.outcome.GainsXp() && SameXpAndCoin(u, r.user)
  {
  }

  // ---------------------------------------------------------------------------
  // Streams of messages

  datatype Arrival = Arrival(message: Option<Message>, now: Now)

  /** The user after the handler has run on each arrival in turn. */
  function Run(u: Progress, arrivals: seq<Arrival>, xp: Option<XpConfig>): (v: Progress)
    ensures v.totalXP >= u.totalXP
    ensures CalcLevel(v.totalXP) >= CalcLevel(u.totalXP)
    decreases |arrivals|
  {
    if arrivals == [] then u
    else
      var next := Handle(u, arrivals[0].message, arrivals[0].now, xp).user;
      var v := Run(next, arrivals[1..], xp);
      LevelMonotone(u.totalXP, v.totalXP);
      v
  }

  /** XP that can still be earned in the minute window `key`. */
  function MinuteRoom(u: Progress, key: string, lim: Limits): nat {
    Max0(lim.minute - RolledXp(u.minuteKey, u.minuteXP, key))
  }

  /** XP that can still be earned in the day window `key`. */
  function DayRoom(u: Progress, key: string, lim: Limits): nat {
    Max0(lim.daily - RolledXp(u.dayKey, u.dayXP, key))
  }

  lemma MinuteRoomShrinks(u: Progress, a: Arrival, xp: Option<XpConfig>, key: string)
    requires a.now.minuteKey == key
    ensures var v := Handle(u, a.message, a.now, xp).user;
      v.totalXP - u.totalXP + MinuteRoom(v, key, EffectiveLimits(xp)) <= MinuteRoom(u, key, EffectiveLimits(xp))
  {
    var message, now := a.message, a.now;
    var r := Handle(u, message, now, xp);
    HandleCases(u, message, now, xp);
    if !(r.outcome.Ignored? || r.outcome.Banned? || r.outcome.NotCounted?) {
      CreditRollsOver(u.(messageCount := u.messageCount + 1), TrimmedText(message), now, EffectiveLimits(xp));
      CreditGrant(u.(messageCount := u.messageCount + 1), TrimmedText(message), now, EffectiveLimits(xp));
    }
  }

  lemma DayRoomShrinks(u: Progress, a: Arrival, xp: Option<XpConfig>, key: string)
    requires a.now.dayKey == key
    ensures var v := Handle(u, a.message, a.now, xp).user;
      v.totalXP - u.totalXP + DayRoom(v, key, EffectiveLimits(xp)) <= DayRoom(u, key, EffectiveLimits(xp))
  {
    var message, now := a.message, a.now;
    var r := Handle(u, message, now, xp);
    HandleCases(u, message, now, xp);
    if !(r.outcome.Ignored? || r.outcome.Banned? || r.outcome.NotCounted?) {
      CreditRollsOver(u.(messageCount := u.messageCount + 1), TrimmedText(message), now, EffectiveLimits(xp));
      CreditGrant(u.(messageCount := u.messageCount + 1), TrimmedText(message), now, EffectiveLimits(xp));
    }
  }

  /**
   * Within one minute window, the XP a user collects from any number of messages is
   * at most what was left in that window, and so at most the minute limit.
   */
  lemma {:induction false} MinuteQuotaOverRun(u: Progress, arrivals: seq<Arrival>, xp: Option<XpConfig>, key: string)
    requires forall i :: 0 <= i < |arrivals| ==> arrivals[i].now.minuteKey == key
    ensures Run(u, arrivals, xp).totalXP - u.totalXP <= MinuteRoom(u, key, EffectiveLimits(xp))
    ensures Run(u, arrivals, xp).totalXP - u.totalXP <= Max0(EffectiveLimits(xp).minute)
    decreases |arrivals|
  {
    if arrivals != [] {
      var next := Handle(u, arrivals[0].message, arrivals[0].now, xp).user;
      MinuteRoomShrinks(u, arrivals[0], xp, key);
      MinuteQuotaOverRun(next, arrivals[1..], xp, key);
    }
  }

  /**
   * Within one day window, the XP a user collects from any number of messages is at
   * most what was left in that window, and so at most the daily limit.
   */
  lemma {:induction false} DayQuotaOverRun(u: Progress, arrivals: seq<Arrival>, xp: Option<XpConfig>, key: string)
    requires forall i :: 0 <= i < |arrivals| ==> arrivals[i].now.dayKey == key
    ensures Run(u, arrivals, xp).totalXP - u.totalXP <= DayRoom(u, key, EffectiveLimits(xp))
    ensures Run(u, arrivals, xp).totalXP - u.totalXP <= Max0(EffectiveLimits(xp).daily)
    decreases |arrivals|
  {
    if arrivals != [] {
      var next := Handle(u, arrivals[0].message, arrivals[0].now, xp).user;
      DayRoomShrinks(u, arrivals[0], xp, key);
      DayQuotaOverRun(next, arrivals[1..], xp, key);
    }
  }
}
