/**
 * The user document as the handler sees it: an object whose fields the default
 * export of utils/xp.js updates one assignment at a time.
 */
module XpHandler {
  import opened Common
  import opened JsString
  import opened Eligibility
  import opened Quota
  import opened Reward
  import opened Level
  import opened Xp
  import XpProperties

  class UserProgress {
    var messageCount: nat
    var banned: bool
    var totalXP: nat
    var dayXP: nat
    var weekXP: nat
    var monthXP: nat
    var minuteXP: nat
    var dayKey: Option<string>
    var minuteKey: Option<string>
    var topCoin: int
    var lastMessageText: string
    var lastMessageAt: Option<int>

    /** The fields as a value. */
    function Snapshot(): Progress
      reads this
    {
      Progress(messageCount, banned, totalXP, dayXP, weekXP, monthXP, minuteXP,
               dayKey, minuteKey, topCoin, lastMessageText, lastMessageAt)
    }

    /** A user seen for the first time: every counter zero and no window key yet. */
    constructor (banned: bool)
      ensures Snapshot() == Progress(0, banned, 0, 0, 0, 0, 0, None, None, 0, "", None)
      ensures CalcLevel(totalXP) == 1
    {
      messageCount, this.banned := 0, banned;
      totalXP, dayXP, weekXP, monthXP, minuteXP := 0, 0, 0, 0, 0;
      dayKey, minuteKey := None, None;
      topCoin, lastMessageText, lastMessageAt := 0, "", None;
      LevelExamples();
    }

    /**
     * Handles one Telegram update for this user at `now` under the configuration `xp`,
     * changing the fields as Xp.Handle prescribes and returning its outcome.
     */
    method ProcessMessage(message: Option<Message>, now: Now, xp: Option<XpConfig>) returns (outcome: Outcome)
      modifies this
      ensures Snapshot() == Handle(old(Snapshot()), message, now, xp).user
      ensures outcome == Handle(old(Snapshot()), message, now, xp).outcome
      ensures totalXP >= old(totalXP) && CalcLevel(totalXP) >= CalcLevel(old(totalXP))
      ensures outcome.GainsXp() ==> minuteXP <= EffectiveLimits(xp).minute && dayXP <= EffectiveLimits(xp).daily
    {
      ghost var before := Snapshot();
      outcome := Dispatch(message, now, xp);
      XpProperties.XpOnlyByGrant(before, message, now, xp);
      XpProperties.GrantWithinQuotas(before, message, now, xp);
    }

    /** The early exits, the message count and the ban and text gates, in the order of utils/xp.js. */
    method Dispatch(message: Option<Message>, now: Now, xp: Option<XpConfig>) returns (outcome: Outcome)
      modifies this
      ensures Snapshot() == Handle(old(Snapshot()), message, now, xp).user
      ensures outcome == Handle(old(Snapshot()), message, now, xp).outcome
    {
      if message.None? {
        return Ignored(NoMessage);
      }
      var msg := message.value;
      if msg.from.None? || msg.from.value.isBot {
        return Ignored(NoHumanSender);
      }
      var text := Payload(msg);
      if text == "" {
        return Ignored(NoText);
      }
      if !IsGroupChat(msg.chat) {
        return Ignored(NotGroupChat);
      }
      outcome := CountAndCredit(text, now, EffectiveLimits(xp));
    }

    /** Counts the message, then stops at the ban gate and the text gate, or credits XP. */
    method CountAndCredit(text: string, now: Now, lim: Limits) returns (outcome: Outcome)
      modifies this
      ensures Snapshot() == HandleAdmitted(old(Snapshot()), text, now, lim).user
      ensures outcome == HandleAdmitted(old(Snapshot()), text, now, lim).outcome
    {
      var trimmed := Trim(text);

      messageCount := messageCount + 1;
      if banned {
        return Banned;
      }

      if !EarnsXp(trimmed) {
        lastMessageText, lastMessageAt := trimmed, Some(now.instant);
        return NotCounted;
      }
      outcome := CreditMessage(trimmed, now, lim);
    }

    /** Rolls the windows over, applies the quota gate and the clamp, and pays any level-up. */
    method CreditMessage(trimmed: string, now: Now, lim: Limits) returns (outcome: Outcome)
      modifies this
      ensures Snapshot() == CreditXp(old(Snapshot()), trimmed, now, lim).user
      ensures outcome == CreditXp(old(Snapshot()), trimmed, now, lim).outcome
    {
      RollWindows(now);
      if minuteXP >= lim.minute || dayXP >= lim.daily {
        lastMessageText, lastMessageAt := trimmed, Some(now.instant);
        return QuotaExhausted;
      }

      var gain := RequestedGain(JsLength(trimmed));
      var canGain := Grant(gain, minuteXP, dayXP, lim);

      var oldLevel := CalcLevel(totalXP);
      AddGain(canGain);
      var newLevel := CalcLevel(totalXP);

      outcome := Granted(canGain);
      if newLevel > oldLevel {
        var reward := PayLevelUp(oldLevel, newLevel);
        outcome := LeveledUp(canGain, reward);
      }

      lastMessageText, lastMessageAt := trimmed, Some(now.instant);
    }

    /** Pays 50 coin per level gained, then the milestone bonus of the new level if it has one. */
    method PayLevelUp(oldLevel: nat, newLevel: nat) returns (reward: Reward)
      requires oldLevel < newLevel
      modifies this
      ensures reward == LevelUpReward(oldLevel, newLevel)
      ensures Snapshot() == old(Snapshot()).(topCoin := old(topCoin) + reward.totalCoin)
    {
      var levelUp := newLevel - oldLevel;
      var totalBonus := levelUp * CoinPerLevel;
      topCoin := topCoin + totalBonus;
      var milestoneCoin := MilestoneBonus(newLevel);
      if milestoneCoin > 0 {
        topCoin := topCoin + milestoneCoin;
        totalBonus := totalBonus + milestoneCoin;
      }
      reward := Reward(oldLevel, newLevel, levelUp * CoinPerLevel, milestoneCoin, totalBonus);
    }

    /** Resets the day and the minute window, each when its key is no longer current. */
    method RollWindows(now: Now)
      modifies this
      ensures Snapshot() == Rollover(old(Snapshot()), now)
    {
      if dayKey != Some(now.dayKey) {
        dayKey := Some(now.dayKey);
        dayXP := 0;
      }
      if minuteKey != Some(now.minuteKey) {
        minuteKey := Some(now.minuteKey);
        minuteXP := 0;
      }
    }

    /** Adds `canGain` to the five XP aggregates. */
    method AddGain(canGain: nat)
      modifies this
      ensures Snapshot() == AddXp(old(Snapshot()), canGain)
    {
      totalXP := totalXP + canGain;
      dayXP := dayXP + canGain;
      weekXP := weekXP + canGain;
      monthXP := monthXP + canGain;
      minuteXP := minuteXP + canGain;
    }
  }
}
