# XP and levels of the Telegram group bot

This project models the experience-point middleware of the bot, `utils/xp.js`, and proves
properties of it. The middleware runs on every Telegram update. It passes on anything that is not a text
or caption message from a human in a group or supergroup. Otherwise it:

- counts the message;
- stops for banned users;
- stops for trimmed texts shorter than 5 UTF-16 code units or without a character of `[a-zA-Z0-9À-ỹ]` (ASCII letters and digits, and U+00C0 through U+1EF9);
- rolls the per-day and per-minute XP windows over when their keys change;
- refuses XP when a window is already full;
- clamps the 1 or 2 XP a message asks for to what is left in both windows;
- adds the grant to the five XP aggregates;
- on a level-up, pays 50 coin per level plus the milestone bonus of the new level.

The level curve is `calcLevel(xp) = max(1, floor(sqrt(xp / 5)))`.

The model has two layers:

- `Xp.Handle` is a pure function from the user record before an update to the record
  after it, tagged with an `Outcome`. It is layered as the source is: the early exits (`Eligibility.Admit`),
  the message count with the ban and text gates (`Xp.HandleAdmitted`), and the XP credit
  (`Xp.CreditXp`). It is built on the quota arithmetic (`Quota`), the level curve (`Level`)
  and the coin reward (`Reward`).
- `XpHandler.UserProgress` is a class whose fields are the user document. Its
  `ProcessMessage` method updates them in place, one assignment at a time in the order of the
  source, and is proved to leave exactly the state `Xp.Handle` prescribes.

The properties proved about `Xp.Handle` are in `XpProperties`:

- a grant leaves both windows within their limits, and a user within both quotas stays within them;
- XP moves only by the grant;
- the level never falls;
- rejected messages leave XP and coin alone;
- a level-up is exactly one level;
- over any stream of messages in one minute or one day, the XP collected is at most that window's limit.

JavaScript details are modelled explicitly:

- `length` counts UTF-16 code units (`JsString.JsLength`);
- `trim` strips the ECMAScript white-space and line-terminator set (`JsString.Trim`);
- the regex test `[a-zA-Z0-9À-ỹ]` runs on UTF-16 code units; it is proved to agree with the same class on characters (`Eligibility.WordTestOnCodeUnits`);
- `msg.text || msg.caption || ''` treats an empty string as absent (`Eligibility.Payload`);
- `config.xp?.minuteLimit ?? 5` falls back only on an unset value (`Quota.EffectiveLimits`).

The clock is a parameter. `Xp.Now` carries the instant and its day key (`YYYY-MM-DD`) and minute key
(`YYYY-MM-DDTHH:MM`), as `getDayKey` and `getMinuteKey` would compute them. The configuration
is a parameter too: `Quota.XpConfig`, `None` for an absent `config.xp`.

Two behaviours of the code are kept as written:

- The milestone bonus is the one of the exact new level (`milestoneRewards[newLevel]`), not a sum over
  every level passed. `XpProperties.LevelUpIsOneLevel` proves that the two readings agree on
  every reachable input: a grant is at most 2 XP, and consecutive level thresholds are at least 15 XP apart.
- On the banned path the handler changes `messageCount` in memory and returns without saving.
  The model keeps that change in the returned record and marks the outcome with
  `Outcome.Persists() == false`.

## Model

| member | source | states |
|---|---|---|
| Level.CalcLevel | utils/xp.js:22-25 | The level is never below 1. |
| Level.ISqrt | utils/xp.js:23 | `Math.floor(Math.sqrt(m))` for a whole `m`, computed as twice the root of `m / 4`, plus one when that still fits. Its meaning is stated by `Level.ISqrtBounds`. |
| Level.ISqrtBounds | utils/xp.js:23 | The integer square root `n` of `m` satisfies `n*n <= m < (n+1)*(n+1)`, which is `floor(sqrt(m))`. |
| Level.IsLevel | utils/xp.js:22-25 | The independent characterisation of a level `n` for `xp`: `n >= 1`, `5*n*n <= xp` unless `n` is the floor level 1 below 20 XP, and `xp < 5*(n+1)*(n+1)`. |
| Level.LevelBounds | utils/xp.js:22-25 | `IsLevel(xp, calcLevel(xp))`: `calcLevel(xp)` is at least 1. Its threshold `5*lv*lv` is reached, unless it is the floor level 1 below 20 XP. The next threshold `5*(lv+1)*(lv+1)` is not reached. |
| Level.LevelIsLargestRoot | utils/xp.js:22-25 | Every `n` with `5*n*n <= xp` is at most the level. From 5 XP on, the level's own threshold is reached, so it is the largest such `n`. Below 5 XP that `n` is 0 and the level is 1. |
| Level.LevelUnique | utils/xp.js:22-25 | Any `n` meeting those bounds is the level. |
| Level.LevelMonotone | utils/xp.js:22-25 | More XP never gives a lower level. |
| Level.LevelStepAtMostOne | utils/xp.js:22-25 | Adding at most 5 XP raises the level by at most one. |
| Level.LevelExamples | utils/xp.js:22-25 | 0 and 19 XP are level 1, 20 XP is level 2, 123 and 124 XP are level 4, and 125 XP is level 5. |
| JsString.IsWhiteSpace | utils/xp.js:43 | The characters `trim` strips: ECMAScript WhiteSpace (tab, vertical tab, form feed, space, U+00A0, U+FEFF and the space separators U+1680, U+2000-U+200A, U+202F, U+205F, U+3000) and LineTerminator (line feed, carriage return, U+2028, U+2029). |
| JsString.Trim | utils/xp.js:43 | The trimmed text is the infix left after removing white space at both ends. Everything removed is white space. The result neither starts nor ends with white space. It is empty exactly when the input is all white space. |
| JsString.TrimIdempotent | utils/xp.js:43 | Trimming twice equals trimming once. |
| JsString.JsLength | utils/xp.js:69 | The JavaScript length lies between the number of characters and twice that. It equals the number of characters when no character is above U+FFFF, and it is 0 exactly for the empty string. |
| JsString.TrimOfTrimmed | utils/xp.js:43 | A string with no white space at either end is its own trim. |
| JsString.TrimmedCharOfText | utils/xp.js:43 | Character `i` of the trimmed text is character `LeadingSpace(s) + i` of the text. |
| JsString.SolidCharSurvivesTrim | utils/xp.js:43 | A character that is not white space lies inside the trimmed infix and is kept by it. |
| JsString.CodeUnitsOf | utils/xp.js:69 | One scalar value is one code unit (itself) up to U+FFFF, and otherwise two code units, both surrogates. Every code unit is below 0x10000. |
| JsString.Utf16 | utils/xp.js:69 | The code units of a string; there are exactly `JsLength` of them, which is what `length` counts. |
| Eligibility.Payload | utils/xp.js:34 | The payload is the text when that is non-empty, and the caption or `''` otherwise. It is empty exactly when both are empty or absent. |
| Eligibility.IsGroupChat | utils/xp.js:38 | The chat is present and its type is `group` or `supergroup`. |
| Eligibility.Admit | utils/xp.js:29-40 | An update is admitted iff it is a message from a non-bot sender, with a non-empty payload, in a group or supergroup. Each early exit is stated as an iff: it is taken exactly when every earlier test passed and its own test fails, in source order. An admitted update carries its payload. |
| Eligibility.IsWordChar | utils/xp.js:69 | The class `[a-zA-Z0-9À-ỹ]` on one character, where `À-ỹ` is U+00C0 through U+1EF9. |
| Eligibility.HasWordChar | utils/xp.js:69 | `/[a-zA-Z0-9À-ỹ]/.test`: some character of the text is in the class. |
| Eligibility.IsWordUnit | utils/xp.js:69 | The same class on one UTF-16 code unit, as a regular expression without the `u` flag reads it. |
| Eligibility.WordCharFacts | utils/xp.js:69 | A word character is one code unit, outside the surrogate range, and in the code-unit class. It is white space only when it is U+1680. |
| Eligibility.WordTestOnCodeUnits | utils/xp.js:69 | The test on characters finds a match iff the test on the string's UTF-16 code units does. So the scalar model agrees with the regex as the source runs it. |
| Eligibility.EarnsXp | utils/xp.js:69 | The text gate for a trimmed text: at least 5 UTF-16 code units, and a character of the word class. Its partners are `Eligibility.TrimKeepsWordTest`, `Eligibility.WordTestOnCodeUnits` and the examples below. |
| Eligibility.TrimKeepsWordTest | utils/xp.js:43-69 | A word character of the trimmed text is one of the text. Every word character of the text other than U+1680 survives trimming, so the gate's word test on the trimmed text equals the test on the raw text except for U+1680. |
| Eligibility.OghamSpaceTrimmedAway | utils/xp.js:43-69 | U+1680 matches `[À-ỹ]`, yet `trim` removes it, so a text made of it alone earns nothing. |
| Eligibility.EarnsXpBoundary | utils/xp.js:69 | "hi!!" (4 code units) earns nothing. "hello" (5 code units with a letter) earns XP. |
| Quota.EffectiveLimits | utils/xp.js:91-92 | Each limit is the configured value when set, and 5 (per minute) or 500 (per day) when it or `config.xp` is absent. |
| Quota.Exhausted | utils/xp.js:95 | The gate: the minute window has reached its limit, or the day window has. |
| Quota.ExhaustedIsNoRoom | utils/xp.js:95-108 | The gate refuses iff one window has no room left (`max(0, limit - xp) == 0`), iff the clamp of a positive gain would be 0. |
| Quota.RequestedGain | utils/xp.js:103 | A message asks for 1 or 2 XP, and for 2 iff its trimmed length exceeds 50. |
| Quota.Grant | utils/xp.js:106-108 | The clamped gain is at most the requested gain. A positive grant fits in both windows. A smaller grant exactly fills one window. It is 0 iff nothing was asked or a window is full. |
| Quota.GrantPositive | utils/xp.js:95-115 | When neither window is full, the grant is 1 or 2, so the `canGain <= 0` exit cannot be taken. |
| Quota.PartialGrantAtDailyEdge | utils/xp.js:106-108 | At 499 of 500 daily XP, or at 4 of 5 minute XP, a long message is clamped to 1 XP. With empty windows it gets 2. |
| Reward.MilestoneBonus | utils/xp.js:140-153 | The bonus is positive exactly at the eight milestone levels, where it is the table's value. It is 0 below level 5 and above level 100. |
| Reward.LevelUpReward | utils/xp.js:131-155 | A rise from `old` to `new` pays `50*(new-old)` plus the bonus of `new`, and the total is their sum. |
| Reward.RangeMilestoneCoin | utils/xp.js:151-155 | The range reading, summing the bonuses of every level in `(lo, hi]`, is at least the bonus of `hi`. |
| Reward.SingleStepMilestone | utils/xp.js:151-155 | On a one-level rise, the exact-level bonus equals the range reading. |
| Reward.SkippedMilestoneNotAwarded | utils/xp.js:151-155 | A jump from 4 to 6 would get no bonus under the code, where the range reading gives 20. |
| Reward.RewardExamples | utils/xp.js:131-155 | 1 to 2 pays 50. 4 to 5 pays 50 + 20. 99 to 100 pays 50 + 300. |
| Xp.Outcome.Persists | utils/xp.js:62-176 | The outcomes after which the handler calls `user.save()`: NotCounted (line 72), QuotaExhausted (line 98), Granted and LeveledUp (line 176). Banned returns at line 63 without saving, and Ignored returns before the user is loaded. |
| Xp.Rollover | utils/xp.js:76-89 | Both keys become current. Each window is reset to 0 exactly when its own key changed, and kept otherwise. No other field changes. |
| Xp.RolloverIdempotent | utils/xp.js:79-89 | A second rollover at the same instant changes nothing. |
| Xp.AddXp | utils/xp.js:122-126 | All five aggregates grow by the grant, and nothing else changes. |
| Xp.CreditXp | utils/xp.js:76-155 | The outcome of the XP credit is always QuotaExhausted, Granted or LeveledUp. |
| Xp.CreditRollsOver | utils/xp.js:76-100 | The credit leaves both keys current and records the last message. It stops with QuotaExhausted exactly when a rolled-over window is full, and then changes nothing but the rollover and the last message. |
| Xp.CreditGrant | utils/xp.js:102-126 | A grant is the clamp `Quota.Grant` of the requested gain to the room left in the rolled-over windows, at least 1 and at most the requested gain. It is added to all five aggregates after rollover and keeps both windows within their limits. It falls short of the request only when it fills a window. QuotaExhausted leaves totalXP and coin alone. |
| Xp.CreditLevels | utils/xp.js:119-155 | Granted means the level is unchanged and so is the coin. LeveledUp means the level rose, the reward is for the old and new levels, and topCoin grew by exactly its total. |
| Xp.HandleAdmitted | utils/xp.js:54-74 | The message is counted. Banned and NotCounted happen exactly when the user is banned, or the trimmed text does not earn XP, and leave XP and coin unchanged. Every outcome but Banned saves, and records the trimmed text and time as the last message. |
| Xp.Handle | utils/xp.js:28-177 | Ignored happens iff an early exit applies, and then the user is untouched. Otherwise the result is the counted, gated credit. A text that earns XP from a user who is not banned goes to the XP credit. |
| XpProperties.HandleCases | utils/xp.js:28-177 | Every run either leaves XP, keys and coin untouched (Ignored, Banned, NotCounted), or is the XP credit of the counted user. |
| XpProperties.GrantWithinQuotas | utils/xp.js:95-126 | After a grant, both windows are within their effective limits. |
| XpProperties.QuotasPreserved | utils/xp.js:76-126 | With non-negative limits, a user within both quotas stays within them after any message. |
| XpProperties.CreditXpOnlyByGrant | utils/xp.js:119-155 | The credit raises totalXP, weekXP and monthXP by exactly the grant. The level does not fall. Coin moves only on a level-up. |
| XpProperties.AdmittedXpOnlyByGrant | utils/xp.js:54-155 | The same holds for a counted, gated message. |
| XpProperties.XpOnlyByGrant | utils/xp.js:28-155 | The same holds for every update: totalXP only grows, by the grant, and the level never falls. |
| XpProperties.RejectionsKeepXp | utils/xp.js:29-74 | Ignored, Banned and NotCounted leave XP, keys and coin unchanged. Banned and NotCounted still count the message. |
| XpProperties.LastMessageRecorded | utils/xp.js:69-74 | Every path past the ban check records the trimmed text and the instant as the last message. |
| XpProperties.CreditLevelUpIsOneLevel | utils/xp.js:119-155 | A level-up of the credit is a rise of exactly one level, and its bonus equals the range reading. |
| XpProperties.LevelUpIsOneLevel | utils/xp.js:119-155 | A level-up rises one level, pays 50 coin per level plus the bonus of the new level, and pays what awarding every milestone passed would pay. |
| XpProperties.EarningQuotaGate | utils/xp.js:76-100 | For a message that earns XP from a user who is not banned, the XP credit that `Xp.Handle` runs for it stops with QuotaExhausted exactly when a window, as rolled over for the current keys, is full. It then leaves totalXP alone and the windows at their rolled-over values. Either way both keys become current. |
| XpProperties.EarningGrant | utils/xp.js:102-126 | For such a message, a gain is the clamp `Quota.Grant` of the requested gain to the room left in the rolled-over windows. totalXP and both windows grow by exactly that gain. |
| XpProperties.EarningLevels | utils/xp.js:119-155 | For such a message, Granted keeps the level and the coin. LeveledUp means the level rose, the reward is `Reward.LevelUpReward` of the old and new levels, and topCoin grew by its total. |
| XpProperties.PartialGrantExample | utils/xp.js:106-126 | At 499 daily XP, a long message earns 1 XP and fills the day. |
| XpProperties.MinuteRolloverExample | utils/xp.js:85-126 | A full minute window is reset by a new minute key, and the message earns 2 XP. |
| XpProperties.FullMinuteExample | utils/xp.js:95-100 | In the same minute, a full window gives QuotaExhausted with XP unchanged. |
| XpProperties.FirstLevelUpExample | utils/xp.js:119-155 | Going from 19 to 20 XP is a level-up from 1 to 2 that pays 50 coin. |
| XpProperties.MilestoneLevelUpExample | utils/xp.js:119-155 | Going from 123 to 125 XP reaches milestone level 5 and pays 50 + 20 coin. |
| XpProperties.BannedGetsNothing | utils/xp.js:61-64 | A banned user never gains XP or coin. |
| XpProperties.Run | utils/xp.js:28-177 | Over any stream of updates, totalXP and the level never fall. |
| XpProperties.MinuteRoomShrinks | utils/xp.js:85-126 | Within one minute window, the XP gained by a message plus the room left afterwards is at most the room before. |
| XpProperties.DayRoomShrinks | utils/xp.js:79-126 | The same holds for the day window. |
| XpProperties.MinuteQuotaOverRun | utils/xp.js:85-126 | Any number of messages in one minute window earn at most the room left in it, and at most the minute limit. |
| XpProperties.DayQuotaOverRun | utils/xp.js:79-126 | Any number of messages in one day window earn at most the room left in it, and at most the daily limit. |
| XpHandler.UserProgress.constructor | utils/xp.js:45-52 | A new user has every counter at 0, no window keys and level 1. |
| XpHandler.UserProgress.ProcessMessage | utils/xp.js:28-177 | The fields become exactly `Xp.Handle` of the old fields, and the outcome is its outcome. totalXP and the level do not fall. A grant leaves both windows within their limits. |
| XpHandler.UserProgress.Dispatch | utils/xp.js:29-40 | The early exits, in place. The new state and outcome are those of `Xp.Handle`. |
| XpHandler.UserProgress.CountAndCredit | utils/xp.js:55-74 | The count, the ban gate and the text gate, in place. The new state and outcome are those of `Xp.HandleAdmitted`. |
| XpHandler.UserProgress.CreditMessage | utils/xp.js:76-176 | Rollover, quota gate, clamp, aggregates, reward and last message, in place. The new state and outcome are those of `Xp.CreditXp`. |
| XpHandler.UserProgress.PayLevelUp | utils/xp.js:131-155 | topCoin grows by the total of `Reward.LevelUpReward`, which is returned, and no other field changes. |
| XpHandler.UserProgress.RollWindows | utils/xp.js:79-89 | The new state is `Xp.Rollover` of the old. |
| XpHandler.UserProgress.AddGain | utils/xp.js:122-126 | The new state is `Xp.AddXp` of the old. |

## Left out

- Persistence: `User.findOne`, `User.create` and `user.save()` are not modelled, and neither are the `username`, `role` and default-admin fields of `models/User.js`, which is not part of this model (utils/xp.js:2, 7-9, 45-52, 72, 98, 176). The record is a value passed in and returned, and `Outcome.Persists()` says whether the source would save it.
- The daily-mission hooks `ensureDailyMission` and `updateMissionProgress` (utils/xp.js:4, 58-59) are calls into `modules/missionSystem.js`, which is not part of this model. `updateMissionProgress` receives the user document. The model treats both hooks as leaving every modelled field unchanged. `XpProperties.BannedGetsNothing`, `XpProperties.RejectionsKeepXp` and the rule that coin moves only on a level-up rest on that.
- The level-up reply `ctx.reply` and its `try`/`catch` (utils/xp.js:157-169) send to Telegram. The reward the reply announces is returned in the `LeveledUp` outcome instead.
- `next()`, `async` and `await` are control transfer and concurrency. Any interleaving of two updates for the same user is not modelled.
- A JavaScript string holding a lone surrogate code unit cannot be represented: a Dafny `string` holds Unicode scalar values, so texts are well-formed UTF-16 here.
- `getDayKey` and `getMinuteKey` (utils/xp.js:12-19) format `new Date()`. The clock and the two keys are parameters (`Xp.Now`).
- Level.CalcLevel: computes `floor(sqrt(xp / 5))` exactly, as the integer square root of `xp / 5` rounded down, which equals it for every whole `xp >= 0`. The rounding of JavaScript's floating-point division and `Math.sqrt` is not modelled.
- Quota.EffectiveLimits: limits are integers. A fractional `config.xp` limit would make JavaScript grant a fractional gain. A non-numeric one such as `"abc"` passes the quota gate, because every comparison with NaN is false (utils/xp.js:95). `canGain` is then NaN (utils/xp.js:106-108), the `canGain <= 0` exit is not taken (utils/xp.js:110), and `+= canGain` makes all five XP fields NaN (utils/xp.js:122-126). Neither case is modelled.
- The `canGain <= 0` exit (utils/xp.js:110-115) is not written as a branch. With integer limits it is unreachable, as `Quota.GrantPositive` and `Xp.CreditGrant` prove.
- XP fields count whole XP and are never negative (`nat`). A stored negative total, or a missing one, is not modelled.
- weekXP and monthXP are only ever increased: the handler never resets them, and no reset is modelled.
