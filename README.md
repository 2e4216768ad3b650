# ScremyCoin mining app — a Dafny model of its core

ScremyCoin is a browser application in which a user "mines" a play currency.
The user earns experience and levels, Scoins (a soft currency) and SCR (the
app's coin), unlocks mining spaces by watching adverts, and fills in a
profile. Everything is kept in one record in the browser's local storage.

This project models the logic behind that, one Dafny module per source file:

- `DataService` (`src/lib/dataService.ts`): the stored record and its
  operations. These are loading with defaults, saving, merging a stats
  patch, adding to the ledger (newest first, capped at 100 entries), the
  holding upsert-and-prune, merging one mining space, the SCR price lookup
  and the reset. The local-storage slot is a `Store` object whose slot is
  empty, unparsable or holds a record.
- `CryptoContext` (`src/contexts/CryptoContext.tsx`): the account actions
  the application context offers on top of the store. An `Account` keeps
  the in-memory copy of the record. Each action checks its guard, runs its
  fixed sequence of store operations, and adopts the record the last one
  returned. Each composite action (conversion, mining credit) is specified
  by one function of the record before the call.
- `MiningCard` (`src/components/MiningCard.tsx`): the foreground mining
  session. The component state is a `Session` object, and each handler and
  timer callback is one step on it.
- `MiningSpaces` (`src/components/MiningSpaces.tsx`): the five ad-unlocked
  spaces, their one-second countdowns and the timer effect.
- `PasswordRules`, `AuthForm`, `ChangePasswordDialog`
  (`src/components/AuthForm.tsx`, `src/components/ChangePasswordDialog.tsx`):
  the password rules the two forms share, and their submit handlers.
- `ProfileForm` (`src/components/ProfileForm.tsx`): the profile checks
  and the stats patch a valid profile writes.
- `MiningUtils` (`src/lib/miningUtils.ts`): the experience curve and the
  `hh:mm:ss` formatting.
- Two shared modules hold the JavaScript built-ins the code relies on:
  `Text` (number-to-string, `padStart`, `trim`, `toUpperCase`, the
  white-space set of `\s`) and `JsArray` (`findIndex`, `filter`).

Modelling choices:

- Money and experience are `real`s.
- `Math.floor` is `.Floor`, and JavaScript's `%` is modelled as truncating.
- The clock (`Date.now()`), the random transaction-id suffix, the random
  block duration and the timer ids the host hands out are parameters.
- `calculateReward` and `SPACE_AD_DURATION` are imported from
  `src/lib/miningUtils.ts`, which does not define them. They are parameters
  of the objects that use them.
- A string's `length` counts UTF-16 code units, as JavaScript does: a
  character outside the Basic Multilingual Plane counts twice
  (`Text.Utf16Length`). The password and username length rules use it.
- The specification of the app says that 10 Scoins convert to 1 SCR. The
  code converts 10 Scoins to 0.01 SCR (`(n / 10) * 0.01`), and the model
  follows the code.

## Model

| member | source | states |
|---|---|---|
| DataService.DefaultsAreFresh | src/lib/dataService.ts:68-127 | The default record is at level 1 with no experience and 100 needed, holds one SCR holding of 0, has five spaces numbered 1..5 with only the first unlocked and none active, and has an empty ledger. |
| DataService.Store.constructor | src/lib/dataService.ts:130-133 | A fresh store has nothing saved under its key. |
| DataService.Store.InitData | src/lib/dataService.ts:135-145 | Loading returns the stored record when one parses, and otherwise the defaults. |
| DataService.Store.SaveData | src/lib/dataService.ts:148-155 | Saving stamps the record with the current time, stores it and returns it. |
| DataService.SaveThenLoad | src/lib/dataService.ts:135-155 | A record saved and then loaded comes back unchanged apart from its timestamp. |
| DataService.MergeStatsIdempotent | src/lib/dataService.ts:158-169 | Merging a stats patch twice gives the same as merging it once, and an empty patch changes nothing. |
| DataService.Store.UpdateUserStats | src/lib/dataService.ts:158-169 | Only the stats (merged with the patch) and the timestamp change, and the result is what is stored. |
| DataService.PrependTransaction | src/lib/dataService.ts:176-181 | The new entry comes first, older entries follow in order, and the ledger is cut at 100 entries. |
| DataService.Store.AddTransaction | src/lib/dataService.ts:172-186 | The draft, with id `tx-<now>-<suffix>`, becomes the ledger's head, and only the ledger and timestamp change. |
| DataService.MarketFor | src/lib/dataService.ts:191 | The market lookup finds an entry with that symbol, and finds none only when no entry has it. |
| DataService.UpdatedHoldings | src/lib/dataService.ts:189-223 | The loop version of the upsert-then-prune computes exactly the holdings the specification function describes. |
| DataService.UpdateHoldingKeepsOthers | src/lib/dataService.ts:195-214 | After the update every holding is positive, and holdings of other symbols keep their order and values, minus those that are not positive. |
| DataService.UpdateHoldingSetsSymbol | src/lib/dataService.ts:191-214 | Given at most one holding per symbol, a positive amount leaves exactly one holding with that amount and value price × amount. Any other amount leaves none. |
| DataService.UpdateHoldingAppendsNew | src/lib/dataService.ts:203-214 | A symbol not held before, set to a positive amount, is appended last after the positive earlier holdings. |
| DataService.HoldingAmountOfMatch | src/contexts/CryptoContext.tsx:205-206 | The amount read by `find` is the first matching holding's amount, or 0 when there is none. |
| DataService.UpdateHoldingReadsBack | src/lib/dataService.ts:189-223 | A positive amount set on a symbol is the amount a later lookup reads back. |
| DataService.Store.UpdateHolding | src/lib/dataService.ts:189-223 | Only the holdings (upserted and pruned) and the timestamp change, and the result is stored. |
| DataService.MergeSpaceById | src/lib/dataService.ts:226-245 | The first space with the id is merged with the patch, every other space is unchanged, and an unknown id changes nothing. |
| DataService.Store.UpdateMiningSpace | src/lib/dataService.ts:226-245 | Only the spaces and the timestamp change, and the result is stored. |
| DataService.ScrPriceLookup | src/lib/dataService.ts:248-252 | The price is the first SCR entry's price unless that price is 0; with no SCR entry, or a zero price, it is 0.15. |
| DataService.Store.GetScrPrice | src/lib/dataService.ts:248-252 | The price is the SCR price of the stored market data, and it is never 0: a missing or zero price falls back to 0.15. |
| DataService.Store.ResetData | src/lib/dataService.ts:255-259 | Reset stores a copy of the defaults stamped with the current time. |
| DataService.ResetThenLoad | src/lib/dataService.ts:255-259 | After a reset, loading returns the defaults stamped with the reset time. |
| JsArray.FindIndex | src/lib/dataService.ts:195 | The index found is the first whose element satisfies the test, and there is none only when no element does. |
| JsArray.FindIndexIsFirst | src/lib/dataService.ts:229 | The first index satisfying the test is the one `findIndex` returns. |
| JsArray.Filter | src/lib/dataService.ts:214 | Every kept element satisfies the test, and the result is no longer than the input. |
| JsArray.FilterPositions | src/lib/dataService.ts:214 | The result is the input read at strictly increasing positions, and every position whose element passes is among them: exactly the passing elements, in their original order. |
| JsArray.FilterMembers | src/components/MiningSpaces.tsx:96 | An element is kept exactly when it is in the input and satisfies the test. |
| JsArray.FilterConcat | src/lib/dataService.ts:214 | Filtering distributes over concatenation. |
| JsArray.FilterCommute | src/lib/dataService.ts:214 | Two filters commute. |
| CryptoContext.Account.constructor | src/contexts/CryptoContext.tsx:33 | The context starts from the record the store loads. |
| CryptoContext.Account.RefreshData | src/contexts/CryptoContext.tsx:38-41 | After a refresh the in-memory record is the stored one. |
| CryptoContext.Account.UpdateUserStats | src/contexts/CryptoContext.tsx:132-135 | The in-memory record is the previous one with merged stats and a new timestamp, and it matches the store. |
| CryptoContext.Account.ResetData | src/contexts/CryptoContext.tsx:138-142 | The record becomes the defaults stamped now, and the user is signed out. |
| CryptoContext.Account.UpdateMiningSpace | src/contexts/CryptoContext.tsx:167-170 | Only the spaces (merged by id) and the timestamp change. |
| CryptoContext.Account.AddScoins | src/contexts/CryptoContext.tsx:173-179 | The Scoin balance grows by the amount, and the rest of the stats are kept. |
| CryptoContext.ConversionAmounts | src/contexts/CryptoContext.tsx:196-197 | A conversion takes the largest multiple of 10 Scoins not above the balance, leaves fewer than 10, and credits a thousandth of it in SCR. |
| CryptoContext.ScrIsThousandth | src/contexts/CryptoContext.tsx:197 | `(n / 10) * 0.01` is n / 1000. |
| CryptoContext.ScoinsPatchEffect | src/contexts/CryptoContext.tsx:200-202 | A patch carrying only Scoins changes only the Scoin balance. |
| CryptoContext.Account.ConvertScoinsToScr | src/contexts/CryptoContext.tsx:181-226 | The conversion runs exactly when at least 10 Scoins are held. A refusal changes nothing, in memory or in storage. Otherwise the record becomes the converted record. |
| CryptoContext.Account.ApplyConversion | src/contexts/CryptoContext.tsx:193-217 | Its stats, holding and ledger steps together give the converted record, and the result is what is stored. |
| CryptoContext.ConversionSteps | src/contexts/CryptoContext.tsx:200-217 | The three store writes of a conversion compose to the converted record. |
| CryptoContext.ConversionLeavesScoins | src/contexts/CryptoContext.tsx:196-202 | After a conversion fewer than 10 Scoins remain and only the Scoin balance of the stats changed. The market and spaces are unchanged, and the time is stamped. |
| CryptoContext.ConversionCreditsScr | src/contexts/CryptoContext.tsx:205-207 | The SCR holding grows by a thousandth of the Scoins converted. |
| CryptoContext.ConversionEntryFields | src/contexts/CryptoContext.tsx:210-217 | The ledger entry is a completed SCR Convert of the credited amount, valued at amount × SCR price, with the generated id and time. |
| CryptoContext.ConversionLedgerHead | src/contexts/CryptoContext.tsx:210-217 | The conversion entry heads the ledger, older entries follow, and the ledger grows by one up to 100. |
| CryptoContext.Account.AddScr | src/contexts/CryptoContext.tsx:229-257 | The record becomes the mined record: the SCR holding is updated and a Mine entry is prepended. |
| CryptoContext.MineSteps | src/contexts/CryptoContext.tsx:234-248 | The holding and ledger writes of `addScr` compose to the mined record. |
| CryptoContext.MineCreditsScr | src/contexts/CryptoContext.tsx:234-238 | When the new total is positive, the SCR holding reads back the old amount plus the mined amount. |
| CryptoContext.MineLedgerHead | src/contexts/CryptoContext.tsx:241-248 | A completed SCR Mine entry of the amount heads the ledger. Stats, market and spaces are unchanged. |
| CryptoContext.ExpStepEffect | src/contexts/CryptoContext.tsx:260-296 | A level is gained exactly when the stored threshold is reached below level 10. The surplus carries over and the threshold is recomputed. Otherwise only experience grows. |
| CryptoContext.ExpStepRaisesThreshold | src/contexts/CryptoContext.tsx:269-274 | After a level-up the new threshold is above 100. |
| CryptoContext.Account.AddExp | src/contexts/CryptoContext.tsx:260-296 | The stored level, experience and threshold become the step's result. |
| MiningUtils.ExpRequiredAtLevelOne | src/lib/miningUtils.ts:7-11 | Level 1 needs 100 experience. |
| MiningUtils.ExpRequiredAtLeastBase | src/lib/miningUtils.ts:7-11 | No level from 1 up needs less than 100. |
| MiningUtils.ExpRequiredStep | src/lib/miningUtils.ts:7-11 | Each level needs strictly more than the one before. |
| MiningUtils.ExpRequiredStrictlyIncreasing | src/lib/miningUtils.ts:7-11 | The curve is strictly increasing from level 1. |
| MiningUtils.JsRem | src/lib/miningUtils.ts:21-22 | `%` keeps the dividend's sign, stays below the divisor in magnitude, and the dividend minus it is a whole multiple of the divisor (the truncated quotient times the divisor). |
| MiningUtils.ClockOfDecomposes | src/lib/miningUtils.ts:19-22 | Minutes and seconds are below 60, and hours × 3600 + minutes × 60 + seconds is the whole number of seconds. |
| MiningUtils.FormatTimeShape | src/lib/miningUtils.ts:19-29 | The text is three digit fields joined by `:`, each reading back as its clock field. Minutes and seconds are exactly two digits, and hours at least two and exactly two below 100 hours. |
| MiningUtils.FieldReadsBack | src/lib/miningUtils.ts:24-28 | A zero-padded field reads back as its number and is two digits below 100. |
| Text.NatToStringRoundTrip | src/lib/miningUtils.ts:25 | A number's decimal text reads back as that number. |
| Text.ZeroPadValue | src/lib/miningUtils.ts:25-27 | Padding digits with zeros keeps their value. |
| Text.PadStart | src/lib/miningUtils.ts:25-27 | The input is kept at the end, preceded by fill characters up to the width. |
| Text.Trim | src/components/ProfileForm.tsx:29 | The trimmed text is an infix of the input, and everything cut off on either side is white space. It is empty exactly when the input is all white space, and otherwise starts and ends with a non-space. |
| Text.Utf16Length | src/components/AuthForm.tsx:38 | A string's JavaScript length is between its character count and twice that, and equals the character count when every character is in the Basic Multilingual Plane. |
| Text.ToUpperAscii | src/components/ProfileForm.tsx:170 | Lower-case ASCII letters become upper case, and every other character is kept. |
| MiningCard.LocalExpStepEffect | src/components/MiningCard.tsx:99-116 | A level is gained exactly when the level's threshold is reached below level 10, and that threshold is subtracted. The level stays in 1..10. |
| MiningCard.Session.constructor | src/components/MiningCard.tsx:51-69 | The initial state is level 1, nothing earned, auto-mining on, no timers and a 30-second duration. |
| MiningCard.Session.AddExp | src/components/MiningCard.tsx:99-116 | Level and experience become the local step's result. |
| MiningCard.Session.StartMining | src/components/MiningCard.tsx:174-221 | Starting while mining changes nothing. Otherwise the session is mining, with the three timers registered and the counters kept. |
| MiningCard.Session.TickTime | src/components/MiningCard.tsx:207-218 | Below the 24-hour cap a second is added. At the cap the session stops if auto-mining is off. |
| MiningCard.Session.StopMining | src/components/MiningCard.tsx:224-245 | The session stops with all three handles cleared, and nothing else changes. |
| MiningCard.Session.ProcessMiningBlock | src/components/MiningCard.tsx:119-171 | A block adds one attempt, one success, the reward and 5 experience. It then schedules a restart (auto-mining on, time left) or completes and stops. |
| MiningCard.Session.ToggleAutoMining | src/components/MiningCard.tsx:248-269 | Auto-mining flips. |
| MiningCard.Session.ShareOnSocial | src/components/MiningCard.tsx:272-291 | Sharing grants 15 experience. |
| MiningCard.Session.CopyReferralLink | src/components/MiningCard.tsx:294-308 | Copying the link grants 10 experience at levels 2, 5 and 8 only. |
| MiningCard.Session.InviteFriend | src/components/MiningCard.tsx:311-324 | An invitation grants 25 experience and 10 Scoins. |
| MiningCard.Session.ResetStats | src/components/MiningCard.tsx:327-360 | The session stops and every counter, the balance, level and experience go back to their start values. Auto-mining is kept. |
| MiningSpaces.InitialSpaces | src/components/MiningSpaces.tsx:18-29 | Five spaces numbered 1..5, only the first unlocked, none active, no time on any clock. |
| MiningSpaces.MapById | src/components/MiningSpaces.tsx:35-41 | Mapping by id keeps the list's length, applies the update to every space with the id, and leaves every other space as it was. |
| MiningSpaces.TickSpace | src/components/MiningSpaces.tsx:99-108 | A tick counts down while time is left, and locks and deactivates the space once it has run out. |
| MiningSpaces.CountdownRunsOut | src/components/MiningSpaces.tsx:99-108 | A countdown of t seconds stays unlocked through t ticks, reaching 0, and the next tick locks it. |
| MiningSpaces.TimedIdsDistinct | src/components/MiningSpaces.tsx:95-97 | In a well-formed list the ids of the registered intervals are strictly increasing, so no space gets two intervals. |
| MiningSpaces.TimedIdsExact | src/components/MiningSpaces.tsx:95-97 | A space has an interval exactly when it is unlocked with time left. |
| MiningSpaces.UnlockedById | src/components/MiningSpaces.tsx:52 | The answer is true exactly when the first space carrying the id is unlocked, and false when no space carries it. |
| MiningSpaces.UnlockedByIdWellFormed | src/components/MiningSpaces.tsx:52 | In the five-space list the lookup reads space id's flag, and an id outside 1..5 reads false. |
| MiningSpaces.UnlockedFlags | src/components/MiningSpaces.tsx:118 | The effect's key is each space's unlocked flag, in list order. |
| MiningSpaces.WatchAdAgainNeverCounts | src/components/MiningSpaces.tsx:118 | As written, "Watch Ad Again" on space 1 gives it a countdown but registers no interval. |
| MiningSpaces.RenderCoversCounting | src/components/MiningSpaces.tsx:91-118 | Under the corrected rule every unlocked space with time left has an interval. Whenever the original effect reruns, both rules agree. |
| MiningSpaces.Panel.constructor | src/components/MiningSpaces.tsx:18-31 | The initial spaces, and the mount run of the effect registers no interval. |
| MiningSpaces.Panel.HandleWatchAd | src/components/MiningSpaces.tsx:34-48 | The space is unlocked with a full ad-duration countdown, and every other space is unchanged. |
| MiningSpaces.Panel.StartSpaceMining | src/components/MiningSpaces.tsx:51-72 | A locked or unknown space changes nothing. Otherwise only that space becomes active. |
| MiningSpaces.Panel.StopSpaceMining | src/components/MiningSpaces.tsx:75-88 | Only that space's active flag is cleared. |
| MiningSpaces.Panel.Tick | src/components/MiningSpaces.tsx:99-108 | One firing ticks that space alone. |
| MiningSpaces.Panel.RebuildTimers | src/components/MiningSpaces.tsx:91-118 | The intervals are exactly those of the unlocked spaces with time left. |
| MiningSpaces.Panel.Render | src/components/MiningSpaces.tsx:91-118 | After a render every unlocked space with time left has an interval. |
| PasswordRules.RuleMessagesDistinct | src/components/AuthForm.tsx:42-50 | The four rule messages are pairwise different. |
| PasswordRules.PasswordErrorFirstFailing | src/components/AuthForm.tsx:34-54 | There is no message exactly when every rule holds; otherwise the message is the first failing rule's. |
| PasswordRules.PasswordErrorMap | src/components/AuthForm.tsx:40-53 | The merged errors are empty exactly when the password is accepted, and otherwise hold one `password` message. |
| PasswordRules.AstralCharactersCountTwice | src/components/AuthForm.tsx:38 | The length rule counts code units: a password of six characters, three of them emoji, has length 9 and is accepted. |
| AuthForm.RegisterProceedsIff | src/components/AuthForm.tsx:57-89 | Registration proceeds exactly when email and password are given, the confirmation matches and every rule holds. Otherwise exactly one error is reported, email first. |
| AuthForm.Form.constructor | src/components/AuthForm.tsx:17-28 | All fields are empty, passwords are hidden, and there are no errors. |
| AuthForm.Form.ValidatePassword | src/components/AuthForm.tsx:34-54 | The result is whether every rule holds, and the first failing rule's message is merged in. |
| AuthForm.Form.HandleRegister | src/components/AuthForm.tsx:57-89 | `registerUser` is called exactly when no error is left, and the form completes only on its success. |
| AuthForm.Form.HandleLogin | src/components/AuthForm.tsx:92-112 | `loginUser` is called exactly when both fields are filled. A missing field or a refusal shows its message. |
| ChangePasswordDialog.SubmitSucceedsIff | src/components/ChangePasswordDialog.tsx:47-85 | A change succeeds exactly when the current password is non-empty, the new one is given and confirmed, and every rule holds. Otherwise one error is reported. |
| ChangePasswordDialog.CurrentPasswordUnchecked | src/components/ChangePasswordDialog.tsx:51-54 | Any two non-empty current passwords give the same outcome. |
| ChangePasswordDialog.Dialog.constructor | src/components/ChangePasswordDialog.tsx:16-21 | The fields are empty, passwords are hidden, and there are no errors. |
| ChangePasswordDialog.Dialog.ValidatePassword | src/components/ChangePasswordDialog.tsx:25-45 | The result is whether every rule holds, and the first failing rule's message is merged in. |
| ChangePasswordDialog.Dialog.HandleSubmit | src/components/ChangePasswordDialog.tsx:47-85 | A success closes the dialog, empties the fields and hides the passwords. A failure keeps them and shows its one error. |
| ProfileForm.PhoneMatchesIff | src/components/ProfileForm.tsx:48 | A phone number matches exactly when it is neither empty nor a lone `+`, and every character is a digit, space, hyphen or parenthesis, apart from a leading `+`. |
| ProfileForm.UppercasedReferral | src/components/ProfileForm.tsx:53 | With the input uppercased, a code is accepted exactly when it has 6 to 10 ASCII letters and digits, in any case. |
| ProfileForm.BlankIffTrimEmpty | src/components/ProfileForm.tsx:29 | A field is blank exactly when trimming leaves nothing. |
| ProfileForm.ErrorCount | src/components/ProfileForm.tsx:58 | The errors number at most six, and none exactly when the record is empty. |
| ProfileForm.FormValidIff | src/components/ProfileForm.tsx:26-59 | The form is valid exactly when the names and username are not blank, the username has 4+ UTF-16 code units, a country is chosen, and phone and referral are each empty or well formed. |
| ProfileForm.UsernameCountsCodeUnits | src/components/ProfileForm.tsx:39 | A username of two emoji has length 4 and passes the username checks. |
| ProfileForm.EmptyFormErrors | src/components/ProfileForm.tsx:26-59 | An untouched form reports the two names, the username and the country together. |
| ProfileForm.UsernameLengthIsUntrimmed | src/components/ProfileForm.tsx:37-41 | An all-space username is reported missing, and the length check counts padding spaces. |
| ProfileForm.ProfilePatchStores | src/components/ProfileForm.tsx:69-77 | The names, username and country are stored as typed, an empty phone or referral is stored as missing, and the profile is marked complete. Nothing else in the stats changes. |
| ProfileForm.Form.constructor | src/components/ProfileForm.tsx:18-24 | All fields are empty, and there are no errors. |
| ProfileForm.Form.SetReferralCode | src/components/ProfileForm.tsx:170 | The stored code is the input uppercased. |
| ProfileForm.Form.ValidateForm | src/components/ProfileForm.tsx:26-59 | The errors are all the failed checks of the current fields, and the result is whether there are none. |
| ProfileForm.Form.HandleSubmit | src/components/ProfileForm.tsx:61-87 | An invalid form changes nothing. A valid one merges the profile patch into the stored stats. |

## Findings

| source | as written | input that shows it | evidently intended | confidence | as-written member | corrected member |
|---|---|---|---|---|---|---|
| src/components/MiningSpaces.tsx:118 | The timer effect reruns only when some space's `unlocked` flag changes. | Space 1 starts unlocked with 0 seconds, so it shows "Watch Ad Again". Clicking it sets a countdown of `SPACE_AD_DURATION` hours (> 0) but leaves the flag `true`, so no interval is registered, and the countdown does not move until the `unlocked` flag of some other space changes (another ad is watched, or another countdown runs out). | Every unlocked space with time left counts down. | high; not executed | MiningSpaces.WatchAdAgainNeverCounts | MiningSpaces.RenderCoversCounting |

`MiningSpaces.Panel.Render` uses the corrected rule. The effect also reruns
when an unlocked space with time left has no interval. Whenever the original
rule reruns, the two rules register the same intervals.

## Left out

- Storage: local storage is a slot that is empty, unparsable or holds a record. Quota errors, other tabs, and records that parse but do not have the expected shape are not modelled. A record that parses is taken as well formed.
- Time: `Date.now()` and `new Date().toISOString()` are the `now` parameter. Timestamps are integers, not ISO strings. One `now` stands for every separate clock read of an action, so the model gives them all the same value. In a conversion, for example, the three saves, the transaction timestamp and the transaction id share it, while the source may read the clock differently each time.
- Randomness: the random part of transaction ids and the random block duration are parameters.
- `calculateReward`, `getRandomMiningDuration`, `SPACE_AD_DURATION`, `MAX_SPACE_MINING_TIME` and `formatLongTime` are imported from `src/lib/miningUtils.ts`, which does not define them. The reward function, the random block duration and the ad duration are parameters. `formatLongTime` is used only in rendering, which is left out, and `MAX_SPACE_MINING_TIME` is imported but never used.
- `DataService.getAuth`, `registerUser`, `loginUser`, `socialLogin`, `logoutUser`, `processPendingMining` and `extendMiningDuration` are called by the context but are not defined in `src/lib/dataService.ts`. The context's `registerUser`, `loginUser`, `socialLogin` and `logoutUser`, and the mount effect's `processPendingMining` are left out. `AuthForm.Form.HandleRegister` and `AuthForm.Form.HandleLogin` take the answers of `registerUser` and `loginUser` as parameters. `handleSocialLogin` is left out.
- `extendMiningDuration` (src/contexts/CryptoContext.tsx:145-163) is left out entirely. Below 5 Scoins it only shows a toast. Otherwise it calls `DataService.extendMiningDuration`, which `src/lib/dataService.ts` does not define, so the call throws and nothing in the store changes.
- Toasts, `onComplete`, `onOpenChange`, `onMiningUpdate`, `onStatsUpdate`, the progress bar value, the current-task list and all rendering are left out as presentation. The dialog's `open` flag stands for the `onOpenChange(false)` call.
- MiningCard.Session.ProcessMiningBlock: the 1.5-second restart it schedules is recorded only as the `restartScheduled` flag. The restart runs a closure holding stale state, and React's batching of state updates is not modelled. Each handler is one atomic step on the latest state.
- MiningCard.Session.StartMining: the button that calls it is disabled while the success animation shows, and when a session is complete with 24 hours of mining reached and auto-mining on (src/components/MiningCard.tsx:541, with the 24-hour test at :386). That rendering guard is not modelled, so the method may be called at any time.
- MiningSpaces.Panel.Tick: the interval of one space is one call. Interleavings of several intervals are sequences of calls. Intervals are identified by the space they count down, not by the host's handle.
- MiningSpaces.Panel.Render: the host is expected to call it after each change. It uses the corrected rerun rule (see Findings). The as-written rule is `TimersAfterRenderAsWritten`.
- Numbers are exact reals and integers: IEEE rounding, `NaN` and `Infinity` are not modelled (for example `10 * 0.001` is exact here). Levels, counts and seconds are integers.
- Text.ToUpperAscii: only ASCII letters are uppercased, whereas JavaScript's `toUpperCase` also maps other letters. Some of them map into A–Z ('ſ' to "S", 'ı' to "I", 'ß' to "SS", 'ﬀ' to "FF"), so the source accepts referral codes such as "ßßß" that the model (`ProfileForm.UppercasedReferral`, `ProfileForm.Form.SetReferralCode`) refuses.
- ProfileForm.UppercasedReferral: the iff holds for the model's ASCII uppercasing; a code made of letters that JavaScript's `toUpperCase` maps into A–Z ("ſſſſſſ", "ßßß") is accepted by the source but refused here.
- The country list (`COUNTRIES`) is not part of this model. Any non-empty country code is accepted, as the check in the code does.
- CryptoContext.Account: the in-memory record is assumed to equal the stored one whenever an action starts (`Valid`). The source keeps them in step but does not check it.
