# Status-channel reconciler of nekochanbot, in Dafny

nekochanbot is a Discord bot that gives each tracked voice channel (the
*source*) a read-only companion voice channel (the *mirror*). The mirror
sits in a category whose name contains "STATUS", and its name shows how many
people are in the source: `<source name>：<n> users`. The bot keeps this
name up to date while respecting Discord's rate limits, and keeps its tables
consistent when channels come and go. The repository holds three revisions of
the same bot. Each has its own throttling rule, and each is modelled:

| revision | throttle | module |
|---|---|---|
| `nekochanbot2.py` | 429 cooldown, per-channel processing flag, guild-wide summary channel | `FlagReconciler`, `FlagGuard`, `Summary`, `SweepRules`, `Commands`, `Records` |
| `app/nekochanbot2.py` | at most two renames per five-minute window, plus a 429 cooldown | `WindowReconciler` |
| `nekochanbot.py` | one rename per five minutes after the last recorded update | `CooldownReconciler` |

Shared modules:
- `Text`: whitespace collapsing, `strip`, the 100-character cut, ASCII lower-casing, substring search and decimal digits.
- `Names`: user counts, mirror and summary labels, and the status-category tests.
- `Platform`: ids, time in whole seconds, and the outcomes of Discord calls.
- `ZeroRule`: the "zero users for five minutes" bookkeeping.
- `Common`: `Option` and map helpers.

## How it is modelled

Each routine's effect on one channel is a pure function on that channel's
entry. Examples are `FlagReconciler.UpdatePass`, `WindowReconciler.RegisterPass`
and `CooldownReconciler.ReadyPass`. The lemmas state what these functions
promise, alone and over series of calls.

Each revision's module dictionaries are the fields of a `Tracker` class
(`Summary.SummaryTracker` for the summary tables). Its methods update the
fields under the guard of that revision and are proved against the pure
functions:
- in `nekochanbot2.py` the guard is the processing flag;
- in the two other revisions it is the per-channel `asyncio.Lock`.

Loops of the source are methods with invariants:
- the summary count;
- the sweep plan and the summary sweep;
- the deletion lookup;
- the command lookup;
- the database load;
- the category lookup;
- the start-up loop of `nekochanbot.py`.

The model takes the following as inputs:
- time, as whole seconds;
- member lists;
- the fetched mirror name;
- the outcome of every create, fetch and edit call.

Where the bot's description and its code disagree, the model follows the code:
- In every revision the forced "0 users" label is the same string as the ordinary label. An empty channel is therefore shown as "0 users" at the first update that may rename it, not after five minutes. The five-minute rule only decides when the notice is recorded as given (`FlagReconciler.ZeroShownAtOnce`, `WindowReconciler.ZeroShownAtOnce`).
- The first mirror name in `nekochanbot2.py` uses the source name cut to 65 characters, while updates use the full stored name. For longer names the first update renames even though the count did not change (`Names.InitialNameMayDisagree`).

## Model

| member | source | states |
|---|---|---|
| Text.NormaliseShape | nekochanbot2.py:439 | every written name has at most 100 characters, no two adjacent whitespace characters, no leading whitespace, and no trailing whitespace unless the cut produced it |
| Text.NormaliseKeepsVisible | nekochanbot2.py:439 | normalising only changes spacing: the non-whitespace text is kept, entirely when nothing is cut and as a prefix otherwise |
| Text.NormaliseFixesClean | nekochanbot2.py:284 | a name that is already clean and at most 100 characters long passes through unchanged |
| Text.NormaliseStable | nekochanbot2.py:439 | normalising twice equals normalising once whenever the first result is shorter than 100 characters |
| Text.ContainsAt | nekochanbot2.py:265 | the substring test `in` holds exactly when the needle occurs at some offset |
| Text.ContainsLower | nekochanbot2.py:265 | an occurrence survives lower-casing both strings |
| Text.ParseInt | nekochanbot2.py:810 | `int(arg)` succeeds exactly on non-empty strings of decimal digits |
| Text.ParseDigits | nekochanbot2.py:180 | reading back a number written in decimal gives the number, as when a document key is turned back into a channel id |
| Text.DigitsInjective | nekochanbot2.py:421 | different counts are written as different digit strings |
| Names.NonBotCount | nekochanbot2.py:416 | the non-bot count is at most the member count; it equals the member count exactly when there are no bots, and it is 0 exactly when all members are bots |
| Names.Cap | nekochanbot2.py:417 | a shown count is at most 999, and it is the true count unless that exceeds 999 |
| Names.MirrorNameExact | nekochanbot2.py:421 | for a clean base name of at most 90 characters, the written name is exactly `<base>：<n> users` |
| Names.MirrorNameInjective | nekochanbot2.py:440 | for a clean short base, two labels are equal exactly when their counts are equal, so comparing names is the same as comparing counts |
| Names.MirrorNameShape | nekochanbot2.py:439 | every label fits Discord's 100-character limit, has no adjacent whitespace and does not start with whitespace |
| Names.InitialNameAgrees | nekochanbot2.py:282-284 | for source names of at most 65 characters, the first mirror name equals the label that updates aim for |
| Names.InitialNameMayDisagree | nekochanbot2.py:282-284 | for a 66-character source name, the first mirror name differs from the label that updates aim for |
| Names.StrictImpliesStatus | app/nekochanbot2.py:176 | a category accepted by the case-sensitive test of the later revisions is also accepted by the case-blind test of `nekochanbot2.py` |
| Names.StatusNotStrict | app/nekochanbot2.py:176 | the converse fails: "Status" passes the case-blind test but not the case-sensitive one |
| Names.FindStatusCategory | nekochanbot2.py:264-267 | returns the first category, in guild order, that passes the status test; no result means that no category passes |
| ZeroRule.Observe | nekochanbot2.py:423-429 | a user closes the zero entry; the first empty observation opens one at `now`, not yet notified; later empty observations keep it unchanged |
| ZeroRule.MarkNotified | nekochanbot2.py:442 | marking the notice as given keeps the start of the empty spell and sets the notified flag |
| ZeroRule.ReplayEmptySpell | nekochanbot2.py:424 | throughout an empty spell the entry keeps the time the spell began |
| ZeroRule.ReplayForgets | nekochanbot2.py:429 | an observation with users forgets everything before it |
| ZeroRule.SpellStart | nekochanbot2.py:423-427 | the recorded start is the first empty observation after the last non-empty one, and the notice falls due exactly five minutes after it |
| ZeroRule.NoticeOnce | nekochanbot2.py:426 | once the notice is recorded, it is never due again while the spell lasts |
| FlagGuard.Step | nekochanbot2.py:395-400 | a routine that finds the flag set changes nothing; otherwise it sets the flag and enters; leaving clears the flag |
| FlagGuard.StepConsistent | nekochanbot2.py:462-464 | one allowed enter or leave keeps the flags equal to "someone is inside", with at most one routine per channel |
| FlagGuard.RunConsistent | nekochanbot2.py:395-400 | over any legal interleaving of routines, at most one routine is inside the guarded part for each channel at every point |
| FlagGuard.NestedEnterSkipped | nekochanbot2.py:737-739 | a guarded routine that is called while its caller holds the flag for the same channel does nothing |
| FlagReconciler.UpdateTarget | nekochanbot2.py:403-447 | a rename is attempted exactly when both channels exist, no cooldown is in force, the channel is tracked, the mirror was fetched and it shows a name other than the normalised label for the capped count under the full stored name |
| FlagReconciler.UpdateKeepsTracking | nekochanbot2.py:389-464 | an update never changes what is tracked |
| FlagReconciler.UpdateCooldown | nekochanbot2.py:447-458 | a successful rename clears the cooldown; a 429 sets it to `now + retry_after`, or `now + 60` without a hint; other outcomes leave it unchanged |
| FlagReconciler.UpdateZeroEntry | nekochanbot2.py:423-429 | an update that gets past the guards drops the zero entry when users are present and opens it at `now` on a first empty observation |
| FlagReconciler.NoticeOnlyWhenDue | nekochanbot2.py:440-449 | the notice is recorded only for an empty channel that has been empty for five minutes, and only once the mirror shows the zero label or a rename to it was issued |
| FlagReconciler.ZeroShownAtOnce | nekochanbot2.py:421-427 | the first update that sees an empty channel already renames to the zero label |
| FlagReconciler.CooldownSilences | nekochanbot2.py:413-415 | while a cooldown is in force, any number of updates change nothing and rename nothing |
| FlagReconciler.RateLimitBackoff | nekochanbot2.py:452-455 | after a 429, no rename is attempted until `retry_after` seconds (60 without a hint) have passed |
| FlagReconciler.ReplayKeepsTracking | nekochanbot2.py:389-464 | a series of updates never changes what is tracked |
| FlagReconciler.CorrectNameIsLeftAlone | nekochanbot2.py:440-443 | a mirror that always shows the right label is never renamed |
| FlagReconciler.RegisterOutcome | nekochanbot2.py:306-336 | registration succeeds exactly when there is no usable mirror and one is created, and it then stores the guild, the new mirror and the name with no zero entry and no cooldown; a usable mirror leaves the entry unchanged; otherwise the channel ends untracked |
| FlagReconciler.RegisterIdempotent | nekochanbot2.py:306-318 | registering again once the new mirror is in place changes nothing and returns False |
| FlagReconciler.DeletionOutcome | nekochanbot2.py:696-709 | after a deletion the channel stays tracked exactly when the mirror was deleted, the source is still a voice channel and a new mirror is created; the zero entry and the cooldown are always cleared |
| FlagReconciler.Tracker.Update | nekochanbot2.py:389-464 | skipped while the flag is set; otherwise the channel's entries become what `UpdatePass` gives and every other channel's are kept; the flag ends as it began |
| FlagReconciler.Tracker.UnregisterInternal | nekochanbot2.py:359-387 | removes the channel from `vc_tracking`, `vc_zero_stats` and the cooldown map and touches nothing else; it names the recorded mirror for deletion exactly when the channel was tracked |
| FlagReconciler.Tracker.Unregister | nekochanbot2.py:344-357 | does nothing while the flag is set; otherwise, under the flag, it clears the channel's three entries and names the recorded mirror for deletion exactly when the channel was tracked |
| FlagReconciler.Tracker.Register | nekochanbot2.py:295-342 | returns False and changes nothing while the flag is set; otherwise the entry becomes what `RegisterPass` gives, and the requested name is the label built from the source name cut to 65 characters |
| FlagReconciler.Tracker.HandleDeletion | nekochanbot2.py:691-711 | does nothing while the flag is set; otherwise the entry becomes what `DeletionPass` gives |
| FlagReconciler.Tracker.RepairAsWritten | nekochanbot2.py:735-741 | as written, the sweep's repair task leaves the channel untracked and returns False, whatever the platform answers |
| FlagReconciler.Tracker.Repair | nekochanbot2.py:735-741 | the intended repair: the channel stays tracked exactly when a new mirror is created, and the new mirror is requested under the initial label |
| Summary.TotalAppend | nekochanbot2.py:498-503 | the user total over two runs of channels is the sum of their totals |
| Summary.TotalIgnoresStatus | nekochanbot2.py:501-502 | a channel inside a status category adds nothing to the total; any other channel adds its non-bot members |
| Summary.TotalBounded | nekochanbot2.py:503 | the total never exceeds the number of members across all channels |
| Summary.PassTarget | nekochanbot2.py:505-515 | a summary pass only writes `Study/Work：<capped total> users`, only when the channel shows something else, and only when the channel is recorded and is a voice channel |
| Summary.PassDropsStale | nekochanbot2.py:486-491 | a summary channel that is no longer a voice channel is forgotten |
| Summary.CountUsers | nekochanbot2.py:498-503 | the counting loop computes the total over the counted channels |
| Summary.RunPass | nekochanbot2.py:480-528 | the step-by-step body gives the same result as the summary pass |
| Summary.PassCooldown | nekochanbot2.py:493-526 | a summary rename is attempted exactly when the recorded channel is still a voice channel, no cooldown is in force and the label differs from the current name; success clears the cooldown, a 429 sets it `retry_after` (or 60) seconds ahead, any other failure and every pass without an attempt leave it unchanged |
| Summary.PassBackoff | nekochanbot2.py:493-522 | after a rename meets a 429, every later pass before the cooldown ends attempts nothing and leaves the summary entry as it was, whatever the members, names and outcomes |
| Summary.SummaryTracker.Update | nekochanbot2.py:468-534 | skipped while the guild's flag is set; otherwise the guild's entries become what the pass gives, every other guild keeps its entries, and the flag is released |
| Summary.SummaryTracker.Sweep | nekochanbot2.py:763-772 | guilds the bot cannot see lose their summary channel, all other entries are kept, and exactly the visible recorded guilds are due for an update |
| SweepRules.Decide | nekochanbot2.py:725-759 | the sweep refreshes a name only for a voice source whose mirror is a voice channel in a status category |
| SweepRules.GenericUnreachable | nekochanbot2.py:757-759 | the catch-all unregister branch of the sweep is never taken |
| SweepRules.RepairExactlyWhenInvalid | nekochanbot2.py:732-756 | for a visible tracked voice source, the sweep refreshes exactly when the mirror is usable, and otherwise fixes the category or recreates the mirror; it never drops such an entry |
| SweepRules.UnregisterExactly | nekochanbot2.py:728-746 | a tracked entry is dropped by the sweep exactly when its guild is gone or its source is no longer a voice channel |
| SweepRules.PlanSweep | nekochanbot2.py:722-759 | the sweep loop schedules exactly one task per tracked id, as the case split decides, and never the catch-all |
| SweepRules.SummaryAffectedIffCounted | nekochanbot2.py:677 | a deletion triggers a summary update exactly when the deleted channel is one that the summary counts |
| SweepRules.ClassifyDeleted | nekochanbot2.py:681-689 | only voice channels are handled; a tracked source is its own entry; otherwise the first entry in table order whose mirror is the deleted channel in that guild is used; a zero id is ignored |
| Commands.NahCheck | nekochanbot2.py:786-789 | `!!nah n` purges exactly when `0 < n <= 100` (no upper bound in the other revisions), with a limit of `n + 1` |
| Commands.ExactIsPartial | nekochanbot2.py:813-816 | an exact case-blind match is also a partial match |
| Commands.FindByName | nekochanbot2.py:812-816 | returns the first voice channel whose name equals the argument ignoring case, and only when there is none, the first whose name contains it; no result means that no name contains it |
| Commands.FindTarget | nekochanbot2.py:810-816 | a numeric argument is only looked up as an id; any other argument is looked up by name |
| Commands.NahVc | nekochanbot2.py:817-826 | a missing or non-voice target is refused, a channel in a status category is refused, a tracked channel is untracked, and any other channel is tracked |
| Commands.NahVcToggles | nekochanbot2.py:821-826 | issuing the command twice on the same channel returns to the starting state |
| Commands.NahVcNeverTracksMirror | nekochanbot2.py:818 | a channel in a status category is never tracked |
| Records.Convert | nekochanbot2.py:182-183 | a field is absent exactly when it is missing, and a stored number is taken as it is |
| Records.Accept | nekochanbot2.py:178-189 | a document yields an entry exactly when its key reads as a number, its guild and mirror ids read as non-zero numbers and a name is present (an empty name is accepted), and the entry then holds exactly those values; a missing name or a zero or missing id always skips it |
| Records.SaveLoad | nekochanbot2.py:196-201 | loading what the save wrote gives back the entry, for non-zero guild and mirror ids |
| Records.LoadedSound | nekochanbot2.py:176-189 | every loaded entry comes from an accepted document that no later document overrides, and it has non-zero ids |
| Records.LoadedComplete | nekochanbot2.py:176-189 | the id of every accepted document is in the table |
| Records.LoadedSize | nekochanbot2.py:190 | the reported count is at least the table size |
| Records.Load | nekochanbot2.py:170-194 | the load loop empties the table and then fills it document by document, as the filter decides |
| WindowReconciler.Consume | app/nekochanbot2.py:440-444 | after a successful rename the window is `(now, 1)` when it was absent or expired; otherwise it is counted once more from the same start |
| WindowReconciler.UpdateTarget | app/nekochanbot2.py:357-436 | a rename is attempted exactly when the guards pass, the mirror shows another name and the window allows it; the name is the label under the full stored name |
| WindowReconciler.UpdateWindow | app/nekochanbot2.py:439-463 | the window only moves on a successful rename, as `Consume` says |
| WindowReconciler.EqualNameConsumesNothing | app/nekochanbot2.py:411-415 | a mirror that already shows the label uses up nothing: no rename, and the same window, cooldown and tracking |
| WindowReconciler.UpdateCooldown | app/nekochanbot2.py:449-455 | success clears the cooldown; a 429 sets it `retry_after` (or 300) seconds ahead; other failures leave it unchanged; while it is in force the update does nothing |
| WindowReconciler.NotFoundUnregisters | app/nekochanbot2.py:398-401 | a mirror found gone while updating removes the tracking entry, the window, the zero entry and the cooldown |
| WindowReconciler.ZeroShownAtOnce | app/nekochanbot2.py:377-392 | the first update that sees an empty channel renames to the zero label and opens the zero entry at `now` |
| WindowReconciler.UntrackedSilent | app/nekochanbot2.py:371-374 | an untracked channel is never renamed |
| WindowReconciler.WindowBudget | app/nekochanbot2.py:418-431 | over updates within five minutes of `t0`, starting from a window opened at or after `t0`, the successful renames plus those already counted never exceed two |
| WindowReconciler.RegisterOutcome | app/nekochanbot2.py:241-281 | registration succeeds exactly when there is no usable mirror (case-sensitive test) and one is created, and then starts afresh with no zero entry, cooldown or window |
| WindowReconciler.RegisteredMayRename | app/nekochanbot2.py:268-273 | after a successful registration neither the cooldown nor the window holds back the first update |
| WindowReconciler.RegisteredUpdate | app/nekochanbot2.py:273 | the first update after a successful registration renames exactly when the mirror shows a label other than the full source name's |
| WindowReconciler.Tracker.Update | app/nekochanbot2.py:337-463 | waits for ever on a held lock; otherwise the channel's four entries become what `UpdatePass` gives and the other channels' are kept |
| WindowReconciler.Tracker.Unregister | app/nekochanbot2.py:283-323 | removes the tracking entry, the window, the zero entry and the cooldown, and names the recorded mirror exactly when the channel was tracked |
| WindowReconciler.Tracker.RegisterAsWritten | app/nekochanbot2.py:241-275 | as written, a successful registration never returns and leaves the channel's lock held for ever; every other path returns False |
| WindowReconciler.Tracker.Register | app/nekochanbot2.py:237-281 | the intended registration: the first update runs after the lock is released, success is reported, and the mirror is requested under the full source name |
| CooldownReconciler.RetryDelay | nekochanbot.py:371 | a 429 waits for the server's hint when it is non-zero, and for the full five minutes otherwise |
| CooldownReconciler.UpdateTarget | nekochanbot.py:324-364 | a rename is attempted exactly when five minutes have passed since the recorded time, both channels exist, the channel is tracked and the mirror shows another name |
| CooldownReconciler.UpdateStamp | nekochanbot.py:361-381 | the recorded time becomes `now` after a rename or when the name is already correct, and `now + retry_after` after a 429; it does not move otherwise; tracking never changes |
| CooldownReconciler.RateLimitDelay | nekochanbot.py:369-373 | after a 429 nothing happens until `retry_after` plus five minutes have passed |
| CooldownReconciler.WaitingSilences | nekochanbot.py:324-329 | until five minutes after the recorded time, any number of updates change nothing |
| CooldownReconciler.OneRenamePerCooldown | nekochanbot.py:324-366 | within any five-minute span at most one rename succeeds |
| CooldownReconciler.RegisterOutcome | nekochanbot.py:227-261 | registration succeeds exactly when there is no usable mirror and one is created, and the new entry is at once eligible for an update; a failed creation adds nothing |
| CooldownReconciler.RegisteredUpdate | nekochanbot.py:255-256 | the first update after a successful registration renames exactly when the mirror shows another label |
| CooldownReconciler.ReadyOutcome | nekochanbot.py:410-452 | at start-up, an entry survives exactly when its guild and source exist and it has or gets a usable mirror; a surviving entry keeps its guild and stored name, gets the old or the new mirror id, is refreshed and is eligible at once |
| CooldownReconciler.Tracker.Update | nekochanbot.py:315-381 | waits for ever on a held lock; otherwise the channel's entries become what `UpdatePass` gives |
| CooldownReconciler.Tracker.Unregister | nekochanbot.py:263-301 | removes the tracking record and the recorded time, and names the recorded mirror exactly when the channel was tracked |
| CooldownReconciler.Tracker.RegisterAsWritten | nekochanbot.py:227-258 | as written, a successful registration never returns and leaves the channel's lock held for ever; every other path returns False |
| CooldownReconciler.Tracker.Register | nekochanbot.py:223-261 | the intended registration: the first update runs at once after the lock is released, and success is reported |
| CooldownReconciler.Tracker.ReconcileAsWritten | nekochanbot.py:405-456 | as written, the loop completes only when no entry needs a refresh, having written every entry as `ReadyPass` gives; otherwise it stops for good at the first id that needs a refresh or whose lock is already held: the entries before it are written as `ReadyPass` gives, its own too unless its lock was held, that id's lock is held for ever, and the later ids and all unlisted ids are untouched |
| CooldownReconciler.Tracker.Reconcile | nekochanbot.py:405-452 | the intended start-up loop: every tracked id's entry becomes what `ReadyPass` gives, other entries are kept, and the ids to refresh are returned |

## Left out

- The Flask keep-alive server, logging and the one-minute keep-alive task: these are I/O only.
- Firestore reads and writes: the database appears only as the documents fed to `Records.Load` and the document `Records.Saved` describes.
- The summary channel's database removal is also left out.
- Discord API calls (create, edit, delete, fetch, purge, send): their outcomes are inputs. Deleting a mirror is only named, as the id an unregistration returns.
- Time-outs (`wait_for`) are not modelled separately. They are folded into `FetchFailed`, `EditFailed` and `CreateFailed`.
- `asyncio` scheduling is not modelled. Each routine is one step on the tables. `create_task` interleavings appear only through the flag model in `FlagGuard` and the locks held for ever in the two `Tracker` classes; waiting on a lock that is later released is not modelled.
- `retry_after` is a float in the source and a whole number of seconds here. `datetime` is whole seconds.
- `str.lower` is modelled on ASCII letters only, and `int(...)` on plain ASCII digit strings (no sign, no surrounding whitespace, no underscores).
- `Text.IsSpace` lists Python's whitespace characters; Unicode details beyond that list are not modelled.
- The start-up pass of `nekochanbot2.py` (`on_ready`, lines 537-625) is not modelled. Its inner name update runs while the task holds the channel's flag, so it is always skipped, as `FlagGuard.NestedEnterSkipped` states.
- The start-up pass of `app/nekochanbot2.py` (lines 468-556) is not modelled either. It has the self-deadlock that `CooldownReconciler.Tracker.ReconcileAsWritten` shows for `nekochanbot.py`: line 495 holds the channel's lock while lines 522 and 547 await the name update, which takes the same lock at line 344.
- The voice-state and channel-create handlers of `app/nekochanbot2.py` and `nekochanbot.py` are not modelled. They only decide which of the modelled routines to schedule.
- The channel-delete handler of `nekochanbot.py` (lines 527-576) is not modelled. It acts on the tables itself, under the channel's lock. When the mirror was deleted and the source remains, it drops the record, creates a mirror and stores a new record directly, without calling registration and without touching the recorded update time. Otherwise it unregisters.
- The channel-delete handler of `app/nekochanbot2.py` (lines 626-675) is not modelled. When the mirror was deleted and the source remains, it clears the four tables itself. It then awaits `register_new_vc_for_tracking` (line 664) while holding the channel's lock (taken at line 646), and registration takes that lock again at line 241. The lock is not re-entrant, so this deadlocks like the `app/nekochanbot2.py:241-275` finding, even earlier, and it is reached for every deleted mirror whose source still exists, and it is not modelled.
- The periodic sweeps of `app/nekochanbot2.py` and `nekochanbot.py` are not modelled. The `nekochanbot2.py` sweep, `SweepRules.PlanSweep`, is.
- Both of those sweeps stall for good when a repair's registration succeeds. The repairs await registration after releasing the lock: `nekochanbot.py` lines 615 and 627, `app/nekochanbot2.py` lines 711 and 725. Registration then hangs, as `CooldownReconciler.Tracker.RegisterAsWritten` and `WindowReconciler.Tracker.RegisterAsWritten` show, so the rest of that pass never runs.
- The `on_voice_state_update` and `on_guild_channel_create` handlers of `nekochanbot2.py` are not modelled. They only schedule modelled routines.
- Only the `nekochanbot2.py` database filter is modelled. The loads of the other revisions skip documents with an empty name and do not convert fields.
- The `!!nah_sum` command (creating or removing the summary channel) and the help command are not modelled.
- The message-history scan of `app/nekochanbot2.py` (lines 823-839) is not modelled.
- Exceptions that escape a routine are not modelled. They are only reached through calls whose failures are already inputs here.
- FlagReconciler.Tracker.RepairAsWritten: the postcondition only covers the case where the flag is free at the start. With the flag already set the task returns at once, which the method also does.

## Findings

| source | as written | input that shows it | evidently intended | confidence | as-written member | corrected member |
|---|---|---|---|---|---|---|
| nekochanbot2.py:735-741 | the sweep's repair tasks (also lines 749-755) set the channel's processing flag, unregister the channel and then call `register_new_vc_for_tracking`, which sees the flag and returns False | a tracked voice channel whose mirror sits in a category without "status" in its name, with mirror creation succeeding | the channel is registered again with a new mirror in a status category | not executed | FlagReconciler.Tracker.RepairAsWritten | FlagReconciler.Tracker.Repair |
| nekochanbot.py:227-258 | `register_new_vc_for_tracking` awaits `update_dynamic_status_channel_name` while it holds the channel's `asyncio.Lock`, which that update acquires again; the lock is not re-entrant | any registration whose mirror creation succeeds | the first update runs after the lock is released, and registration returns True | not executed | CooldownReconciler.Tracker.RegisterAsWritten | CooldownReconciler.Tracker.Register |
| nekochanbot.py:405-456 | the start-up loop awaits the name update while it holds the channel's lock | one tracked entry whose guild, source and mirror all exist | every entry is checked, the names are refreshed, and the periodic task starts | not executed | CooldownReconciler.Tracker.ReconcileAsWritten | CooldownReconciler.Tracker.Reconcile |
| app/nekochanbot2.py:241-275 | `register_new_vc_for_tracking` awaits the name update while it holds the channel's lock, which that update acquires again | any registration whose mirror creation succeeds | the first update runs after the lock is released, and registration returns True | not executed | WindowReconciler.Tracker.RegisterAsWritten | WindowReconciler.Tracker.Register |
