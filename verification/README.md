# Amulet assistant core, modelled in Dafny

Amulet is a wearable assistant. It helps a user track and lower their carbon
emissions. The user speaks a query. A chat model answers it, calling tools as
it goes: emission calculations, emission totals, pledges to avoid an activity,
and a description of what the user sees. The answer is spoken back.

The project models four parts of the Python implementation:

- **Dialogue** (`dialogue.dfy`, `root/model/model.py`). The conversation
  thread expires after ten idle minutes. `format_inputs` builds a turn's
  opening messages. `call_tools` answers every tool call with one tool
  message. The `__call__` loop asks, dispatches and asks again until a
  response calls no tools. `Model` is a class whose `thread`,
  `lastInteraction`, `requests` and `spoken` fields its methods update.
  - Oracles: the chat provider is the script of responses it gives, and each
    tool body is a function from decoded JSON (RFC 8259) to its outcome.
    Moderation and JSON decoding are functions.
  - Round spec: `Rounds` is the loop, written as a function. `Turned` is a
    whole turn.
- **Tools** (`tools.dfy`, `root/model/tools.py`). This covers:
  - unit classification and the calculation record of `_calculate`;
  - the period-to-start-date dispatch of `get_user_emissions`;
  - the budget arithmetic of `log_emissions` and `calculate_emissions`;
  - `make_pledge`;
  - the filter and reply of `get_active_pledges`.

  `ModelTools` holds the `pledges` and `logs` collections as sequences. The
  emission-factor search, the calculator and the store's summing aggregation
  are functions of `Services`. `calendar.dfy` gives Python's proleptic
  Gregorian `datetime` arithmetic on a millisecond clock.
- **Pledge renewal** (`pledges.dfy`, `root/impacts/pledges.py`).
  `PledgeKeeper` is a class over:
  - the pledges collection (`documents.dfy` holds the record and the
    `find_one` lookup);
  - a clock that only `Sleep` advances;
  - a ghost log of renewal instants.

  Its `update_pledge` → `_keep_pledge` → `check_lag` recursion is bounded by
  a fuel argument. `RenewedTimes`, `CatchUp` and `Steady` say which renewals
  happen and when.
- **Tasks** (`tasks.dfy`, `root/tasks.py`). `Task` is a class with the
  fields `queue`, `applied`, `signature` and `process`.
  - Execution is synchronous: starting a task runs it to completion.
  - A `get` on an empty queue waits forever, modelled as `Blocked`.
  - `group`, `in_parallel` and `chain` are methods over sequences of tasks.
    Each is proved equal to a specification function on the tasks' states.

## Model

| member | source | states |
|---|---|---|
| Dialogue.Dispatch | root/model/model.py:205-214 | An unknown tool name raises the `KeyError`. A tool that completes was found, its arguments decoded, and its text is the tool's own outcome on them. |
| Dialogue.Reply | root/model/model.py:214-221 | The reply is a tool message carrying the call's id and name, whatever the outcome. Its content is stated by `ReplyContainsFailure`. |
| Dialogue.ReplyContainsFailure | root/model/model.py:205-221 | Each tool message carries its call's id and name. An unknown tool name gives the `KeyError` error text. Undecodable arguments give the decoder's error text. A raising tool gives its error text. A completed call gives the tool's text. |
| Dialogue.RepliesAnswer | root/model/model.py:205-221 | The tool messages answer their calls: one per call, in order, with matching id and name. |
| Dialogue.FormatInputs | root/model/model.py:95-124 | With a non-empty prompt the messages are exactly the system prompt and the user's words. Without one they are the current thread, unchanged, followed by the user's words. |
| Dialogue.Opening | root/model/model.py:237-238 | The opening ends with the user's words. Before them comes the current thread, or, when that is empty, the system prompt. |
| Dialogue.OpeningMessages | root/model/model.py:237-238 | The chat prompt opens a turn exactly when the current thread is empty. An empty prompt leaves just the user's words. A continuing thread gains the user's words at its end. |
| Dialogue.Current | root/model/model.py:54-61 | The getter gives the stored thread or the empty one, and drops the thread only after more than ten idle minutes. |
| Dialogue.ThreadExpiry | root/model/model.py:54-61 | The thread is kept while at most ten minutes have passed since the last interaction. This includes exactly ten minutes. Any longer wait gives an empty thread. |
| Dialogue.RoundsKeepThread | root/model/model.py:249-264 | The loop only appends. The thread it started from is a prefix of the result. The last message is the final response, and that response calls no tools. |
| Dialogue.RoundsAnswerEveryCall | root/model/model.py:249-264 | In everything the loop appends, each assistant message with tool calls is followed at once by the answers to those calls, in order. |
| Dialogue.NextRequest | root/model/model.py:251-260 | After a round with tool calls, the next request carries the thread, the assistant message and the tool replies. It offers the tools exactly when a `describe_user_view` call in that round completed. A provider with nothing left ends the turn with that request. |
| Dialogue.RoundsEnd | root/model/model.py:249-264 | The provider fails only when the responses run out, after one request per response it gave. A loop that finishes ends on a response calling no tools, having made at most one request per remaining response. |
| Dialogue.TurnPromises | root/model/model.py:237-268 | The turn has these properties. (1) The first request is the opening, sent with the tools. (2) A flagged request makes only that one request, stores nothing and says nothing. (3) A reply exists exactly when a thread is stored. (4) The stored thread extends the opening, ends with a response calling no tools, and answers every call right after it. (5) Audio comes back exactly when the final content is non-empty, and that content is what is spoken. |
| Dialogue.ProviderFailureStoresNothing | root/model/model.py:249-262 | A first response that calls tools, with no response after it, dispatches once. It makes the follow-up request, then fails without storing or speaking anything. |
| Dialogue.Model.constructor | root/model/model.py:46-47 | A new model has an empty thread, whose last interaction is the time of construction. |
| Dialogue.Model.CurrentThread | root/model/model.py:49-61 | The getter returns `Current` of the stored thread. On expiry it also stores the empty thread, without touching the last interaction. |
| Dialogue.Model.SetCurrentThread | root/model/model.py:63-65 | The setter stores the messages and sets the last interaction to now. |
| Dialogue.Model.Invoke | root/model/model.py:206-213 | One pass of the `try` gives exactly the `Dispatch` outcome, and it completes only for a known tool. |
| Dialogue.Model.CallTools | root/model/model.py:191-222 | The result is the given messages followed by `Replies`, one per call, in order. The flag is `Viewed`: some `describe_user_view` call completed without raising. |
| Dialogue.Model.Converse | root/model/model.py:248-264 | The loop makes exactly the requests of `Rounds`, in order, and ends as `Rounds` does. |
| Dialogue.Model.Open | root/model/model.py:237-238 | The messages a turn opens with are `Opening` of the current thread. An expired thread is dropped from the store. |
| Dialogue.Model.Turn | root/model/model.py:224-268 | A turn makes the requests of `Turned`, returns its reply and speaks its text. It stores the final thread at `doneAt` only when the turn completed. Otherwise it leaves the thread as the getter left it. |
| Tools.ClassifyUnit | root/model/tools.py:360-368 | The unit is accepted exactly when it is `money` or one of the six weight metrics. `money` gets the unit type `money` and the user's currency. A metric gets the type `weight` and keeps its unit. Anything else raises `ValueError` with the source's message. |
| Tools.Calculate | root/model/tools.py:348-388 | The calculation fails exactly when the unit is refused. Otherwise the record carries the given value, the original query, the substituted unit and its type. Its activity id and activity are those of the factor the search finds for the activity and unit type, and its CO2e is what the calculator gives for the value, that activity id, the unit type and the unit. |
| Tools.PeriodStart | root/model/tools.py:448-476 | A start date exists exactly for `historical`, `today`, `day`, `week`, `month` and `year`. Any other word raises `ValueError` with the source's message. |
| Tools.PeriodStartBounds | root/model/tools.py:449-471 | Every start is no later than now. The `today`, `day`, `month` and `year` starts are midnights no earlier than the start of the year. The `week` start lies on a Monday, less than seven days back. |
| Tools.CurrentIsTrackingFrequency | root/model/tools.py:443-447 | `current` gives the same start as asking for the user's tracking frequency, with no time delta. |
| Tools.EmissionsStart | root/model/tools.py:442-484 | The start fails exactly in three cases. The period, with `current` replaced by the tracking frequency, is not a known word. There is neither a period nor a time delta. Or now minus the time delta falls outside `datetime.min` .. `datetime.max`. Through `current`, an empty frequency leaves the start unbound (`UnboundLocalError`), the frequency `current` recurses without end, and any other unknown word raises the period `ValueError`. Without a period, a missing time delta gives `UnboundLocalError` and an out-of-range start gives `OverflowError`. A period gives `PeriodStart`, and a time delta gives now minus the delta. |
| Tools.UserEmissions | root/model/tools.py:427-501 | The call fails exactly when no start date can be bound. The result is formatted exactly for a tool call. The kilograms are the logged total since the start. |
| Tools.UnknownPeriodRaises | root/model/tools.py:472-476 | An unknown period word raises the period `ValueError`. |
| Tools.Lower | root/model/tools.py:549 | Each ASCII capital is replaced by its small letter, position by position. Every other character is kept. |
| Tools.LowerIdempotent | root/model/tools.py:549 | Lower-casing twice is lower-casing once. |
| Tools.NewPledge | root/model/tools.py:539-555 | A new pledge has impact 0, streak 1, equal creation and update instants, the lower-cased name, the user's id, the calculation's CO2e as its factor, and the frequency as given. |
| Tools.NameTakenAsWritten | root/model/tools.py:531 | The check as written tests the name exactly as given. Whatever it refuses, the corrected check refuses too. A name it admits but the corrected check refuses has a stored case variant that differs from it. |
| Tools.CaseVariantSlipsThrough | root/model/tools.py:531-549 | For any name that is not lower-case, with its lower-cased form stored and all stored names lower-case: the check as written admits it, the corrected check refuses it, and inserting its pledge repeats a stored name. |
| Tools.PlasticSlipsThrough | root/model/tools.py:531-549 | With `plastic` stored, the check as written admits `Plastic`. The record it inserts repeats the name `plastic`. |
| Tools.NameTakenRefusesCaseVariants | root/model/tools.py:531-533 | The corrected check refuses every case variant of a stored name. |
| Tools.AdmittedNameKeepsUnique | root/model/tools.py:531-556 | Inserting a pledge under a name the corrected check admits keeps the user's stored names lower-case and free of repeats. |
| Tools.ActivePledgesFilter | root/model/tools.py:572-576 | The filter always names the user. It restricts names exactly when some were given, and then it holds each given name lower-cased, in order. |
| Tools.FilterSelects | root/model/tools.py:572-582 | A stored pledge is selected exactly when it is the user's and, if names were given, its name is one of them lower-cased. |
| Tools.ListText | root/model/tools.py:594 | The text of a list starts with `[`, so it is never empty. |
| Tools.FallbackUnreachable | root/model/tools.py:594-595 | As written, the reply is never the fallback text. When nothing matched, it is `[]`. |
| Tools.ActivePledgesReplyAsWritten | root/model/tools.py:594-595 | As written, the reply is the listing itself, even when it is empty. |
| Tools.ActivePledgesReply | root/model/tools.py:594-595 | The corrected reply is the fallback text exactly when no pledge matched. Otherwise it is the listing. |
| Tools.ModelTools.constructor | root/model/tools.py:199-213 | The tools start on the given services and collections. |
| Tools.ModelTools.LogEmissions | root/model/tools.py:279-297 | The method inserts exactly one log entry and returns the CO2e together with the previous current total plus that CO2e. If the current total cannot be computed, it raises and inserts nothing. Pledges are unchanged. |
| Tools.ModelTools.CalculateEmissions | root/model/tools.py:390-425 | With update, the method logs the calculation and reports the budget minus the new total. Without update it reports the budget minus the sum of the CO2e and the current total, and inserts nothing. A refused unit, or a current total that cannot be computed, raises and inserts nothing. |
| Tools.ModelTools.MakePledge | root/model/tools.py:508-559 | With the corrected duplicate check (see Findings). A taken name, or a failed calculation, raises and inserts nothing. Otherwise exactly one `NewPledge` is inserted and acknowledged with the name as given. Unique lower-case names stay unique. Logs are unchanged. |
| Tools.ModelTools.MakePledgeAsWritten | root/model/tools.py:508-559 | With the duplicate check as written: a name taken exactly as given raises and inserts nothing, and otherwise the method behaves as `MakePledge`. When the stored names are lower-case and a case variant of one of them is given, the pledge is inserted and the user's names are no longer unique. |
| Calendar.DayStart | root/model/tools.py:452-458 | The start of `today` is a midnight, within one day before now. |
| Calendar.WeekStart | root/model/tools.py:459-463 | The start of `week` is now less `weekday()` days and less the hours, minutes and seconds. That is today's midnight, `weekday()` days back, with now's milliseconds kept. |
| Calendar.WeekStartIsMonday | root/model/tools.py:459-463 | Now minus `weekday()` days and minus the hours, minutes and seconds lands on a Monday, less than seven days back. |
| Calendar.MonthStart | root/model/tools.py:464-467 | The start of `month` is the midnight `day - 1` days before today's. |
| Calendar.YearStart | root/model/tools.py:468-471 | The start of `year` is the midnight that precedes the month start by the days of the earlier months. |
| Calendar.PeriodStartsNested | root/model/tools.py:452-471 | The year start, month start, day start and now are in that order. Now is within a day of the day start, and within the month's length of the month start. |
| Calendar.ClockRange | root/model/tools.py:484 | Every instant lies on the clock between `datetime.min` (0) and `datetime.max` (`MAX_MILLIS`), and both ends are instants. |
| Calendar.WeekdayAgrees | root/model/tools.py:460 | The weekday read off the millisecond clock is `datetime.weekday()`. |
| Documents.FindFirst | root/impacts/pledges.py:26 | The document `find_one` picks has the name asked for. |
| Documents.FindFirstIsFirst | root/impacts/pledges.py:26 | No earlier document has the name. There is no match exactly when no document has the name. |
| Documents.ReplaceFirstKeepsLookup | root/impacts/pledges.py:46 | After `update_one` replaces the first match by a document of the same name, that document stays the first match. |
| Documents.AppendKeepsLookup | root/model/tools.py:556 | Inserting a document never changes which document `find_one` returns for a name already stored. |
| Pledges.ReadBack | root/impacts/pledges.py:25-31 | The stamp read back keeps the stored instant. It is aware exactly when the client is `tz_aware`. |
| Pledges.SecondsDiff | root/impacts/pledges.py:50-53 | The difference raises `TypeError` exactly when the stamp is naive, and is otherwise now less the stamp. |
| Pledges.DefaultClientCannotSubtract | root/impacts/pledges.py:25-58 | As written, with the default client, `seconds_diff` raises for every stored pledge. |
| Pledges.AwareClientMeasuresLag | root/impacts/pledges.py:50-58 | Read through an aware client, `seconds_diff` is now less the last renewal, the lag `PledgeKeeper.Since` computes. It is non-negative exactly when the last renewal is not in the future. |
| Pledges.Lagged | root/impacts/pledges.py:58-62 | The number of catch-up renewals is never negative. It is zero when the last renewal lies in the future, because `range` of a negative count is empty. |
| Pledges.Remainder | root/impacts/pledges.py:58-63 | The aligning wait is positive and less than two periods. It is at most one period when the last renewal is not in the future. |
| Pledges.CatchUpCoversWaited | root/impacts/pledges.py:58-66 | The catch-up renewals are the whole periods waited. The aligning wait is positive and at most one period, and equals a period exactly when the wait was a whole number of periods. After it, exactly one more period has been covered. |
| Pledges.NegativeLagWaitsLonger | root/impacts/pledges.py:58-63 | A last renewal in the future replays nothing and waits between one and two periods. |
| Pledges.RemainderPositive | root/impacts/pledges.py:63-66 | The aligning sleep is always positive. |
| Pledges.HourlyExample | root/impacts/pledges.py:58-63 | With an hourly frequency and 7500 s waited, there are two catch-ups and then a wait of 3300 s. |
| Pledges.Load | root/impacts/pledges.py:24-31 | A missing document fails with `Missing`. A found document loads exactly when its frequency is a duration, and then gives its last renewal and that duration. |
| Pledges.FirstSteady | root/impacts/pledges.py:78-83 | The first steady renewal comes no earlier than the load, and at least one period after the last renewal. It happens at once exactly when a whole period has already passed. |
| Pledges.CatchUpShape | root/impacts/pledges.py:56-83 | A catch-up renews once per whole period waited, all at the start. The aligned renewal follows after the remainder, and then steady renewals one period plus the buffer apart. |
| Pledges.Renewed | root/impacts/pledges.py:36-47 | One renewal adds the factor to the impact, adds one to the streak and stamps the instant. Nothing else changes. |
| Pledges.RenewedTimesEffect | root/impacts/pledges.py:38-44 | `k` renewals add `k` to the streak and `k` factors to the impact. They stamp the last instant and change nothing else. |
| Pledges.RenewedTimesAppend | root/impacts/pledges.py:34-47 | Renewing over two logs in turn is renewing over their concatenation. |
| Pledges.RenewedCountEffect | root/impacts/pledges.py:38-39 | `k` renewals grow the streak by `k` and the impact by `k` factors. |
| Pledges.RenewedCountRestamp | root/impacts/pledges.py:44 | Only the instant of the last renewal survives in the document. |
| Pledges.RenewedTimesCount | root/impacts/pledges.py:34-47 | Renewing at every instant of a log equals renewing as many times as the log is long, stamped with its last instant. |
| Pledges.SteadyAt | root/impacts/pledges.py:78-83 | The `i`-th steady renewal lands `i` periods-plus-buffer after the first. |
| Pledges.SteadyAscending | root/impacts/pledges.py:78-83 | Steady renewals never run back in time. |
| Pledges.RenewalsKeepFrequency | root/impacts/pledges.py:29-47 | Renewals change neither the frequency nor whether the pledge loads. |
| Pledges.RenewedStoreUpdates | root/impacts/pledges.py:46 | The collection after the renewals is the first matching document renewed in place, and nothing else changed. Without a match it is unchanged. |
| Pledges.RenewedStoreLookup | root/impacts/pledges.py:26-46 | After renewals, `find_one` finds the same slot, holding the renewed document. |
| Pledges.StoreInSlot | root/impacts/pledges.py:46 | The renewed collection is the original one with the first match replaced by its counted renewal. |
| Pledges.CatchUpAscending | root/impacts/pledges.py:56-83 | The renewal instants of a catch-up followed by steady renewals never decrease. |
| Pledges.ScheduleRenewsPledge | root/impacts/pledges.py:56-83 | `k` replayed renewals and `n` steady ones renew the pledge `k + n` times. The last of them lands on the steady grid. |
| Pledges.CatchUpRenewsPledge | root/impacts/pledges.py:56-83 | A catch-up renews the pledge once per whole period waited plus once per steady renewal. The last renewal lands on the grid that starts at the aligned instant. |
| Pledges.CatchUpGrowth | root/impacts/pledges.py:60-67 | After `k` lagged periods, the synchronous part of `check_lag` grows the streak by `k + 1` and the impact by `k + 1` factors, and stamps the aligned instant. |
| Pledges.PledgeKeeper.DocIsFound | root/impacts/pledges.py:26 | The scheduler's document is the one `find_one` picks by name, and it stays in the slot it was first found in. |
| Pledges.PledgeKeeper.constructor | root/impacts/pledges.py:20-22 | A new scheduler is not caught up, has loaded no pledge and has renewed nothing. |
| Pledges.PledgeKeeper.Sleep | root/impacts/pledges.py:66 | Sleeping advances the clock by exactly the duration. |
| Pledges.PledgeKeeper.Since | root/impacts/pledges.py:50-53 | The time since the last renewal is non-negative exactly when the last renewal is not in the future. |
| Pledges.PledgeKeeper.AwaitPeriod | root/impacts/pledges.py:78-81 | The wait loop ends at `FirstSteady`: at once when a period has passed, otherwise one period plus the buffer after the last renewal. |
| Pledges.PledgeKeeper.InitPledge | root/impacts/pledges.py:24-31 | The result is `Load` of the named document: a missing document, or a frequency that is not a duration, fails. The found document becomes the kept copy. |
| Pledges.PledgeKeeper.RenewNow | root/impacts/pledges.py:36-47 | One renewal at the current instant is stored, logged and kept. |
| Pledges.PledgeKeeper.UpdatePledge | root/impacts/pledges.py:34-48 | Before catch-up ends, the method renews exactly once at the current instant and returns without recursing. Once caught up, it goes on renewing every period plus buffer until the fuel runs out. |
| Pledges.PledgeKeeper.KeepPledge | root/impacts/pledges.py:69-83 | A pledge that does not load stops the scheduler with no renewal. Before catch-up, the renewals are exactly `CatchUp`. Once caught up, the scheduler waits until a full period has passed since the loaded renewal, then renews steadily. Afterwards it is caught up. |
| Pledges.PledgeKeeper.CheckLag | root/impacts/pledges.py:56-67 | The renewals are one per whole period waited, at the current instant, then the aligned renewal and the steady ones after it. The scheduler ends caught up. |
| Pledges.PledgeKeeper.Align | root/impacts/pledges.py:63-67 | The scheduler is marked caught up, sleeps the remainder and then renews steadily from the aligned instant. |
| Pledges.PledgeKeeper.Replay | root/impacts/pledges.py:60-62 | `count` renewals happen, all at the current instant, with no time passing and the scheduler still not caught up. |
| Tasks.OrNone | root/tasks.py:18-20 | `res or None` gives None exactly for a falsy result, and keeps a truthy one unchanged. |
| Tasks.BoundCall | root/tasks.py:28-31 | The call's positional arguments begin with the given ones. Its keywords are the given ones together with the bound ones, when the task is signed. |
| Tasks.BoundCallMerges | root/tasks.py:28-31 | Unsigned, the call gets exactly the given arguments. Signed, the positional arguments are the given ones followed by the bound ones. The keyword set is the union, a bound keyword wins, and every other given keyword keeps its value. |
| Tasks.Applied | root/tasks.py:24-36 | `apply_async` leaves the task applied and unsigned, with a process. It keeps the queued values and adds at most one. |
| Tasks.Signed | root/tasks.py:38-43 | `s` leaves the task signed and unapplied, with an empty queue and the same process. |
| Tasks.Fetched | root/tasks.py:45-52 | `get` leaves the task unapplied and never lengthens its queue. It waits forever only on an empty queue. On an applied task it keeps the signature and the process. |
| Tasks.GetTakesOldestResult | root/tasks.py:45-52 | `get` leaves the task unapplied. It returns the oldest queued value, which may come from an earlier run, and waits forever on an empty queue. It drops the signature only when it started the task. |
| Tasks.GetIgnoresArgsOnceApplied | root/tasks.py:47-48 | On an applied task, the arguments of `get` make no difference. |
| Tasks.SignThenGet | root/tasks.py:38-52 | `s` then `get` runs the function once on the call's arguments followed by the bound ones. It returns that run's result, discards older queued results, and leaves an empty queue, unapplied and unsigned. |
| Tasks.FalsyResultIsNone | root/tasks.py:18-20 | A falsy result comes back from `get` as None. |
| Tasks.OneResultPerRun | root/tasks.py:18-20 | A run keeps the queued values and adds one more exactly when the function returned. A raising run adds none. |
| Tasks.Task.constructor | root/tasks.py:8-12 | A new task has an empty queue, is not applied, is unsigned and has no process. |
| Tasks.Task.AddQueue | root/tasks.py:14-16 | `add_queue` starts a new, empty queue. |
| Tasks.Task.Run | root/tasks.py:18-20 | One run of the wrapper appends `Put` of the function's outcome to the queue. |
| Tasks.Task.ApplyAsync | root/tasks.py:24-36 | `apply_async` runs the function on the bound call, records the call as the process, marks the task applied and drops the signature. |
| Tasks.Task.Sign | root/tasks.py:38-43 | `s` returns the same task, now signed with the arguments, unapplied and with an empty queue. |
| Tasks.Task.Get | root/tasks.py:45-52 | The new state and the result are `Fetched` of the old state. |
| Tasks.AppliedAll | root/tasks.py:89 | Each task's state after `apply_async()` with no arguments. |
| Tasks.FetchedStates | root/tasks.py:90 | Each task's state after its `get`. |
| Tasks.Fetches | root/tasks.py:90 | When every `get` delivers, there is one result per task. |
| Tasks.FetchesEach | root/tasks.py:90 | The results exist exactly when every task has a queued result. There is then one per task, in the tasks' order. |
| Tasks.GroupSpec | root/tasks.py:87-90 | `group` returns a tuple with one item per task, unless it waits forever. |
| Tasks.ParallelSpec | root/tasks.py:62-72 | The body of `in_parallel` never raises. Unless it hangs, it returns the tuple of one result per task, unwrapped when there is a single task. |
| Tasks.ChainSpec | root/tasks.py:74-85 | The body of `chain` raises exactly when there are no tasks. Unless it hangs, it returns one result per task after the first, as a tuple, unwrapped when there is exactly one such result. |
| Tasks.GroupGivesOneResultPerTask | root/tasks.py:87-90 | `group` returns one result per task, in order: each task's oldest queued value once it has run. It waits forever exactly when some task queued nothing. |
| Tasks.ParallelIsGroupUnwrapped | root/tasks.py:62-72 | The body of `in_parallel` runs what `group` runs and hangs exactly when `group` waits. It returns a single result unwrapped and otherwise the tuple. |
| Tasks.ChainFeedsFirstResult | root/tasks.py:78-83 | As written, every task after the first is fetched with the first task's result as its only argument. |
| Tasks.PipeFeedsPredecessor | root/tasks.py:74-76 | In the corrected chain, every task is fetched with its predecessor's result. |
| Tasks.ChainOfOneDeliversNone | root/tasks.py:78-83 | A chain of one task runs it and delivers None, because the empty tuple of later results is falsy. |
| Tasks.EmptyChainNeverDelivers | root/tasks.py:79 | An empty chain raises `IndexError` in its body, so its task never delivers. |
| Tasks.ChainOfThree | root/tasks.py:78-83 | Take the functions return 1, add one, add one. The chain as written gives (2, 2). The corrected chain gives (2, 3). |
| Tasks.ApplyAll | root/tasks.py:89 | For distinct tasks, the new states are `AppliedAll` of the old ones. |
| Tasks.GetOne | root/tasks.py:90 | One `get` gives `Fetched` of that task's state, and leaves every other task of a distinct sequence unchanged. |
| Tasks.GetAll | root/tasks.py:90 | For distinct tasks, the results are `Fetches` of the old states and the new states are `FetchedStates`. |
| Tasks.Group | root/tasks.py:87-90 | For distinct tasks, the result is `GroupSpec` of the old states, and each task has been applied and fetched. |
| Tasks.InParallel | root/tasks.py:65-70 | For distinct tasks, the result is `ParallelSpec` of the old states, and each task has been applied and fetched. |
| Tasks.Chain | root/tasks.py:78-83 | For distinct tasks, the result is `ChainSpec`: the first task fetched with no arguments, the rest with its result. The states are updated to match. |
| Tasks.GetEachFed | root/tasks.py:74-76 | For distinct tasks, the results are `Pipe`: each fetched with the result before it. |
| Tasks.Pipeline | root/tasks.py:74-83 | For distinct tasks, the result is `PipelineSpec`, the chain the documentation describes. |

## Left out

- Speech: transcription, speech synthesis, and the OpenAI chat, moderation and embedding calls are oracles or inputs.
  - `audio_to_text` is commented out in `root/model/model.py:68-75`, yet `__call__` calls it at line 234. The transcript is therefore an input of `Turn`.
  - Speech synthesis is the `spoken` log plus the configured output file.
- Model construction: the `__slots__` of `Model` omit several attributes that `__init__` assigns. The vision model and the tool registry are not modelled; the registry is the `tools` map.
- The clock: `datetime.now()` is an explicit argument.
  - `Dialogue.Model.Turn` reads the getter twice at the same instant, `now`. The setter's instant is `doneAt`.
  - Tools take `now` as a broken-down date; the scheduler keeps a millisecond clock.
- Keyword binding: the `**arguments` binding of a tool call is inside the tool oracle. A binding `TypeError` is one of the oracle's `Raised` outcomes.
- Error text: `Dialogue.KeyErrorRepr` renders `KeyError('name')` without Python's escaping of quotes and backslashes inside the name.
- MongoDB: the aggregation pipelines are out of scope, namely the emission sum, the grouping in `get_active_pledges` and the vector search.
  - The sum is `Services.sumSince`, and the factor search is `Services.searchFactor`.
  - The grouped documents of `get_active_pledges` are given as their rendered strings.
- Tools.Lower: folds the ASCII letters `A`-`Z` only. Python's `str.lower` also lower-cases other cased characters (`É` becomes `é`), and can change the length (`İ` becomes two code points). For names with such characters, `NewPledge`, `NameTaken` and `ActivePledgesFilter` therefore work on other strings than the source does.
- Tools.EmissionsStart: `time_delta` is a number of milliseconds. `None` stands for both `None` and the empty dict, which are both falsy. A dict whose keys `timedelta` refuses raises `TypeError` in CPython, which is not modelled. The `OverflowError` of a result outside `datetime`'s range is modelled, at millisecond resolution.
- Other tools: `emitting_activities`, `user_info`, `make_response` rounding and the `helpers` registry are not modelled.
- Floating point: CO2e and budgets are `real`; Python floats and `round(value, 2)` are not modelled.
- Time zones: all instants are UTC. The clock has millisecond resolution, while Python keeps microseconds.
- Pledges.PledgeKeeper.Since, CheckLag, KeepPledge, AwaitPeriod: stored instants are treated as UTC milliseconds, comparable with the clock.
  - `pymongo.MongoClient()` (`root/impacts/pledges.py:25`) is not `tz_aware`, so `last_updated` comes back as a naive `datetime`.
  - Subtracting it from the aware `datetime.now(tz=timezone.utc)` (line 53) raises `TypeError`. That happens in `check_lag` (line 58) before any renewal, and again in the wait loop (line 78).
  - The scheduler's model follows the aware reading; the naive one is under "## Findings".
- Two databases: `make_pledge` writes to the `spt` database named by `MONGO_URI` (`root/model/tools.py:200-205`), while `init_pledge` reads the `edge` database of the default client (`root/impacts/pledges.py:25`). So the scheduler does not find a pledge that `make_pledge` created, and `find_one` gives None. The model gives each part its own collection and does not connect them.
- Pledge frequency: `make_pledge` stores the frequency word (`"day"`), while `init_pledge` reads a frequency as `timedelta(**frequency)`. A word stored there would fail.
  - The model's `Named` frequency loads as `NotADuration`, where CPython raises `TypeError`.
  - A duration of zero or less stops the scheduler with `NotPositive`, before any renewal.
    - In CPython a zero duration raises `ZeroDivisionError` at `root/impacts/pledges.py:59`, also before any renewal.
    - A negative duration reaches `check_lag`. When `last_updated` lies in the future, `int(lagged)` renewals are written first (lines 60-62).
    - Then `caught_up` is set, and `time.sleep` raises `ValueError` on the negative remainder (lines 63-66).
- Renewal timing: the code sets `last_updated` to the moment of the renewal, including catch-up renewals. The model follows the code. It does not advance `last_updated` by one frequency per missed period.
- Scheduler recursion: `Pledges.PledgeKeeper.UpdatePledge`, `KeepPledge`, `CheckLag`, `Align` and `Replay` are bounded by a fuel argument.
  - Each steady renewal nests two more Python frames: `update_pledge` calls `_keep_pledge` (`root/impacts/pledges.py:48`), which calls `update_pledge` again (line 83).
  - Under CPython's default recursion limit of 1000 frames, the scheduler therefore stops with `RecursionError` after roughly 500 steady renewals. The model has no stack and no such limit.
  - After `CheckLag` the model's `KeepPledge` returns, where CPython's call stack keeps nesting.
- Pledges.PledgeKeeper.UpdatePledge: its renewals are stated for any fuel, including fuel past the roughly 500 steady renewals after which CPython raises `RecursionError`.
- Pledges.PledgeKeeper.KeepPledge: its steady phase is stated for any fuel, including fuel past the roughly 500 steady renewals after which CPython raises `RecursionError`.
- Pledges.PledgeKeeper.CheckLag: the steady renewals after the aligned one are stated for any fuel, past CPython's recursion limit.
- Pledges.PledgeKeeper.Align: the steady renewals from the aligned instant are stated for any fuel, past CPython's recursion limit.
  - `keep_pledge` only starts a daemon process running `_keep_pledge`, so it is not modelled.
- Tasks, `__slots__`: the `__slots__` of `Task` omit `queue` and `process`, so CPython would raise `AttributeError` when `add_queue` assigns `self.queue`. Both are modelled as ordinary fields.
- Tasks, processes: `Process` and `Queue` are replaced by synchronous execution.
  - A run that raises puts nothing in the queue, so the later `get` waits forever (`Blocked`).
  - `join` is not modelled.
- Tasks, wrapper: the `Task` that `in_parallel` and `chain` return is modelled by its body (`Run`) and what its `get` delivers (`Delivered`). It is not modelled as a second `Task` object.
- Tasks.Group: the contract holds only for distinct tasks. With one task object repeated, the source's result depends on aliasing, which is not modelled. The same limit applies to Tasks.ApplyAll, Tasks.GetAll, Tasks.InParallel, Tasks.Chain, Tasks.GetEachFed and Tasks.Pipeline.
- Tasks.Pipeline: does not state the tasks' states afterwards, only its result.
- Tasks.InParallel, Tasks.Chain: their ensures on the tasks' states describe the body run in the caller's process.
  - In CPython the body runs in the child process of the wrapper `Task` (`root/tasks.py:32-34`).
  - So the caller's `Task` objects keep their `applied`, `signature` and `process`, and only the shared queues are drained.
- Timeouts: a `get` on an empty queue is `Blocked`. Hangs and timeouts beyond that are not distinguished.

## Findings

| source | as written | input that shows it | evidently intended | confidence | as-written member | corrected member |
|---|---|---|---|---|---|---|
| root/model/tools.py:531-549 | The duplicate check tests exact membership of the name as given, while names are stored lower-cased | `plastic` stored, new pledge named `Plastic`: admitted, and a second `plastic` is stored | Refuse any name whose lower-cased form is already stored | high (not executed) | Tools.ModelTools.MakePledgeAsWritten | Tools.ModelTools.MakePledge |
| root/model/tools.py:594-595 | `str(pledge_impacts) or fallback`: the string of a list is never empty, so the fallback is never returned | no matching pledge: the reply is `[]` | The fallback text when no pledge matched | high (not executed) | Tools.FallbackUnreachable | Tools.ActivePledgesReply |
| root/tasks.py:79-80 | Every task after the first is fetched with the first task's result | tasks return 1, add one, add one: the chain gives (2, 2) | Each task is fed its predecessor's result, as the docstring says, giving (2, 3) | medium (not executed) | Tasks.ChainOfThree | Tasks.PipeFeedsPredecessor |
| root/impacts/pledges.py:25-53 | `MongoClient()` is built without `tz_aware=True`, so `last_updated` is read back naive, and `seconds_diff` subtracts it from an aware `now` | any stored pledge: `check_lag` raises `TypeError` at line 58, before any renewal | Compare the stored instant with now, e.g. through `MongoClient(tz_aware=True)` | medium (not executed; rests on pymongo's documented default) | Pledges.DefaultClientCannotSubtract | Pledges.AwareClientMeasuresLag |
