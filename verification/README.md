# Jarvis host, voice line, page and extension: a verified model

Jarvis drives Outlook, OneNote, meeting recordings, a phone-like voice line and a browser for one
user. This project models the parts of it whose correctness is hardest to see and proves what they
promise, for all inputs and all runs. `dafny verify dfyconfig.toml` checks everything.

| file | what it models |
|---|---|
| `ComWorker.dfy` | the COM worker: one thread serving a queue of futures, with cancellation and replacement of a wedged thread, over all interleavings of the caller, the live thread and written-off threads |
| `FreeBusy.dfy`, `WorkHours.dfy` | Exchange free/busy strings, work windows, the slot grid |
| `Slots.dfy`, `CommonWindows.dfy`, `Planner.dfy` | meeting proposals, all common windows, the multi-meeting planner |
| `Paging.dfy`, `PagingOneRow.dfy`, `PagingUnread.dfy` | listing a folder page by page with a text cursor, and exactly when that loses nothing |
| `MailQuery.dfy`, `Calendar.dfy` | the search-box compiler, the reader of the condition it writes, and its calendar ranges |
| `VoiceLine.dfy` | the far end of a call: sentences played 20 ms at a time, paused, resumed and cut |
| `Recorder.dfy` | meeting capture: device buffers, resampling in pieces, chunks and dropped silence |
| `OneNote.dfy` | CDATA escaping and the grouping of paragraphs into payloads |
| `WsClient.dfy` | the page's reconnecting socket |
| `WorkTabs.dfy`, `WorkTabsAlone.dfy`, `WorkTabsRuns.dfy`, `WorkTabsSight.dfy`, `WorkTabsClosing.dfy`, `WorkTabsTaken.dfy` | the extension's per-chat work tabs, with every `await` an interleaving point; what each handler does by itself, when a tab is closed in sight or as a window's last, and when a tool is given another chat's tab |

Code that changes state is a class whose methods are proved equal to a step of a state machine (the
`View()` of the object after the call is the step applied to the `View()` before it); the invariants
and run theorems are about that machine, and the classes of the COM worker, the socket and the tabs keep
its invariant. Loops are methods proved against a specification function, and what the source promises
is proved about that function.

## Where the code does not do what it says

These are proved, not guessed: each has a lemma with the failing case and the condition under which the
code is right.

- Following cursors lists everything asked for, in every finished run, if and only if two conditions hold
  (`PagingUnread.ListingIsExact`). First, no two mails asked for lie strictly inside the same second,
  because a cursor keeps whole seconds; otherwise paging one row at a time ends without one of them
  (`PagingOneRow.AHidingSecondLosesARow`). Second, with `unread_only`, every read mail that the store lets
  through is older than every unread one, or is passed over because a newer unread one ends its second: a
  page whose rows are all read ends the listing (`PagingUnread.ReadRowEndsListing`).
- A window of `common_windows` is free at every instant if the grid step is no longer than the meeting
  (`CommonWindows.InstantsAreFree`); for every rule with a longer step in which some status blocks there
  are people for whom it is not (`CommonWindows.LongStepMergesBusyTime`). The callers' steps of 15 and 30
  minutes with meetings at least that long satisfy the condition.
- `ceil_to_grid` yields the first grid instant for every instant if and only if the step divides the
  hour or is 59 minutes (`WorkHours.CeilIsNextGridInstant`); the callers use 15 and 30.
- `OR` "joins its two neighbours", but an `OR` that follows a `folder:` term joins the term behind it to
  the last term before the folder. The compiler's chains are those of the documented reading if and only
  if no term has such an `OR` before it (`MailQuery.ChainsAreNeighbours`, `MailQuery.OrReachesOverFolder`).
- `pull` drops, for good, a chunk whose number the caller claims to have had already
  (`Recorder.PullWithholds`).
- `WsClient` can hold two reconnect timers, and one of them survives `close()`, if and only if
  `new WebSocket` throws while an older socket is installed (`WsProtocol.CarefulRunsAreTidy`,
  `WsProtocol.ThrowingOverASocketDoublesTimers`).
- `closeWorkTab` should not "yank a page out from under the user", nor "take the window down with it".
  - A tab is closed in sight exactly if something brought it into sight after the look and nothing hid it
    again: the user, a tool that shows its tab, another handler that closed the active tab of that window
    or the last tab of the window in front (`TabsSight.ClosedInSightExactly`); or if it was in sight at the
    look and the browser did not say which window is in front. Each of the three does it:
    `TabsSight.ATabInSightCanBeClosed`, `TabsSight.AShownTabCanBeClosed`, `TabsSight.AnHeirCanBeClosed`.
    If since the earliest look of any closing handler the user did nothing, no tool showed a tab and the
    browser answered, no tab is closed in sight (`TabsSight.NoneIsClosedInSight`).
  - A tab is closed as its window's last exactly if, since the user last did something, handlers closed all
    but one of the window's tabs (`TabsClosing.ClosingHarmsExactly`). Two chats that end together do it:
    both count two tabs and close both, and the window is lost, though the user did nothing
    (`TabsClosing.AWindowIsLost` from the start of the worker, `TabsClosing.TwoClosingsEmptyAWindow`
    wherever two work tabs are the only tabs of a window).
- `targetTab` can be given another chat's tab: exactly when that tab is active and is not, as that
  chat's, in the tabs it consults (`TabsTaken.TakenIffNotRemembered`). That happens between the creation
  of a tab and its remembering (`TabsTaken.ANewTabCanBeTaken`) and, for a tab long remembered and saved,
  after two loads at once (`TabsTaken.ARememberedTabIsTaken`). It does not happen in runs with one load
  at a time, which succeeds, everything saved before an unloading, one tab at a time created by a chat, no
  question about a tab still to be remembered, and no forgetting of a live tab but by its closing
  (`TabsTaken.OrderlyRunsKeepTabsApart`). Where any one of these fails, a tab can be given away
  (`TabsTaken.ALostTabIsTaken`, `AFailedLoadLosesTabs`, `AnUnloadingLosesATab`, `ALateSaveLosesATab`,
  `ASecondTabIsLost`, `ANewTabCanBeTaken`, `ALateForgettingLosesATab`).

## Model

| member | source | states |
|---|---|---|
| ComProtocol.RespawnKeepsInv | packages/host/jarvis_host/com.py:135-154 | replacing a wedged thread keeps the whole invariant: queues, threads, futures, order of calls, status and timing stay consistent |
| ComProtocol.CancelKeepsInv | packages/host/jarvis_host/com.py:245-252 | cancelling or abandoning a job keeps the invariant, whatever state its future is in |
| ComProtocol.TakeKeepsInv | packages/host/jarvis_host/com.py:263-266 | a dequeue by any thread, live or written off, keeps the invariant |
| ComProtocol.ClaimKeepsInv | packages/host/jarvis_host/com.py:267-268 | claiming a future, or discarding a cancelled job, keeps the invariant |
| ComProtocol.FinishKeepsInv | packages/host/jarvis_host/com.py:280-283 | the book-keeping after a call keeps the invariant, also when the thread was written off meanwhile |
| ComProtocol.ResolveKeepsInv | packages/host/jarvis_host/com.py:284-287 | resolving the future keeps the invariant: no thread still owns the job and the status does not name it |
| ComProtocol.StepKeepsInv | packages/host/jarvis_host/com.py:135-287 | every atomic step of the caller or of any thread keeps the invariant |
| ComProtocol.ReachableInv | packages/host/jarvis_host/com.py:93-287 | the invariant holds after every run, in every interleaving |
| ComProtocol.EachJobInExactlyOnePlace | packages/host/jarvis_host/com.py:135-287 | every submitted job is in exactly one place: waiting in the current queue, in the live thread's hand, running in exactly one thread, cancelled, or finished |
| ComProtocol.JobIsQueuedOnce | packages/host/jarvis_host/com.py:142-151 | no job is on a queue twice, and only the current queue holds jobs |
| ComProtocol.CallsInSubmissionOrder | packages/host/jarvis_host/com.py:199-205 | functions are called in submission order, each at most once, also across respawns; a called job is running or finished |
| ComProtocol.CancelledIsNeverCalled | packages/host/jarvis_host/com.py:246-268 | a cancelled job stays cancelled and its function is never called, whatever happens afterwards |
| ComProtocol.OnlyLiveThreadTakesWork | packages/host/jarvis_host/com.py:151-154 | only the live thread can hold, claim or call a job; a written-off thread finds nothing but the stop token |
| ComProtocol.RespawnMovesTheLine | packages/host/jarvis_host/com.py:142-154 | when the respawn check replaces the thread, that thread is inside a call; the waiting jobs are on the new queue in the same order, the old queue holds exactly the stop token |
| ComProtocol.LateFinishKeepsStatus | packages/host/jarvis_host/com.py:280-283 | the late finish of a written-off thread leaves the status of the new thread's job alone |
| ComProtocol.StatusNamesTheLiveCall | packages/host/jarvis_host/com.py:183-195 | the job reported in flight is running in the live thread, and `restarts` is the number of written-off threads |
| ComProtocol.RespawnsAreSpaced | packages/host/jarvis_host/com.py:139-153 | any two replacements are at least `wedge_after_s` apart |
| ComProtocol.LongCallIsReplaced | packages/host/jarvis_host/com.py:135-154 | over runs: a call begins and its thread is still live and inside it after any further steps; then the respawn check adds a thread and counts a restart if and only if the time passed since the call began is at least `wedge_after_s`, and otherwise changes nothing |
| ComProtocol.NoCallNoRespawn | packages/host/jarvis_host/com.py:138-141 | with no call in progress the respawn check changes nothing |
| ComProtocol.WaitingJobIsNeverStranded | packages/host/jarvis_host/com.py:263-287 | while a job waits, the live thread can make a step unless it is inside a call |
| ComProtocol.RunKeepsBooks | packages/host/jarvis_host/com.py:269-283 | over any run, completed calls plus calls in progress are the calls begun |
| ComProtocol.AbandonsAreCounted | packages/host/jarvis_host/com.py:245-252 | over any run, `abandoned` is the number of jobs given up after they were claimed |
| ComWorker.Worker.Start | packages/host/jarvis_host/com.py:117-129 | a thread is started on the current queue exactly if none is alive; the invariant is kept |
| ComWorker.Worker.RespawnIfWedged | packages/host/jarvis_host/com.py:135-154 | the state machine's respawn step, after which a call in progress has lasted less than `wedge_after_s` |
| ComWorker.Worker.MoveJobs | packages/host/jarvis_host/com.py:144-150 | the drain loop moves exactly the jobs of the old queue, in order, without stop tokens |
| ComWorker.Worker.Status | packages/host/jarvis_host/com.py:179-195 | when no thread takes a step between its two parts, the respawn check and the snapshot: the state after the check, and never a job that is not running |
| ComWorker.Worker.Snapshot | packages/host/jarvis_host/com.py:183-195 | the locked block of `status` by itself, which other steps may precede: it reports the state it finds, and never a job that is not running |
| ComWorker.Worker.Submit | packages/host/jarvis_host/com.py:199-205 | when no thread takes a step between its parts, start, respawn check and put: the job gets the next number and the invariant is kept |
| ComWorker.Worker.Put | packages/host/jarvis_host/com.py:203-205 | the put by itself, which other steps may precede: the job gets the next number, at the end of the current queue |
| ComWorker.Worker.Abandon | packages/host/jarvis_host/com.py:245-252 | when no thread takes a step between its parts: cancels exactly if the job was not claimed, and then it has not been called; otherwise counts it as abandoned |
| ComWorker.Worker.Cancel | packages/host/jarvis_host/com.py:246-252 | the cancellation by itself, which other steps may follow: it succeeds exactly if the job was not claimed, and otherwise the job counts as abandoned |
| ComWorker.Worker.Take | packages/host/jarvis_host/com.py:264-266 | the dequeue step of thread t, keeping the invariant |
| ComWorker.Worker.Claim | packages/host/jarvis_host/com.py:267-268 | the claim step of thread t, keeping the invariant |
| ComWorker.Worker.Begin | packages/host/jarvis_host/com.py:269-275 | the start of the call by thread t, keeping the invariant |
| ComWorker.Worker.Finish | packages/host/jarvis_host/com.py:280-283 | the book-keeping step of thread t, keeping the invariant |
| ComWorker.Worker.Resolve | packages/host/jarvis_host/com.py:284-287 | the resolve step of thread t, keeping the invariant |
| FreeBusy.ParseFreeBusy | packages/host/jarvis_host/outlook.py:617-643 | the two nested loops yield the blocks of the string and the instant where the data ends |
| FreeBusy.BlocksInOrder | packages/host/jarvis_host/outlook.py:632-643 | blocks are non-empty, ascending, disjoint and inside the published stretch |
| FreeBusy.BlocksAreRuns | packages/host/jarvis_host/outlook.py:634-642 | every block is one whole maximal run of one code that is not free |
| FreeBusy.BlocksCoverTheCodes | packages/host/jarvis_host/outlook.py:617-643 | some block of a status reaches into a slot exactly when some character under the slot decodes to it |
| FreeBusy.FitsIffCodesAllow | packages/host/jarvis_host/outlook.py:617-686 | end to end, from the string: a person fits a slot iff the slot ends within the data and every character whose time reaches into it is 0, or stands for a status that does not block: 1 tentative, 3 out of office, 4 working elsewhere, everything else busy |
| FreeBusy.SlotBlockers | packages/host/jarvis_host/outlook.py:670-686 | the blockers are exactly the people who cannot come, in order, each named, with no data as the reason if and only if the slot ends after the data and otherwise the status of the first block reaching into it that counts; the others listed are exactly those who can come and have a block of work elsewhere in the slot; no blockers exactly when the slot fits everyone |
| FreeBusy.BlockersAreThose | packages/host/jarvis_host/outlook.py:670-686 | the same of the lists as they are built, for any people and any slot |
| FreeBusy.BlockersCount | packages/host/jarvis_host/outlook.py:670-686 | there are as many blockers as people who cannot come |
| FreeBusy.NobodyBlocksIffFits | packages/host/jarvis_host/outlook.py:754-755 | no blockers exactly when every person's data reaches the end of the slot and no block that counts overlaps it |
| FreeBusy.ObstacleSeparates | packages/host/jarvis_host/outlook.py:778-785 | a start that fails between two that fit keeps those two slots from overlapping |
| WorkHours.WorkWindows | packages/host/jarvis_host/outlook.py:646-659 | the windows are in order, one per work day, and cover exactly the instants of the interval that are in the work hours of one of the first five days of a week |
| WorkHours.CeilIsNextGridInstant | packages/host/jarvis_host/outlook.py:662-667 | the result is the first grid instant not before the given one, for every instant, if and only if the hour leaves a remainder of at most one minute when divided by the step: for divisors of 60 and for 59 |
| WorkHours.GridMembers | packages/host/jarvis_host/outlook.py:705-717 | the starts tried are exactly those a whole number of steps after the first that leave room for the meeting |
| WorkHours.StartsAscend | packages/host/jarvis_host/outlook.py:705-717 | the starts tried over all windows are strictly ascending |
| Sorting.SortSorted | packages/host/jarvis_host/outlook.py:721 | a sort by a total order is sorted (that it is a permutation is the contract of `Sort`) |
| CommonSlots.FindCommonSlots | packages/host/jarvis_host/outlook.py:689-729 | the slots are the greedy choice among the starts that fit, the near misses the ranked pick among the others, empty when enough slots were found; each slot and near miss is as long as the meeting and names exactly the people it should, with the right reasons |
| CommonSlots.GreedyIsOptimal | packages/host/jarvis_host/outlook.py:715-716 | no choice of candidates a gap apart is longer (up to the limit), and the k-th element of any choice is no earlier than the k-th taken |
| CommonSlots.SlotsAreOptimal | packages/host/jarvis_host/outlook.py:698-717 | the proposals fit everyone, are max(spread, duration) apart, and are as many and as early as any such choice of grid starts up to the limit |
| CommonSlots.NearMissesAreSpacedMisses | packages/host/jarvis_host/outlook.py:718-726 | near misses are blocked grid starts, at most `limit`, pairwise spaced |
| CommonSlots.NearMissesAreBest | packages/host/jarvis_host/outlook.py:721-726 | near misses come in order of the number of people who cannot come, then of time; a start that someone cannot make is left out only if one no worse in that order lies within the spread, or the list is full of ones no worse |
| CommonSlots.NearMissesAreMisses | packages/host/jarvis_host/outlook.py:705-713 | every near miss is as long as the meeting and names exactly the people who cannot come, in order, each with the right reason |
| CommonWindows.RunsAreMaximal | packages/host/jarvis_host/outlook.py:771-784 | merging yields maximal runs of fitting starts, separated, in order, and covering every one |
| CommonWindows.DayExact | packages/host/jarvis_host/outlook.py:771-784 | a grid start of a day lies in one of its windows with room for the meeting iff it fits everyone |
| CommonWindows.SpansAreExact | packages/host/jarvis_host/outlook.py:758-785 | the same over all days: the windows are every stretch in which the meeting fits, and nothing else |
| CommonWindows.InstantsAreFree | packages/host/jarvis_host/outlook.py:766-784 | every instant of a window is free for everyone, whenever the step is no longer than the meeting |
| CommonWindows.LongStepMergesBusyTime | packages/host/jarvis_host/outlook.py:777-783 | for every rule whose step is longer than the meeting and in which some status blocks there are people and a window with a blocked instant inside |
| CommonWindows.SpansAreDisjoint | packages/host/jarvis_host/outlook.py:770-785 | windows come in order and do not overlap, within a day and across days |
| CommonWindows.FindCommonWindows | packages/host/jarvis_host/outlook.py:758-785 | the loops report exactly those spans, in order, and with each exactly the optional people, in order, whom some meeting inside it suits |
| CommonWindows.ScanDay | packages/host/jarvis_host/outlook.py:771-784 | one window of the walk adds exactly the spans of that day |
| CommonWindows.Report | packages/host/jarvis_host/outlook.py:788-807 | the names are those of exactly the optional people, in order, who fit a meeting that begins at the start of the window or a whole number of steps later and ends in it; no list when nobody is optional |
| CommonWindows.HasRoomMeans | packages/host/jarvis_host/outlook.py:799-806 | the walk finds room exactly if some meeting a whole number of steps from the start, and over by the end, suits the person |
| CommonWindows.UnavailableDays | packages/host/jarvis_host/outlook.py:810-827 | the loop lists the days of the windows without a slot that fits the person, in window order |
| CommonWindows.FullDaysAreThoseWithoutRoom | packages/host/jarvis_host/outlook.py:810-827 | the days listed are ascending, and a day is listed iff no meeting on the grid of its window suits the person |
| CommonWindows.UnavailableDayHasNoSpan | packages/host/jarvis_host/outlook.py:758-827 | a day listed for a required person contains no common window |
| Planner.FindBest | packages/host/jarvis_host/outlook.py:868-888 | the search finds the earliest day with any possible start and on it the start that the fewest optional people miss, counted as the people who do not fit, the earliest on ties; nothing exactly when there is none |
| Planner.BestInWindow | packages/host/jarvis_host/outlook.py:872-886 | the scan of one window finds the start that the fewest optional people miss, the earliest on ties, with their number; nothing exactly when the meeting may start nowhere in it |
| Planner.BusyAreThose | packages/host/jarvis_host/outlook.py:905 | the optional people listed as busy are exactly those who do not fit, in order |
| Planner.MayStartIs | packages/host/jarvis_host/outlook.py:874-879 | the test of the loop (earliest start, taken times, everyone free) is: on the grid, everyone of all meetings and of this one free, overlapping no meeting placed, and `min_gap` after the last one placed of its request |
| Planner.PlacedWasOpen | packages/host/jarvis_host/outlook.py:875-896 | each placed meeting is on the grid of a window, fits its required people, overlaps none placed before it, is late enough after its predecessor, and no possible start is better: earlier day, then fewer optional people missing, then earlier |
| Planner.PlacedApart | packages/host/jarvis_host/outlook.py:877-895 | no two placed meetings overlap, whoever they are for |
| Planner.PlacedInCommonWindow | packages/host/jarvis_host/outlook.py:855-895 | each placed meeting lies inside a window that `common_windows` reports for its people |
| Planner.RepeatsAreSpaced | packages/host/jarvis_host/outlook.py:876-896 | repeats of a request come in order, each at least `min_gap` after every earlier one |
| Planner.SortedProposalsFollow | packages/host/jarvis_host/outlook.py:907-908 | sorted by start, the proposals come one after the other without overlap |
| Planner.Scarcest | packages/host/jarvis_host/outlook.py:855-864 | the order is all requests, those with the least common time first, requests with the same time in the order given |
| Planner.RoomOf | packages/host/jarvis_host/outlook.py:855-859 | `room` is the total time of the request's common windows |
| Planner.TotalTimeAdds | packages/host/jarvis_host/outlook.py:855-859 | that total is the sum of the lengths of the windows |
| Planner.PlanRequest | packages/host/jarvis_host/outlook.py:865-906 | the meetings of one request: all of them placed, or a prefix and exactly one unplaced entry, each choice the documented one |
| Planner.OfRequestAre | packages/host/jarvis_host/outlook.py:865-906 | the events by which a request is settled are exactly its own, in order |
| Planner.PlanMeetings | packages/host/jarvis_host/outlook.py:837-908 | each meeting is placed on the earliest day on which it may start, where the fewest optional people miss it, earliest on ties, given those placed before it; one is refused if and only if it may start nowhere; every request is settled, scarcest first and requests with the same common time in the order given; the reply lists one proposal for each meeting placed, with its start, end, people and exactly the optional people who cannot come, in order of time without overlap, and one entry for each refused |
| Planner.ReportAccounts | packages/host/jarvis_host/outlook.py:889-906 | the entries made along the way: one proposal for each meeting placed, one entry for each refused, with the fields of that meeting |
| Cursors.DecodeInvertsEncode | packages/host/jarvis_host/outlook.py:397-407 | decoding gives back the bound and the ids, for any ids that are not empty and hold no comma |
| Paging.ReadTable | packages/host/jarvis_host/outlook.py:1189-1209 | reading in chunks yields exactly the first `limit` wanted rows, in order, or all there are, and stops behind the last of them; `more` says whether rows are left |
| Paging.ListItems | packages/host/jarvis_host/outlook.py:1234-1253 | a page is what one query of the unchanged folder yields under the cursor: the first 25 wanted rows, or as many as asked for between 1 and 500, or the unread ones among them, with a cursor exactly if it shows anything and rows are left |
| Paging.PageInStep | packages/host/jarvis_host/outlook.py:1211-1222 | a page returns missing rows only; a null cursor means nothing is missing, any other admits exactly what is |
| Paging.RunReturnsTheMissing | packages/host/jarvis_host/outlook.py:1169-1253 | from any reachable cursor a run returns the missing rows only, each once and newest first, all of them if it is finished |
| Paging.PagingIsComplete | packages/host/jarvis_host/outlook.py:1169-1253 | following cursors from the first page returns every row exactly once, newest first, for any limits and any reordering of equal times between pages, in at most one page more than there are rows |
| Paging.PagingNeedsTheCondition | packages/host/jarvis_host/outlook.py:1218-1222 | if a second holds two rows strictly inside it, every run of one-row pages misses a row |
| Paging.HidingPair | packages/host/jarvis_host/outlook.py:1218-1222 | an instance: two rows strictly inside one second, and a finished run that returns only the first |
| PagingOneRow.OneRowRun | packages/host/jarvis_host/outlook.py:1169-1253 | paging one row at a time comes to an end for every folder, from every cursor that names rows of its second or newer |
| PagingOneRow.AHidingSecondLosesARow | packages/host/jarvis_host/outlook.py:1218-1222 | for every folder with two rows asked for strictly inside one second: a finished run that misses a row |
| PagingUnread.ListingIsExact | packages/host/jarvis_host/outlook.py:1169-1253 | for every folder: every finished run, for any limits and any order of equal times, returns every row asked for, if and only if no second hides a row asked for and no read row stands in the way of an unread one |
| PagingUnread.UnreadListingIsExact | packages/host/jarvis_host/outlook.py:1242-1253 | where no second hides any row, read ones included, the condition with `unread_only` is that no read row the store lets through is as new as an unread one |
| PagingUnread.ReadRowEndsListing | packages/host/jarvis_host/outlook.py:1244-1252 | for every folder with a read row in the way of an unread one: a finished run that misses an unread row |
| PagingUnread.InexactFilterExample | packages/host/jarvis_host/outlook.py:1244-1252 | an instance: a read mail newer than an unread one |
| Calendar.NumberIsInjective | packages/host/jarvis_host/mailsearch.py:107-122 | a day number has one date, so arithmetic on day numbers is arithmetic on dates |
| Calendar.TheFirstOf1970 | packages/host/jarvis_host/mailsearch.py:107-122 | 1970-01-01 is day 719163, a Thursday |
| Calendar.MonthStarts | packages/host/jarvis_host/mailsearch.py:107-122 | how many days of a year come before each of its months, leap years included |
| Calendar.ThirtyTwoDays | packages/host/jarvis_host/mailsearch.py:120 | 32 days after the first of a month, cut back to the first, is the first of the next month, for every month |
| Calendar.DayBeforeMonth | packages/host/jarvis_host/mailsearch.py:121 | the day before the first, cut back to the first, is the first of the previous month |
| Calendar.WeekRangesMeet | packages/host/jarvis_host/mailsearch.py:110-119 | yesterday and last week end exactly where today and this week begin, and the latter hold today |
| Calendar.WeekRangesAreWeeks | packages/host/jarvis_host/mailsearch.py:116-119 | both week ranges run from a Monday to the next and hold exactly the days of their week |
| Calendar.MonthRangesMeet | packages/host/jarvis_host/mailsearch.py:120-121 | last month ends exactly where this month begins, and this month holds today |
| Calendar.MonthRangesAreMonths | packages/host/jarvis_host/mailsearch.py:120-121 | both month ranges run from a first to the first of the following month |
| Calendar.Names | packages/host/jarvis_host/mailsearch.py:111-122 | the words for the ranges, two of the days in two languages |
| Calendar.NamesMean | packages/host/jarvis_host/mailsearch.py:108-124 | what each word means: today, the day before, the week from Monday that today is in and the one before, this month and last month |
| Calendar.OneDate | packages/host/jarvis_host/mailsearch.py:137-138 | a date alone covers its day, and one that cannot be read is an error |
| Calendar.OneOperator | packages/host/jarvis_host/mailsearch.py:128-136 | each comparison operator reads as its one-sided range of days, `>=` and `<=` before `>` and `<` |
| Calendar.OperatorsAgree | packages/host/jarvis_host/mailsearch.py:125-136 | `a..b` is `>=a` and `<=b` together; `>d` is the exact complement of `<=d`, and `<d` of `>=d` |
| Dasl.LiteralReadsBack | packages/host/jarvis_host/mailsearch.py:84-85 | the literal written for any searched text reads back as that text, quotes included |
| Dasl.ReadsBack | packages/host/jarvis_host/mailsearch.py:88-89 | the text written for a condition is read, with NOT before AND before OR, as the structure meant |
| Dasl.ConjunctionReads | packages/host/jarvis_host/mailsearch.py:76-77 | the conditions joined by AND are read as their conjunction |
| Dasl.ContainsBetween | packages/host/jarvis_host/mailsearch.py:84-85 | LIKE finds a text wherever it stands between others |
| Dasl.WhatIsAround | packages/host/jarvis_host/mailsearch.py:84-85 | and a text it finds stands between what comes before and after it |
| Chains.GroupsAreChains | packages/host/jarvis_host/mailsearch.py:203-223 | the groups built by the flags are exactly the maximal OR-chains of the terms, in order |
| MailQuery.ConditionsMean | packages/host/jarvis_host/mailsearch.py:201-225 | the conditions hold for a mail exactly when every maximal OR-chain has a satisfied term, where a term asks what the documentation says of its keyword and value, `-` and `NOT` negating it |
| MailQuery.ConditionMeans | packages/host/jarvis_host/mailsearch.py:140-188 | the table of terms: which keywords and values are understood, and that the condition written for a term holds for a mail exactly if the mail has what the term asks - text in the field or fields of the keyword, attachment, read or unread, flagged, received on the days asked |
| MailQuery.ShortQueries | packages/host/jarvis_host/mailsearch.py:191-225 | a lone term; two terms side by side or with AND; two terms with OR |
| MailQuery.NotQuery | packages/host/jarvis_host/mailsearch.py:206-217 | NOT before a term asks for the opposite |
| MailQuery.VerifyNeverDrops | packages/host/jarvis_host/mailsearch.py:216-242 | the row check never drops a mail that satisfies the query |
| MailQuery.TermPassesCheck | packages/host/jarvis_host/mailsearch.py:233-242 | a mail that satisfies a subject: or from: term passes that term's check, also when the text is in the address |
| MailQuery.Step | packages/host/jarvis_host/mailsearch.py:201-223 | one token of the loop keeps the compiled state in step with the tokens read, and fails exactly on a term that cannot be compiled |
| MailQuery.ParseQuery | packages/host/jarvis_host/mailsearch.py:191-230 | succeeds exactly if every term can be compiled and there is one; then meaning, row checks, folders and the date flag are those of the tokens |
| MailQuery.RowChecks | packages/host/jarvis_host/mailsearch.py:216-228 | the row checks are those of the subject: and from: terms that are not negated, nor repeated with a negation further on, and none if an OR joins any terms; they keep every mail that satisfies the query |
| MailQuery.FoldersAreNamed | packages/host/jarvis_host/mailsearch.py:181-185 | the folders are those of the folder: terms, in order, in lower case |
| MailQuery.TextMeansQuery | packages/host/jarvis_host/mailsearch.py:76-77 | the text sent to the store is read by it as the meaning of the query |
| MailQuery.OrJoins | packages/host/jarvis_host/mailsearch.py:201-223 | whether a token is joined: an OR next to it and a term next to that one joins it; the only other case is an OR whose nearest non-operator on the left is a folder: with a term further left |
| MailQuery.ChainsAreNeighbours | packages/host/jarvis_host/mailsearch.py:191-223 | the OR-chains are those of the documented reading, where OR joins its two neighbours, if and only if no term has an OR behind a folder: before it |
| MailQuery.NeighboursMean | packages/host/jarvis_host/mailsearch.py:191-225 | then the query means the documented reading for every mail |
| MailQuery.OrReachesOverFolder | packages/host/jarvis_host/mailsearch.py:205-223 | in every query, an OR behind a folder: puts its term in one chain with the last term before the folder, which the documented reading keeps apart |
| MailQuery.AcrossFolder | packages/host/jarvis_host/mailsearch.py:205-223 | an instance: `a folder:x OR b` means a or b, where the documented reading means a and b |
| VoiceProtocol.TurnKeepsInv | scripts/voiceline/server.py:97-108 | one turn of the frame loop keeps order, positions and the account of events |
| VoiceProtocol.StopKeepsInv | scripts/voiceline/server.py:126-130 | cutting keeps them too: every queued sentence is truncated where it was and told as cut once |
| VoiceProtocol.FireKeepsInv | scripts/voiceline/server.py:132-133 | a delayed `done` that fires, in any order, keeps the account of events |
| VoiceProtocol.StepKeepsInv | scripts/voiceline/server.py:94-133 | every action keeps the invariant |
| VoiceProtocol.EveryCallIsFaithful | scripts/voiceline/server.py:94-133 | over any call the voice played is the queued sentences in order, each up to where it was cut; every sentence that left has exactly one `done` and at most one `started`; one that was not cut was heard in full, and exactly one `started` was sent for it, before its `done` |
| VoiceProtocol.QueuedAreThose | scripts/voiceline/server.py:94-133 | the sentences accounted for are those queued, in order, and each in the queue has the id it was queued with |
| VoiceProtocol.LastOrderDecides | scripts/voiceline/server.py:226-231 | over any run the voice is paused exactly if the last pause, resume or stop was a pause |
| VoiceProtocol.FrameTells | scripts/voiceline/server.py:97-108 | a frame sends `started` only, and leaves a `done`, not cut, to a timer for each sentence heard out |
| VoiceProtocol.StopTellsAtOnce | scripts/voiceline/server.py:126-130 | a stop sends a cut `done` for each queued sentence, in order, and leaves nothing to timers |
| VoiceProtocol.FrameIsVoiceThenSilence | scripts/voiceline/server.py:94-110 | a frame is voice and then silence, with silence only when paused or when nothing is left |
| VoiceProtocol.PauseIsTransparent | scripts/voiceline/server.py:97-231 | a pause of any number of frames is silent and leaves the voice exactly where it was |
| VoiceLine.Line.Enqueue | scripts/voiceline/server.py:250 | a sentence joins the end of the queue, unplayed |
| VoiceLine.Line.SetPaused | scripts/voiceline/server.py:230-231 | pause and resume change nothing else, so the voice goes on from the same sample |
| VoiceLine.Line.Stop | scripts/voiceline/server.py:126-130 | the loop tells every queued sentence as cut, in order, and empties the queue |
| VoiceLine.Line.TakeTurn | scripts/voiceline/server.py:98-108 | the first sentence's next samples, its position, its `started`, and its removal with a delayed `done` |
| VoiceLine.Line.NextFrame | scripts/voiceline/server.py:94-110 | the frame loop ends, also for sentences without samples, and the frame is the state machine's frame |
| Capture.LastOfLast | packages/host/jarvis_host/meetings.py:77-82 | dropping the oldest bytes at every feed keeps the same bytes as dropping them once |
| Capture.DropsWholeFrames | packages/host/jarvis_host/meetings.py:78-82 | when whole frames are fed, whole frames are dropped |
| Capture.Buffered.Feed | packages/host/jarvis_host/meetings.py:77-82 | the buffer is the newest ten minutes of everything delivered since the last read |
| Capture.Buffered.Read | packages/host/jarvis_host/meetings.py:86-90 | hands out exactly that and starts afresh |
| Capture.Resampler.Convert | packages/host/jarvis_host/meetings.py:157-170 | the early returns and the carried half-frame amount to converting the whole frames there are |
| Capture.ConvertedInParts | packages/host/jarvis_host/meetings.py:157-170 | converting two parts one after the other is converting them joined: same output, state and remainder |
| Capture.AnySplitConvertsTheSame | packages/host/jarvis_host/meetings.py:157-170 | however the input is cut into reads, the output is that of converting it in one piece |
| Capture.ConversionIs | packages/host/jarvis_host/meetings.py:157-170 | what a conversion yields, case by case: whole frames only, stereo mixed to mono, the rate converter unless the rate is 16 kHz already, and less than a frame carried over |
| Capture.ToMonoAt | packages/host/jarvis_host/meetings.py:166 | sample k of the mono track is the mix of frame k |
| Recorder.TakeKeepsInv | packages/host/jarvis_host/meetings.py:215-235 | one take keeps conservation, the timeline, the numbering and both counters |
| Recorder.NothingIsLost | packages/host/jarvis_host/meetings.py:215-235 | over any run, chunks and dropped silences in order, then the pending audio, are all the audio that was taken; chunks are numbered 1, 2, 3, ...; exactly the quiet pieces are dropped |
| Recorder.GapsAreSilence | packages/host/jarvis_host/meetings.py:223-234 | pieces do not overlap, and two chunks are apart by exactly the silent frames between them |
| Recorder.ChunksAreOnTime | packages/host/jarvis_host/meetings.py:223-235 | a chunk holds exactly the audio taken from its t0 to its t1, however much silence was dropped before it |
| Recorder.StopDrains | packages/host/jarvis_host/meetings.py:331-341 | the final take leaves nothing pending: all the audio is in chunks or dropped silences |
| Recorder.PullsAreSecondsLong | packages/host/jarvis_host/meetings.py:218-222 | pulls hand out or drop nothing shorter than a second and hold back less than a second |
| Recorder.PullWithholds | packages/host/jarvis_host/meetings.py:320-321 | a pull loses the chunk it makes exactly when the caller claims to have had its number |
| Recorder.HonestCallersGetAll | packages/host/jarvis_host/meetings.py:316-325 | a caller that never claims more than it was given receives every chunk once, in order |
| Recorder.Recording.TakeChunk | packages/host/jarvis_host/meetings.py:215-235 | the take of the state machine, with the chunk it made |
| Recorder.MeetingCapture.Start | packages/host/jarvis_host/meetings.py:295-301 | a meeting already recorded goes on untouched, a new one starts blank, and no other recording changes |
| Recorder.MeetingCapture.Pull | packages/host/jarvis_host/meetings.py:316-325 | an unknown meeting is an error; otherwise one take and its chunk if its number is past `after_seq` |
| Recorder.MeetingCapture.Stop | packages/host/jarvis_host/meetings.py:331-341 | removes the recording and drains it; an unknown meeting yields nothing |
| Sections.SectionsReadBack | packages/host/jarvis_host/onenote.py:69-71 | for any section mark and any text, cutting at every `]]>` reads back as the text |
| Cdata.TextReadsBack | packages/host/jarvis_host/onenote.py:69-86 | for every text, reading its CDATA sections (section 2.7 of XML 1.0) gives back the text and leaves what follows |
| OneNotePages.OutlineReads | packages/host/jarvis_host/onenote.py:401-402 | an outline of paragraphs reads back as exactly those paragraphs |
| OneNotePages.PageReadsBack | packages/host/jarvis_host/onenote.py:350-359 | a page written in several updates reads back as all its paragraphs in order, however they were grouped |
| OneNotePages.GreedyKeepsAll | packages/host/jarvis_host/onenote.py:167-180 | every fragment is in one payload, in order, and only a fragment too large by itself exceeds the bound |
| OneNotePages.SizeIsLength | packages/host/jarvis_host/onenote.py:167-180 | the size of a payload is the length of its text |
| OneNotePages.GreedyIsFewest | packages/host/jarvis_host/onenote.py:167-180 | no split in order that obeys the rule has fewer payloads |
| OneNotePages.Batch | packages/host/jarvis_host/onenote.py:167-180 | the loop yields the greedy split, and one empty payload for no fragments |
| WsProtocol.StepKeepsAlways | web/src/api/ws.ts:54-183 | every callback and call keeps: events in order, a flush for a non-empty queue, one ping at most, a live installed socket, never stranded |
| WsProtocol.EveryEventIsHandedOnInOrder | web/src/api/ws.ts:131-175 | in any run the batches and then the queue are the events that arrived, in order; a non-empty queue has its one flush coming, which hands on exactly the queue; at most one ping interval is live |
| WsProtocol.RunningClientIsNotStranded | web/src/api/ws.ts:81-163 | in any run, after a `connect` with no `close` since, the client has a socket or a reconnect coming |
| WsProtocol.WaitsDouble | web/src/api/ws.ts:156-162 | in any run the backoffs of the reconnects since the last fresh start, before the random factor, are one second, then twice as long each time, up to thirty |
| WsProtocol.DelaysGrow | web/src/api/ws.ts:158 | with the random factor, whatever the random numbers: each of those delays is longer than the one before until the backoff has reached its end, and none reaches 34.5 seconds |
| WsProtocol.CarefulRunsAreTidy | web/src/api/ws.ts:86-92 | unless `new WebSocket` throws over an installed socket: at most one reconnect timer, none beside a socket, an open socket is pinged, and after a `close` with no `connect` since no timer, interval or socket |
| WsProtocol.SilentSocketIsReplaced | web/src/api/ws.ts:115-132 | over runs: last heard at t1 and silent since, a ping at t2 replaces the socket if and only if more than 55 seconds have passed, and otherwise changes nothing |
| WsProtocol.ReviveReplacesTheSilent | web/src/api/ws.ts:54-63 | and `revive` replaces an open socket if and only if more than 25 seconds have passed |
| WsProtocol.ReviveOpens | web/src/api/ws.ts:54-59 | without an open socket `revive` makes one at once, and a closed client stays as it is |
| WsProtocol.OpeningStartsAfresh | web/src/api/ws.ts:115-163 | a socket that opens is pinged, and when it is lost the reconnect comes after one second, however many had failed before |
| WsProtocol.CloseEndsTheSocket | web/src/api/ws.ts:86-92 | `close` ends the installed socket and keeps what has arrived |
| WsProtocol.ClosedStaysClosed | web/src/api/ws.ts:54-92 | once closed, nothing but `connect` opens a socket |
| WsProtocol.ThrowingOverASocketDoublesTimers | web/src/api/ws.ts:104-163 | such a throw in any tidy state, and the end of the old socket, leave two timers, one of which opens a socket of a closed client |
| WsClient.Client.Connect | web/src/api/ws.ts:81-84 | the connect step; the invariant is kept |
| WsClient.Client.Close | web/src/api/ws.ts:86-92 | the close step: stopped, timers cleared, socket closed and let go; the invariant is kept |
| WsClient.Client.Revive | web/src/api/ws.ts:54-63 | opens when not open, reopens after a silence longer than a ping interval, nothing when stopped; the invariant is kept |
| WsClient.Client.Reopen | web/src/api/ws.ts:66-79 | the old socket is detached and closed, and a new one is opened or scheduled |
| WsClient.Client.Open | web/src/api/ws.ts:104-114 | timers are cleared, then a socket is installed or a reconnect scheduled |
| WsClient.Client.OnOpen | web/src/api/ws.ts:115-130 | an open that is not the installed socket's changes nothing; otherwise the ping interval starts; the invariant is kept |
| WsClient.Client.OnMessage | web/src/api/ws.ts:131-143 | an event is queued with its flush, anything else only counts as heard; the invariant is kept |
| WsClient.Client.OnClose | web/src/api/ws.ts:144-150 | the installed socket's end stops the ping and schedules a reconnect unless stopped; the invariant is kept |
| WsClient.Client.OnTimer | web/src/api/ws.ts:162 | a reconnect that is due opens; the invariant is kept |
| WsClient.Client.OnPing | web/src/api/ws.ts:122-128 | a socket silent beyond the limit is replaced; the invariant is kept |
| WsClient.Client.Flush | web/src/api/ws.ts:167-173 | the whole queue is handed on as one batch; the invariant is kept |
| TabsProtocol.StepKeepsInv | extension/background.js:525-678 | every piece of every handler, with storage read and installed in two pieces, a browser change and an unloading of the worker keep: each copy of the tabs maps a session only to a tab created for it |
| TabsProtocol.ATabIsOneChats | extension/background.js:522-570 | in every run a tab is the work tab of one chat at most, in memory, in storage and in every copy still in use |
| TabsProtocol.HandlersKeepToTheirTabs | extension/background.js:592-943 | in every run a chat navigates only its own tabs; a tool is given a tab that is no other chat's in the tabs consulted, or its own chat's; a tab closed is the chat's own, and at the look it was not alone and not, as far as the browser said, in sight |
| TabsProtocol.OwnerIsUnique | extension/background.js:553-558 | a tab has at most one owner, so the order in which sessions are searched does not matter |
| TabsSight.EveryRunIsSound | extension/background.js:592-943 | in every run each window has one active tab and the window in front exists, whatever handlers create, show and close |
| TabsSight.StepSight | extension/background.js:619-676 | after any event a tab is in sight exactly if the event brought it there (the user, a tool, its creation, or the closing of the active tab or the last tab of the window in front) or it was there and the event did not hide it |
| TabsSight.ClosedInSightExactly | extension/background.js:661-678 | in every run from the look to the removal: the tab is closed in sight exactly if an event brought it into sight and none hid it after that, or it was in sight at the look and none hid it; the latter only if the browser did not say which window is in front |
| TabsSight.NoneIsClosedInSight | extension/background.js:661-678 | in every run from a state in which no handler is between its look and its removal, without an action of the user, a tool that shows a tab, or a failing question about the front: no tab is closed in sight, whatever was closed and created |
| TabsSight.ATabInSightCanBeClosed | extension/background.js:667-677 | any tab about to be closed can be brought into sight by the user and is closed all the same |
| TabsSight.AShownTabCanBeClosed | extension/background.js:1295-1297 | so can a tool that shows its tab in the window in front |
| TabsSight.AnHeirCanBeClosed | extension/background.js:667-677 | wherever a tab in sight is about to be closed on a stale look and another chat's tab in that window too, the browser makes the second active and it is closed in sight as well |
| TabsClosing.UntilTheUserActs | extension/background.js:661-678 | whatever handlers do while the user is away, a tab that is still there is alone in its window exactly if handlers closed all but one of the window's tabs, new ones included |
| TabsClosing.ClosingWhileAway | extension/background.js:661-678 | from a closing handler's look to its removal while the user is away: its tab is alone exactly if enough tabs of the window were closed, and never if no other handler closed one there |
| TabsClosing.ClosingHarmsExactly | extension/background.js:661-678 | in every run from the look to the removal: the tab is closed as the window's last exactly if since the user's last action handlers have closed all but one of the window's tabs |
| TabsClosing.TwoClosingsEmptyAWindow | extension/background.js:661-678 | wherever two chats' tabs are the only two of a window the user is not in, the closing of both leaves that window without a tab, without an action of the user |
| TabsClosing.AWindowIsLost | extension/background.js:661-678 | such a run from the start of the worker |
| TabsTaken.TakenIffNotRemembered | extension/background.js:592-605 | another chat's active tab is given exactly when the tabs consulted do not have it as that chat's |
| TabsTaken.StepStaysCareful | extension/background.js:525-605 | every orderly step keeps: a chat's own live tab is remembered or waits to be, every handler holds the current tabs, and a load reads what storage still holds |
| TabsTaken.OrderlyRunsKeepTabsApart | extension/background.js:592-605 | in every orderly run (one load at a time, which succeeds, all saved before an unloading, no second tab created and no question asked while a tab waits to be remembered, a live tab forgotten only by its closing) a tool is not given a tab that another chat created last and has not closed |
| TabsTaken.ANewTabCanBeTaken | extension/background.js:927-943 | wherever a chat creates its tab, another chat's tool that runs before the tab is remembered is given that tab |
| TabsTaken.ALostTabIsTaken | extension/background.js:525-534 | wherever a load was overtaken by the remembering of a tab, the tab is lost when the load ends and another chat's tool is given it |
| TabsTaken.ARememberedTabIsTaken | extension/background.js:525-605 | such a run from the start of the worker: the tab is created, remembered and saved, and given away |
| TabsTaken.AFailedLoadLosesTabs | extension/background.js:527-533 | wherever a load fails, an active tab of any chat is given to whoever asks |
| TabsTaken.AnUnloadingLosesATab | extension/background.js:520-534 | wherever the worker is unloaded while storage lacks a chat's tab, the tab is given to another chat's tool |
| TabsTaken.ALateSaveLosesATab | extension/background.js:520-538 | wherever it is unloaded while an older save is on its way, a tab remembered since is lost the same way |
| TabsTaken.ASecondTabIsLost | extension/background.js:540-942 | wherever a chat creates a tab while an older one of its own waits to be remembered, the newer can be lost |
| TabsTaken.ALateForgettingLosesATab | extension/background.js:546-648 | wherever a handler forgets a chat's live tab and does not close it, the tab is lost |
| TabsAlone.WhatAToolIsGiven | extension/background.js:592-605 | a tool's handler by itself: it is given the active tab if that is not protected and no other chat's, else its chat's own tab, else none |
| TabsAlone.OpensInItsTab | extension/background.js:927-938 | a page opens in the chat's own tab if there is one |
| TabsAlone.OpensANewTab | extension/background.js:927-943 | without one, a tab is created, and in memory and in storage it is the tab of that chat; the other chats keep theirs |
| TabsAlone.ReplacesADeadTab | extension/background.js:560-570 | the same if the remembered tab no longer exists |
| TabsAlone.AGoneTabIsForgotten | extension/background.js:636-639 | a tab that is gone is forgotten, in memory and in storage, by the chat whose it was and by nobody else |
| TabsAlone.WhatIsClosed | extension/background.js:661-678 | at the end of the grace the tab is forgotten; it is left alone in sight, closed beside others, and emptied when alone in its window |
| WorkTabs.Background.LoadWorkTabs | extension/background.js:525-526 | the handler goes on with the tabs in memory, which exist, or to reading storage: the state machine's step, keeping the invariant |
| WorkTabs.Background.ReadStorage | extension/background.js:527-533 | the state machine's step: the handler carries tabs that map each session only to a tab created for it, also after a failed read, and the invariant is kept |
| WorkTabs.Background.TabsArrive | extension/background.js:525-534 | the value read becomes the tabs, also over what another handler installed or saved since it was read, and the invariant is kept |
| WorkTabs.Background.RememberWorkTab | extension/background.js:540-544 | writes into the tabs the handler holds, saves the tabs that are current, and keeps the invariant |
| WorkTabs.Background.ForgetWorkTab | extension/background.js:546-550 | deletes in the tabs the handler holds, saves the tabs that are current, and keeps the invariant |
| WorkTabs.Background.SaveArrives | extension/background.js:536-538 | a successful save replaces storage, a failed one leaves it; the invariant is kept |
| WorkTabs.Background.OwnerOf | extension/background.js:553-558 | the loop over the sessions finds the owner, or none |

## Left out

- ComProtocol.ReachableInv: runs after `stop()`; a stop token left over there can end the next thread early (packages/host/jarvis_host/com.py:165-173).
- ComWorker.Worker.Submit: start, respawn check and put run as one step here, as do the two parts of `status` and of `_abandon` below. Thread steps that fall between the parts are covered by the parts as steps of the state machine (`RespawnIfWedged`, `Put`, `Snapshot`, `Cancel`), each of which keeps the invariant from any state. The put at packages/host/jarvis_host/com.py:204 is outside the lock; callers are taken to run on one thread, as the event loop does.
- ComWorker.Worker.Status: the respawn check and the snapshot are one step; between them a thread may take a step in the source.
- ComWorker.Worker.Abandon: the cancellation and the status read for the log line are one step; between them a thread may take a step in the source.
- WorkHours.WorkWindows: the zone is any clock that never runs backwards over a whole day or between later hours; offsets and folds of real zones are not modelled.
- Planner.PlanMeetings: proposals are sorted by instant; the source sorts the local ISO text, which agrees when the offset does not change among the proposals.
- Paging.ListItems: `since` only narrows the folder; rows without a received time, and a table that could not be sorted, are not modelled. Cursor ids are taken to hold no comma.
- Paging.PagingIsComplete: the folder does not change between pages; the conditions on it are the exact ones (`PagingUnread.ListingIsExact`).
- Cursors.DecodeInvertsEncode: printing and reading a whole UTC second is a parameter assumed to invert; a cursor that cannot be read is an error as in the source.
- Calendar.OneOperator: reading a date (`_day`) is a parameter; dates beyond the year 9999 are not cut off, and the month before 0001-01-01 is excluded.
- MailQuery.ParseQuery: the regular expressions that split the text into tokens are left out; letter case is any per-character function, and the store's LIKE is containment without wildcards in the value. A sender's address is taken to be the same text in the store and in the row. One clock gives the midnights: the source takes those of named ranges at the offset of the present and those of written dates at the date's own, which differ across a change of the clock.
- VoiceProtocol.EveryCallIsFaithful: starts at the queue. Sentences are decoded in an executor and may join it in another order than they were sent; one that cannot be decoded never joins it.
- VoiceLine.Line.NextFrame: the hold music that is added to the frame afterwards, gains and clipping.
- Capture.Resampler.Convert: `audioop` itself; mixing a stereo frame and one step of the rate converter are parameters.
- Recorder.Recording.TakeChunk: the mixing of the tracks and the test for silence are parameters; times are in frames, without rounding to milliseconds.
- Recorder.MeetingCapture.Start: opening devices, and the levels in the replies.
- OneNotePages.Batch: how Markdown becomes fragments (inline formatting, lists, tables) is left out; the round trip is proved for plain paragraphs.
- WsProtocol.EveryEventIsHandedOnInOrder: order is claimed from the queue on. A socket replaced while still connecting keeps its message handler, so events of two sockets can reach the queue. Handlers that call back into the client are not modelled.
- TabsProtocol.HandlersKeepToTheirTabs: that a tab is not closed in sight or as its window's last is stated of the moment the handler looked; what holds at the closing is `TabsSight.ClosedInSightExactly` and `TabsClosing.ClosingHarmsExactly`. An explicit tab id given to a tool bypasses ownership on purpose and is left out, as are alarms and page loads.
- WorkTabs.Background.RememberWorkTab: the class covers the pieces between two `await`s that touch the tabs; the handlers as wholes are tasks of the state machine, on values.
- WsProtocol.WaitsDouble: speaks of the backoff; the random factor of each delay is in `WsProtocol.DelaysGrow`.
- TabsSight.ClosedInSightExactly: a tab dragged to another window, and a window brought to the front or closed by the user, are actions of the user; so is what the browser does with no handler involved.
- TabsTaken.OrderlyRunsKeepTabsApart: the condition on runs is sufficient; the exact one is that of each single question, `TabsTaken.TakenIffNotRemembered`.
- COM, Outlook, OneNote, audio and browser calls themselves: they are parameters or the environment's choice.
- REST clients, React components, page scripts, settings and policy predicates: they would add only easy members.
