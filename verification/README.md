# Verified model of the account console's resource bookkeeping

The repository hands out scarce things while other threads, other processes or remote services
interfere: registration attempts, domain slots, browser processes, mailbox subdomains, payment
accounts, workspace seats, pooled proxies. This project models that bookkeeping in Dafny and
proves what it keeps over every run, together with the codecs and parsers next to it.

Code that changes state is modelled twice: as a step function on plain values, over which the
promises are proved for arbitrary runs, and as a class (or loop) of the source's own shape whose
methods are proved equal to that step function.  What a step function does is in turn told from
the outside: from the events of a run, the words of a request, or the facts of the world.

| part | files |
|---|---|
| attempt dispatcher and domain quota | `DispatchSpec`, `DispatchSafety`, `DispatchTheorems`, `DispatchBooks`, `RegisterTask` (class), `Archive` |
| browser ownership and cleanup | `ProcessWorld`, `BrowserCleanup`, `CleanupAnswers`, `StartupSpec`, `BrowserStartup` (class) |
| subdomain allocator and mailbox clients | `Labels`, `SubdomainRows` (class), `MailboxLedger` (class), `MailboxBooks` |
| payment leases | `LeaseSpec`, `LeaseSafety`, `LeaseTheorems`, `LeaseWords`, `PaymentBridge` (class) |
| seat capacity and billing guard | `SeatCapacity`, `SeatTheorems`, `SeatNames`, `AdmissionGuard`, `InviteRuns`, `InviteRecords`, `InvitePauses`, `InviteSchedules`, `SeatRuns`, `SeatSchedules`, `BusinessMasters` (class) |
| proxy pool | `ProxyPool`, `ProxySupply`, `DynamicProxy` (class) |
| waiting for mail | `MailWait`, `MailRules`, `GmailMailbox` (class) |
| proxy texts | `Utf8`, `PercentCode`, `ProxyText`, `ProxyRoundTrip`, `ProxyTheorems`, `ProxyLimits`, `ProxyForms` |
| credential envelopes | `Base64`, `CredentialEnvelope`, `Encodings` |
| shared | `Basics`, `Decimal`, `Text` |

`dafny verify dfyconfig.toml` checks everything.

## Where the code keeps less than it says

Each of these has a lemma with a concrete input or run and a lemma with the exact condition.

- `_OwnedBrowser.cleanup` answers "everything is gone" by `if self.uncertain or self._live()`: the
  doubt flag is read before the last look, so a recorded child whose last inspection is refused
  yields a positive answer with doubt raised and the child alive (`PositiveAnswerMayDoubt`,
  `PositiveAnswerIsCertain`), and the startup may then launch a second browser beside that child
  (`RetryWithTheChildAlive`).
- `CFWorkerMailbox.get_email` loses its slot when the service answers JSON that is no object or an
  address that is no text, and when an address is filed twice (`MalformedAnswerLeaks`,
  `EveryInflightIsHeldExactly`).
- Labels are compared with enabled rows only, so a disabled row's domain can be handed out again
  (`DisabledRowIsRepeated`, `RepeatsExactlyDisabled`).
- A payment fetch with a blank client id is accepted. Where a holder is still recorded, the lease
  counts as that holder's, whose next fetch hands out the same account; where none is, it belongs to
  nobody and no fetch or release reaches it (`BlankClientInheritsHolder`, `BlankLeaseReachesNobody`,
  `FetchLeasesToItsCallerExactly`, `BlankFetchIsResumed`, `BlankLeaseIsStuck`).
- The invitation guard fails open: a failed statistics computation is treated as no limit, an
  unreadable invites endpoint as no pending invitation (`UnreadGuardOverfills`,
  `FailedComputationOverfills`, `GuardIsSoundExactlyWhenRead`). The route's comment says that an
  invitation never exceeds the plan.
- The invitation routes take no lock between reading the pool and recording the invited accounts:
  overlapping invitations of two masters send to the same address, and the later record overwrites
  the earlier owner (`OverlappingInvitesShareAnAccount`, `DrawnAgainExactly`,
  `RecordedTwiceMeansOverlap`).
- Statistics read the pause in one session and store it in another: a computation that started
  earlier clears or moves a pause stored meanwhile (`OverlappingComputationClearsThePause`,
  `PauseKeepsItsEndExactly`).
- Each guarded invitation keeps to the room it has read (`GuardKeepsThePlan`), but the plan is
  exceeded all the same: two invitations that read before either has sent use the same free seat
  twice (`TwoGuardsShareOneSeat`), and a guest who accepts between the reading of the members and
  that of the invitations is counted by neither (`GuestIsCountedByNeither`). An invitation arrives
  in excess exactly when more was taken behind its two readings than the room it leaves unused
  (`LandsInExcessExactly`, `ExceededExactly`), which needs another invitation arriving in between
  or a guest who joined between the readings (`OutrunMeansOverlap`, `ApartKeepsThePlan`).
- The refilling daemon waits its interval after each fetch, so its cycle is interval plus fetch
  time. The stated "supply at least demand" holds exactly when both together fit into a worker's
  share of the minute; for twelve to sixty workers any fetch that takes time breaks it
  (`TwentyWorkersWait`, `SupplyMeetsDemandExactly`, `NoTimeToFetch`).
- A proxy pool that is stopped and started again before its old daemon has left ends with no
  daemon (`QuickRestartLosesTheDaemon`, `RestartNeedsTheOldDaemonGone`).
- `host:port:user:password` does not come back when the text contains `@` or `://`, when the host
  contains `/`, `?`, `#`, a bracket or a tab or line end, or when the port exceeds 65535
  (`AtSignBreaksTheRoundTrip`, `QuestionMarkBreaksTheRoundTrip`, `ProxyLimits.RoundTripExactly`).
- Base64url of the empty byte string is refused on reading (`Base64.RoundTripExactly` names both the
  input and the condition).
- The comment at api/business_masters.py:963 says that removing a member returns its sub-account to
  the invitable pool. The code clears the owner but leaves the status `csv_uploaded`, which no pool
  takes (`RemovedMemberStaysOut`, `RemovedIsInvitableExactly`, `RetiredForGood`).

## Assumptions

- One critical section is one step: a locked block, one database session, one examination of one
  process, one `lstat` together with the removal it permits. The dispatcher's three looks (stop
  flag, counter, active set) are three steps, and so are the two halves of `get_email` and the
  sessions of an invitation and of a statistics computation, its two remote readings, and each
  arrival of invitations in a workspace. The grok payment routes run under one
  lock and are one step each.
- An email address occurs once in the account table.
- The stop flag is sticky, clocks used by the pool and the waits do not run backwards, tokens and
  random draws are inputs, and hostnames are already normalised.
- Identities of processes are pairs of id and birth; a process never changes its birth, and who
  created whom is fixed (`Honest`). Ids may be reused and orphans re-parented at any time.
- `strip` trims the characters Python counts as white space; lower-casing and digit tests are those
  of ASCII text. JSON objects have no repeated keys; numbers are exact.
- Recognising a seat product, reading decimal and JSON text, extracting a code or link from a
  mail, parsing mail addresses and dates, NFKC and case folding, and validating bracketed
  addresses are arbitrary functions of their arguments.
- AES-GCM is an ideal cipher: what was sealed opens under the same key and associated data only.
  `IdealIsPossible` shows that this assumption can be met.

## Model

| member | source | states |
|---|---|---|
| DispatchSafety.StepKeeps | api/tasks.py:2280-2341 | every critical section of dispatcher and workers keeps progress plus running fileless attempts within the target, the ledger exact and within the cap |
| DispatchSafety.StaleReadingLeavesRoom | api/tasks.py:2315-2321 | the stale file count errs by at most the files that listed attempts added since, so comparing it later with the active set is still safe |
| DispatchTheorems.NeverOvershoots | api/tasks.py:2313-2340 | over every interleaving, files plus attempts still able to add one never exceed the requested count, and at most `max_workers` attempts are listed |
| DispatchTheorems.NoFileTurnedAway | api/tasks.py:2018-2025 | the worker's size test under the file lock never rejects: a new non-empty path is always collected |
| DispatchTheorems.LedgerIsExact | api/tasks.py:1291-1336 | each domain's inflight and collected counts are exactly the attempts holding and having banked it, together within the cap, and the clamp at zero never fires |
| DispatchTheorems.QuotaNeverExhausted | api/tasks.py:920-926 | a request whose count fits the domains' capacity never meets the "quota exhausted" error, at any point of any run |
| DispatchTheorems.LoopEndsComplete | api/tasks.py:2326-2340 | if the loop is left without a stop, exactly the requested number was reached and no attempt is still running |
| DispatchTheorems.CompleteStopsSubmitting | api/tasks.py:2315-2319 | once complete, nothing is pending and no submission round submits again |
| DispatchTheorems.RunIsMonotone | api/tasks.py:2335-2339 | collected files and counted successes are never lost and stop flags never fall back, over any continuation |
| DispatchBooks.SuccessesAreReports | api/tasks.py:1259-1268 | over every run, the long-run counter is the number of different addresses reported (trimmed, in lower case) plus the reports without one; a report advances it exactly when its address is new or missing |
| DispatchBooks.FilesAreTheOffers | api/tasks.py:2018-2025 | over every run, the collected files are exactly the non-empty paths offered, each once, in the order of first offer |
| DispatchBooks.ListedAreUnharvested | api/tasks.py:2323-2334 | over every run, the listed attempts are exactly those submitted and not yet harvested |
| DispatchBooks.WorkersAreBusy | api/tasks.py:2313-2324 | the counterpart of not overshooting: without a stop, whenever the dispatcher waits, all workers are busy or the listed attempts could reach the target |
| DispatchBooks.StopSubmitsAtMostOne | api/tasks.py:2315-2340 | once a stop is asked for or seen, only the round under way may submit, and at most one attempt, over any continuation |
| DispatchBooks.SeenStopEndsSubmitting | api/tasks.py:2332-2340 | a harvest that meets a stopped attempt ends submitting for good |
| DispatchBooks.UnaskedRunsComplete | api/tasks.py:2313-2341 | a run in which nobody asks to stop leaves its loop only with the target reached |
| DispatchBooks.StoppedStartsNothing | api/tasks.py:2335-2340 | after a stop has left the loop no attempt starts any more |
| DispatchBooks.StopSparesTheRunning | api/tasks.py:2335-2340 | and nothing but queued attempts is cancelled |
| DispatchBooks.ReservationTakesFirstWithRoom | api/tasks.py:1300-1308 | under a cap a reservation takes the first domain of the request whose slots held or banked are fewer than the cap, and fails exactly when all are full |
| DispatchBooks.DomainsTakeTurns | api/tasks.py:1310-1317 | without a cap the n-th reservation of a run gets domain n modulo their number |
| RegisterTask.Runner.RecordDone | api/tasks.py:2332-2336 | the loop over finished futures removes exactly those and raises the stop flag iff one of them was stopped |
| RegisterTask.Runner.PollStopFlag | api/tasks.py:2335-2340 | on a stop, exactly the listed attempts that have not started are cancelled |
| RegisterTask.Runner.ReserveDomain | api/tasks.py:1291-1317 | takes the first domain with room (or the next in turn), or changes nothing and reports exhaustion |
| Archive.PickName | api/tasks.py:549-555 | the suffix search ends, with the first free candidate |
| Archive.SplitsAtLastDot | api/tasks.py:549-551 | the extension starts at the last dot of the file's own name |
| Archive.NameWithoutDot | api/tasks.py:549-551 | a name without a dot gets the one extension |
| Archive.BasenameExactly | api/tasks.py:548-548 | the file's own name is what follows the last slash of its path |
| Archive.BuildZip | api/tasks.py:536-567 | one entry for each file present, in order, all names different |
| Archive.FinishTask | api/tasks.py:2365-2444 | the final status is done exactly for an unstopped run whose archive could be written with the requested number of entries |
| Archive.UnstoppedBundleIsComplete | api/tasks.py:2365-2367 | an unstopped bundle run hands exactly the requested number of different paths to the archive |
| ProcessWorld.ChildrenDescend | core/browser_startup.py:172-175 | what a child listing of an examined process returns descends from it, despite id reuse and re-parenting |
| CleanupAnswers.ChildrenAreAll | core/browser_startup.py:172-175 | the listing has every process, not born before the root, that leads to it by parents through any number of generations |
| BrowserCleanup.SweepIsSafe | core/browser_startup.py:223-252 | over every schedule, each process that is terminated or killed is owned by this launch and is the very process that was recorded, not a successor under its id |
| BrowserCleanup.PrivateProfileFamily | core/browser_startup.py:149-181 | with a private profile, everything owned is the launched process or a descendant of it |
| BrowserCleanup.ConcludeMeans | core/browser_startup.py:253-267 | doubt forces a negative answer; a positive one says that no recorded process was seen live and the directory is gone, and a removed directory has the device and inode created at launch |
| CleanupAnswers.ConcludeExactly | core/browser_startup.py:253-267 | the end of cleanup answers true exactly without earlier doubt, with no recorded process showing itself live in the last look, and with the profile gone or removable and the directory created at launch (device, inode, prefix, no link); exactly that directory is then removed |
| CleanupAnswers.QuietCleanupSucceeds | core/browser_startup.py:223-267 | when everything has ended and the profile lies where launch put it, a whole cleanup without earlier doubt answers true and removes it |
| CleanupAnswers.SweepDoubtsExactly | core/browser_startup.py:223-252 | a sweep ends in doubt exactly after earlier doubt, an unaccounted launched process, a refused look or signal, or with the launched process still there |
| CleanupAnswers.FamilyIsRecorded | core/browser_startup.py:159-181 | a look at the launched process while it shows its profile and port records it and all its children |
| CleanupAnswers.SignalledCarried | core/browser_startup.py:149-157 | whoever is signalled, or an ancestor under the launched id, was seen with this profile, no other port, and a birth at most a second before the launch |
| BrowserCleanup.PositiveAnswerIsCertain | core/browser_startup.py:253-254 | a positive answer is free of doubt, with nothing recorded alive, exactly when no recorded process refused the last look |
| BrowserCleanup.PositiveAnswerMayDoubt | core/browser_startup.py:223-267 | a schedule for one whole cleanup with a positive answer, doubt raised and the child alive |
| BrowserCleanup.SurvivorIsKilled | core/browser_startup.py:228-246 | a recorded process that stays live and inspectable is asked to terminate and then killed |
| CleanupAnswers.SweepKillsSurvivors | core/browser_startup.py:223-254 | a recorded process that stays live and inspectable throughout a whole cleanup has been asked to end and killed by it, and the answer is not true |
| BrowserCleanup.CarrierIsFound | core/browser_startup.py:211-221 | a process shown with this launch's profile is recorded, unless its id already stands for an earlier one |
| BrowserStartup.OwnedBrowser.CaptureFamily | core/browser_startup.py:159-181 | the fields become what one capture of the process family yields |
| BrowserStartup.OwnedBrowser.Cleanup | core/browser_startup.py:223-267 | signals, removals, records and answer are those of the sweep and its conclusion; everything stays this launch's own; doubt once raised keeps every later answer negative |
| StartupSpec.FurtherLaunchNeedsCleanup | core/browser_startup.py:376-418 | whenever a further browser is launched, the own cleanup of the one before has ended with true before that, wherever its attach thread stands: no doubt, no recorded process seen live, profile gone |
| StartupSpec.DoubtEndsTheRun | core/browser_startup.py:253-254 | doubt at the end of a sweep makes that attempt the last, without a page and without a retryable error |
| StartupSpec.RetriedExactly | core/browser_startup.py:392-418 | a failed first attempt is retried exactly when two are allowed, the failure is one of the four that may pass, and whatever was owned is cleaned up; else the startup fails at once with that reason |
| StartupSpec.SettledAtOnce | core/browser_startup.py:379-397 | an attempt that attaches or is interrupted is never retried |
| StartupSpec.RefusedExactly | core/browser_startup.py:376-382 | exactly a budget of at most a minute and one or two attempts are accepted |
| StartupSpec.WatchingRecords | core/browser_startup.py:198-209 | a look for the listener records what a look at the family records, and doubts when that does or when somebody recorded refuses |
| StartupSpec.LaunchIsRemembered | core/browser_startup.py:159-209 | whatever was recorded or doubted right after the launch still is when the attempt ends |
| StartupSpec.QuietTrialIsCleaned | core/browser_startup.py:223-267 | a failed attempt after which everything has ended is cleaned up, so a passing failure is retried |
| StartupSpec.AtMostOneIsLeft | core/browser_startup.py:376-418 | at most one owned browser has not answered true on return, of at most two, wherever attach threads come in |
| StartupSpec.LateAnswers | core/browser_startup.py:223-350 | the attach thread of a timed-out attempt may clean up before the attempt's own cleanup or at any time after it, after the answer to the caller included: doubt found before makes each of the two answer false and remove nothing, and a positive answer of either is a fresh one |
| StartupSpec.RetryWithTheChildAlive | core/browser_startup.py:253-254 | a schedule with a second launch although a child of the first is alive and doubt is raised |
| BrowserStartup.StartLocalBrowser | core/browser_startup.py:376-418 | the retry loop, deciding on the answers of its cleanups, performs exactly the attempts and the cleanups of owners and attach threads of that specification, and each owner signals and removes only its own |
| Labels.CounterLabelIsNew | core/cfworker_subdomain_allocator.py:51-59 | the counter label differs from every scanned label, for every prefix |
| Labels.CounterIsNext | core/cfworker_subdomain_allocator.py:51-59 | it is the prefix, a hyphen and at least four digits whose value is one more than the highest number among the labels |
| Labels.NumberedExactly | core/cfworker_subdomain_allocator.py:51-58 | a label is numbered when a numeral follows the prefix and a hyphen, whatever zeros stand in front |
| Labels.NormalDomainStays | core/cfworker_subdomain_allocator.py:22-26 | normalising keeps a normal domain and takes an at sign in front and dots around from it |
| Labels.NormalLabelStays | core/cfworker_subdomain_allocator.py:29-33 | a usable prefix is used as it is, an empty one becomes "acc" |
| Labels.ForeignCharactersBecomeHyphens | core/cfworker_subdomain_allocator.py:29-33 | a concrete prefix with other characters |
| Labels.MadeLabelIsNew | core/cfworker_subdomain_allocator.py:62-81 | so does the label of either strategy, for all draws, through the fallback |
| Labels.FirstFreeDraw | core/cfworker_subdomain_allocator.py:62-70 | the random label is that of the first of fifty draws that is free, at whatever index, else the counter label |
| Labels.FullDomainDecodes | core/cfworker_subdomain_allocator.py:128-132 | label and root can be read back from a full domain |
| SubdomainRows.Allocator.ReserveSubdomain | core/cfworker_subdomain_allocator.py:96-147 | takes the first row with room or opens one; without a root nothing changes |
| SubdomainRows.DomainsStayDistinct | core/cfworker_subdomain_allocator.py:111-140 | with no row disabled, no two rows ever get the same full domain, over any run of any requests |
| SubdomainRows.DisabledRowIsRepeated | core/cfworker_subdomain_allocator.py:112-140 | a concrete table whose disabled row's domain is handed out again |
| SubdomainRows.RepeatsExactlyDisabled | core/cfworker_subdomain_allocator.py:112-140 | with either strategy and any draws, a reservation repeats a domain exactly when it opens a row and a disabled row of that root carries the label it makes |
| SubdomainRows.RowsAreCeilingOfPeak | core/cfworker_subdomain_allocator.py:111-147 | first fit is tight: in a table that serves any roots, the number of rows of one root is that root's peak load divided by its limit, rounded up |
| SubdomainRows.FinalizingTwiceOverfills | core/cfworker_subdomain_allocator.py:150-167 | without the clients' discipline a row can be overfilled: a concrete row |
| SubdomainRows.FinalizeOverfillsExactly | core/cfworker_subdomain_allocator.py:150-167 | a finalisation overfills a table within capacity exactly when its row has nothing in flight and every slot used |
| MailboxBooks.ReserveThenRelease | core/cfworker_subdomain_allocator.py:96-187 | a reservation that is released leaves every row's counts as they were, and a row it opened empty |
| MailboxBooks.ReserveThenFinalize | core/cfworker_subdomain_allocator.py:96-212 | a finalised reservation leaves one more used slot on its row and nothing else; giving it back restores the counts |
| MailboxLedger.StepKeeps | core/base_mailbox.py:2715-2791 | every client step keeps each row's inflight equal to the slots held or lost there, within capacity |
| MailboxLedger.InflightIsHeldPlusLost | core/base_mailbox.py:2731-2791 | over every interleaving of clients: inflight is held plus lost, and used plus inflight is within capacity |
| MailboxBooks.UsedIsFinalizedLessGivenBack | core/base_mailbox.py:2715-2791 | over every interleaving, a row's used count is the number of reservations finalised there less the used slots given back |
| MailboxBooks.EveryReservationIsSomewhere | core/base_mailbox.py:2731-2791 | every reservation of a run is held, finalised, released or lost, in exactly one of these ways |
| MailboxBooks.FiledIsFound | core/base_mailbox.py:2715-2729 | a filed slot is found by every spelling of its address that differs in case and surrounding blanks, and by no other |
| MailboxLedger.EveryInflightIsHeldExactly | core/base_mailbox.py:2731-2791 | every inflight slot is in a call or a client map exactly for the runs without malformed answers and without an address filed twice |
| MailboxLedger.MalformedAnswerLeaks | core/base_mailbox.py:2731-2791 | a two-step run after which a slot is inflight and in nobody's books |
| MailboxLedger.ResolvedAtMostOnce | core/base_mailbox.py:2715-2729 | a reservation is finalised or released at most once |
| MailboxLedger.ClientsAreDisciplined | core/base_mailbox.py:2715-2729 | clients ask the allocator only for what is outstanding, so its clamps are never needed, and each client step is one allocator step |
| MailboxLedger.ClientRunsOpenNoRowTooMany | core/base_mailbox.py:2715-2791 | clients of any roots and the allocator together open, for a root with one limit, exactly its peak load divided by the limit, rounded up |
| MailboxLedger.Mailbox.CompleteGetEmail | core/base_mailbox.py:2764-2791 | releases on a service error or an incomplete answer, files under the trimmed lower-case address, and loses the slot otherwise |
| MailboxLedger.Mailbox.FinalizeAccount | core/base_mailbox.py:2715-2721 | pops the entry and finalises exactly that reservation |
| LeaseTheorems.RunKeepsSound | api/payment_bridge.py:348-431 | in every reachable table, blank clients included, an account carries a reservation id iff it is leased, and a leased account is unpaid and has a payment link |
| LeaseTheorems.RunNamesHolders | api/payment_bridge.py:348-431 | as long as every fetch names its client, every leased account of every reachable table names a holder |
| LeaseTheorems.FetchGivesLeases | api/payment_bridge.py:756-808 | a fetch hands out, in order and once each, accounts available to the client, all of them unless the limit is met, each then leased to the client |
| LeaseTheorems.NobodyElseFetches | api/payment_bridge.py:509-547 | another client's fetch neither returns nor touches a leased account |
| LeaseTheorems.LeaseIsExclusive | api/payment_bridge.py:755-994 | until its holder releases it or a payment callback is accepted, a lease survives every run of any calls unchanged, and only its holder's fetches return it |
| LeaseTheorems.PaidNeverReturns | api/payment_bridge.py:509-560 | a paid account stays paid and is never handed out again, whatever is called |
| LeaseWords.PaymentAnswers | api/payment_bridge.py:1000-1035 | from its word, its addressee and its reservation: which of accepted, bad request, not found and conflict a payment callback is answered with, and that only an accepted one changes anything |
| LeaseWords.PaymentDoes | api/payment_bridge.py:25-35 | an accepted callback makes its account subscribed exactly for "paid" and "success", ends its lease for all nine words, replaces or clears the link for the three expiry words, clears it on request for the two failure words, and touches nothing else |
| LeaseWords.PaymentNotes | api/payment_bridge.py:1037-1088 | the notes of an accepted callback: the word it was understood as, and for a payment its reference and time |
| LeaseWords.PaidWordIsFinal | api/payment_bridge.py:1000-1092 | from a callback that says "paid" or "success" and is not turned away on, over any run of any calls, the account stays paid and no fetch returns it |
| LeaseWords.CompletionDoes | api/payment_bridge.py:36-43 | a completion is accepted exactly for its six words about a paid account, and makes just that account completed |
| LeaseWords.FetchHandsOutExactly | api/payment_bridge.py:509-547 | an unlimited fetch hands out exactly the unpaid accounts with a link that are leased to the caller by name, or neither leased nor reported paid |
| LeaseWords.ReleaseEndsExactly | api/payment_bridge.py:954-990 | a release ends exactly the caller's own leases among those listed, or all of them |
| LeaseWords.ListingRepairs | api/payment_bridge.py:550-560 | the paid listing shows as paid exactly what was reported paid |
| LeaseTheorems.LeaseSurvivesStrangers | api/payment_bridge.py:954-1055 | releases in other names and payment callbacks that name other reservations never end a lease, over any run |
| LeaseTheorems.FetchLeasesToItsCallerExactly | api/payment_bridge.py:756-808 | a fetch leases every account it hands out to its caller exactly when the caller names itself or none of these accounts has a recorded holder |
| LeaseTheorems.BlankFetchIsResumed | api/payment_bridge.py:528-547 | what a blank client is handed although a holder is recorded is handed to that holder by its next unlimited fetch, under the same reservation |
| LeaseTheorems.BlankLeaseIsStuck | api/payment_bridge.py:528-994 | a lease that names nobody is never handed out again nor released, over any run without an accepted payment callback for it |
| LeaseTheorems.BlankLeaseReachesNobody | api/payment_bridge.py:756-994 | that happens to a fresh account that a blank client fetches |
| LeaseTheorems.BlankClientInheritsHolder | api/payment_bridge.py:756-994 | a run of four routes - a fetch and a release by one client, a blank fetch, a fetch by the first - in which the account is handed out three times, the last twice under one reservation |
| PaymentBridge.Bridge.FetchPaymentAccounts | api/payment_bridge.py:756-808 | the loop with its early stop equals the specified scan |
| PaymentBridge.Bridge.ReleasePaymentAccounts | api/payment_bridge.py:954-994 | releases exactly the client's own leases among the given ids |
| SeatCapacity.SeatComposition | api/business_masters.py:436-475 | the accumulating loop with its early exits equals an all-or-nothing sum over the entries |
| SeatCapacity.RecurringInvoiceSeatComposition | api/business_masters.py:668-697 | the same for the recurring invoice lines |
| SeatTheorems.AllOrNothing | api/business_masters.py:668-697 | the lines give a split exactly when every recurring line is readable and some seat is there, and it is the sum of all quantities of each type |
| SeatTheorems.OrderIsIrrelevant | api/business_masters.py:668-697 | bodies whose lines are a permutation of each other get the same breakdown and the same total |
| SeatTheorems.LinesAdd | api/business_masters.py:682-697 | two line lists together count as the sum of both, and either one spoils it |
| SeatTheorems.SplittingALine | api/business_masters.py:682-697 | writing a line of p + q seats as two lines changes neither entry point's answer |
| SeatTheorems.OneOffLinesAreIrrelevant | api/business_masters.py:615-647 | prorations and one-off items may come and go |
| SeatTheorems.ProrationsMayComeAndGo | api/business_masters.py:615-623 | adding or removing a proration anywhere changes neither entry point's answer |
| SeatTheorems.EntryPointsAgree | api/business_masters.py:700-763 | a known split is complete and positive and its total is what the other entry point reports; otherwise only the metadata snapshot is left and no typed number |
| SeatTheorems.SpoiledEntrySpoilsTheList | api/business_masters.py:458-475 | an explicit list with one unreadable entry is not used in part |
| SeatNames.NamedListCounts | api/business_masters.py:427-471 | an explicit composition counts for each type the quantities under the six names of standard and the four of prolite seats, in any spelling |
| SeatNames.UnknownNameSpoils | api/business_masters.py:466-467 | one entry under any other name spoils it |
| SeatNames.EntryKeys | api/business_masters.py:459-465 | an entry's type is read from the first non-empty of three keys, its quantity from "quantity" whenever that key is there |
| SeatNames.OtherQuantityKey | api/business_masters.py:462-465 | without "quantity" it is read from "seat_quantity" |
| SeatNames.CompositionForms | api/business_masters.py:442-456 | a text is read as JSON, an object with a type is one entry, a list is taken entry by entry, anything else is no composition |
| SeatNames.FiveAndTwo | api/business_masters.py:437-474 | the concrete list of five default and two prolite seats |
| SeatNames.MetadataKeyCounts | api/business_masters.py:476-505 | a quantity under one of the ten metadata keys counts for the type the key names, and under no other key |
| SeatNames.MetadataReads | api/business_masters.py:476-505 | a readable list goes before the single keys |
| SeatNames.FirstKeyDecides | api/business_masters.py:493-504 | of several keys for one type the first that is there decides, readable or not |
| SeatNames.SourcesInOrder | api/business_masters.py:508-529 | the invoice's own composition is believed before its subscription's, that before the metadata of the subscription and of the invoice, and those before the lines |
| SeatNames.LineAdds | api/business_masters.py:615-695 | which lines count by type, proration and marks, and what each adds or spoils |
| SeatNames.LinesAre | api/business_masters.py:668-676 | the lines are the list under "data" of the invoice's "lines" |
| SeatNames.QuantitiesMean | api/business_masters.py:389-424 | zero is a quantity in a composition and none on a line; fractions and booleans are quantities nowhere |
| AdmissionGuard.GuardIsSoundExactlyWhenRead | api/business_masters.py:1517-1531 | sending is safe in every workspace that fits what was read exactly when both the statistics and the pending invitations could be read |
| AdmissionGuard.GuardKeepsThePlan | api/business_masters.py:1516-1531 | when an admission is given on a full reading, members, pending invitations and the addresses it sends fit the plan that was read, whatever the account table holds, and nothing is admitted from an overflowing or paused workspace |
| AdmissionGuard.UnreadGuardOverfills | api/business_masters.py:1517-1531 | concrete workspaces with a full plan in which an address is sent after a computation that raised and after one without the pending invitations |
| AdmissionGuard.InPoolExactly | api/business_masters.py:1466-1490 | an account is drawn exactly when it is invitable and fewer than `limit` invitable accounts stand before it |
| InviteRecords.AdmitsAsMuchAsFits | api/business_masters.py:1503-1531 | on a full reading an invitation is refused exactly from a paused, overbilled or full workspace, and otherwise admitted for what was asked (1 to 500) or what the plan holds, whichever is less |
| InviteRecords.PauseIs | api/business_masters.py:881-893 | an active pause stays; otherwise there is one exactly when more seats are billed or in use than planned, for the configured hours, at least one |
| InviteRecords.ResumingLifts | api/business_masters.py:987-998 | resuming lifts the pause of this master and of no other |
| InviteRecords.BeginsGuarded | api/business_masters.py:1501-1516 | which invitations are turned away at once, which are guarded and which are not |
| InviteRecords.InvitedExactly | api/business_masters.py:1556-1567 | an id is among the invited exactly when some reported text, trimmed and in lower case, is the address of its pool entry |
| InviteRecords.RecordsExactlyTheReported | api/business_masters.py:1532-1579 | over every interleaving, the record of an invitation makes exactly the accounts that were sent and reported this master's, and touches no other |
| InviteRuns.InvitableUntilMarked | api/business_masters.py:1532-1585 | over every interleaving of calls of any masters, an invitable account stays so exactly until an invitation answered for it is recorded; drawing and sending do not take it out of the pool |
| InviteRuns.DrawnAgainExactly | api/business_masters.py:1532-1585 | a later draw takes an account that an earlier draw has taken exactly when nobody recorded it in between and fewer than the later limit stand before it |
| InviteRuns.RecordedTwiceMeansOverlap | api/business_masters.py:1532-1585 | if two records name the same account, the later call had drawn its pool before the earlier record: invitations that do not overlap invite nobody twice |
| InviteRuns.RetiredForGood | api/business_masters.py:963-982 | an account that was recorded as invited is in no later pool, even after its removal from the workspace |
| InviteRuns.RemovedIsInvitableExactly | api/business_masters.py:963-982 | after a removal the account is invitable exactly when its status was so all along, it has an address, and this master or nobody owned it |
| InviteSchedules.RemovedMemberStaysOut | api/business_masters.py:963-982 | a run of a whole invitation and a removal after which no pool of any size takes the account |
| InviteSchedules.OverlappingInvitesShareAnAccount | api/business_masters.py:1493-1585 | a schedule of two guarded invitations after which one address was sent for two workspaces and belongs to the second |
| InvitePauses.PauseKeepsItsEndExactly | api/business_masters.py:857-930 | over every run that neither resumes a master nor looks at it after the end, an active pause keeps its end throughout exactly when no computation that had already worked out something else stores it |
| InviteSchedules.OverlappingComputationClearsThePause | api/business_masters.py:857-930 | a schedule of two computations after which a day's pause is gone at once |
| InvitePauses.PausesComeFromOverflow | api/business_masters.py:881-893 | over every interleaving, each stored pause was there at the start or was worked out by a computation that saw an overflow and read no active pause, and ends the configured hours (at least one) after it |
| InvitePauses.GuardedDrawFitsItsReading | api/business_masters.py:1516-1532 | over every interleaving, a guarded invitation draws only after a computation that raised, or after one that read no active pause and no overflow and whose plan its batches fit |
| InvitePauses.SeenPauseRefuses | api/business_masters.py:881-930 | a computation that sees an overflow or reads an active pause stores an active pause and its invitation is refused, whatever happens in between |
| InviteSchedules.FailedComputationOverfills | api/business_masters.py:1517-1545 | a whole guarded invitation into a full workspace whose statistics raise |
| SeatRuns.SeatLedger | api/business_masters.py:845-886 | over every interleaving: seats in use are those a call has read, plus what it has landed, plus members that joined between its two readings, plus what others took since |
| SeatRuns.LandsInExcessExactly | api/business_masters.py:1516-1560 | an arriving invitation of a guarded call finds the plan exceeded exactly when more was taken behind its readings than the room it read and leaves unused, whoever else invites |
| SeatRuns.ExceededExactly | api/business_masters.py:1516-1560 | over every interleaving of guarded calls of all masters of a workspace, the plan is ever exceeded exactly when an invitation arrives whose call was outrun in that sense |
| SeatRuns.OutrunMeansOverlap | api/business_masters.py:1516-1560 | that needs another call's invitation arriving after the second reading, or somebody joining between the two |
| SeatRuns.ApartKeepsThePlan | api/business_masters.py:1516-1560 | guarded invitations without such overlaps never exceed the plan, over any run |
| SeatSchedules.TwoGuardsShareOneSeat | api/business_masters.py:1516-1585 | a run of two guarded, correctly read invitations of one master that takes six of five seats |
| SeatSchedules.GuestIsCountedByNeither | api/business_masters.py:845-886 | a run of one guarded, correctly read invitation that takes six of five seats |
| BusinessMasters.Masters.ReadStats | api/business_masters.py:857-893 | from what one session reads: room, pause to store (an active one as it is), and paused iff overflowing or paused before |
| BusinessMasters.Masters.InvitablePool | api/business_masters.py:1466-1490 | the loop with its early stop yields the first `limit` invitable accounts |
| BusinessMasters.Masters.SendBatches | api/business_masters.py:1536-1560 | the batches are the drawn pool in order, at most six each, all but the last of exactly six |
| BusinessMasters.Masters.MarkInvited | api/business_masters.py:1566-1585 | the loop records exactly the reported accounts of the pool |
| AdmissionGuard.BatchesPartition | api/business_masters.py:1537-1537 | the batches are the pool in order, each of at most six and all but the last of exactly six |
| ProxyPool.StepKeeps | core/dynamic_proxy.py:159-225 | every step of daemon, borrowers, configuration and restart keeps births sorted and spaced and the pool small |
| ProxyPool.PoolStaysSmall | core/dynamic_proxy.py:170-225 | the pool never holds more than lifetime divided by refill interval plus one entries, plus one more when the daemon is restarted |
| ProxyPool.SmallTeamsHoldThirteen | core/dynamic_proxy.py:39-62 | for concurrency up to twelve the pool holds at most 13 entries although its target is 30 |
| ProxyPool.EvictIsFilter | core/dynamic_proxy.py:159-167 | evicting from the left is filtering exactly when no expired entry stands behind one that is alive |
| ProxyPool.BorrowGivesTheYoungest | core/dynamic_proxy.py:181-188 | in every reachable state a borrower gets the youngest entry, within its lifetime, and nothing only when none is alive |
| ProxyPool.PushStores | core/dynamic_proxy.py:170-178 | after a push the address is the youngest entry and the target is kept |
| ProxyPool.ParametersAre | core/dynamic_proxy.py:41-65 | room for one and a half addresses per worker but at least thirty; the interval a worker's share of the minute between one and five seconds |
| ProxyPool.FetchesExactly | core/dynamic_proxy.py:209-224 | a cycle fetches exactly when the service is on and fewer entries than the target are at most a minute old |
| ProxyPool.StartsWith | core/dynamic_proxy.py:228-252 | starting sets both parameters if a number of workers is given, and begins a daemon exactly when there is none |
| ProxySupply.BirthsTakeFullCycles | core/dynamic_proxy.py:209-225 | in every run whose fetches take at least some time, the n-th address comes after n-1 full cycles of interval plus fetch time and its own fetch |
| ProxySupply.SupplyMeetsDemandExactly | core/dynamic_proxy.py:39-62 | the daemon can bring every n-th address within n shares of the minute exactly when refill interval plus fetch time is at most a worker's share |
| ProxySupply.NoTimeToFetch | core/dynamic_proxy.py:39-62 | from twelve to sixty workers that holds for instant fetches only |
| ProxySupply.TwentyWorkersWait | core/dynamic_proxy.py:39-62 | twenty workers, one-second fetches: in every run the fourth address is late |
| ProxySupply.RestartNeedsTheOldDaemonGone | core/dynamic_proxy.py:228-255 | after a start, over every run without another stop or start, the daemon can get lost exactly when the earlier one was alive and had been told to stop |
| ProxySupply.LostStaysLost | core/dynamic_proxy.py:209-255 | a lost daemon stays lost and the pool only shrinks until the next start |
| ProxyPool.QuickRestartLosesTheDaemon | core/dynamic_proxy.py:228-255 | a concrete run that ends without a daemon |
| DynamicProxy.Pool.PushToPool | core/dynamic_proxy.py:170-178 | the deque after a push, with its two loops |
| DynamicProxy.Pool.BorrowDynamicProxy | core/dynamic_proxy.py:258-274 | pool first, then a direct fetch; nothing when disabled |
| MailWait.WaitIsFirstQualifying | core/gmail_mailbox.py:227-277 | the wait answers with the first qualifying message of everything the answered polls brought, without baseline ids and repeated ids, and with nothing iff there is none |
| MailWait.NothingIsMissed | core/gmail_mailbox.py:255-268 | when it ends without an answer, no delivered message would have qualified at its first appearance: failed polls lose nothing |
| MailWait.NoIdIsLookedAtTwice | core/gmail_mailbox.py:232-238 | over a whole wait the ids that are looked at are all different, none empty and none of the baseline |
| MailWait.TimeOutIsHonest | core/gmail_mailbox.py:256-277 | a time-out is never early, comes after a bounded number of polls and names the failure of the last poll if it failed |
| MailRules.YieldsExactly | core/gmail_mailbox.py:232-248 | a mail yields a value exactly when every sender is trusted, it is no older than half a minute before the start, and it is the link, or the code in a mail with the keyword that is not excluded |
| MailRules.TrustedExactly | core/gmail_mailbox.py:211-222 | an address is trusted exactly when what follows its last at sign is one of the two domains or below one of them |
| MailRules.HeardExactly | core/gmail_mailbox.py:200-201 | what was heard is exactly what answered polls brought for this address, in any spelling |
| MailRules.FailureDecides | core/gmail_mailbox.py:262-268 | exactly network errors and timeouts lead to another look, any other failure ends the wait under its known code |
| MailRules.LooksEveryThreeSeconds | core/gmail_mailbox.py:255-273 | the counterpart of the bound on polls: while nothing comes the wait looks at least once in every three seconds |
| MailRules.SleepStopsSoon | core/base_mailbox.py:169-175 | a request to stop ends a sleep before another quarter second has passed |
| GmailMailbox.Mailbox.Wait | core/gmail_mailbox.py:227-277 | the deadline loop, which terminates, equals the specified wait |
| GmailMailbox.Mailbox.Poll | core/gmail_mailbox.py:232-249 | one pass over one listing, with the set of ids it has looked at |
| GmailMailbox.Mailbox.SleepWithCheckpoint | core/base_mailbox.py:169-175 | sleeps in quarter seconds, at least as long as asked unless interrupted |
| GmailMailbox.Mailbox.GetCurrentIds | core/gmail_mailbox.py:203-209 | the baseline is what the listing showed; a failed listing keeps the old one |
| PercentCode.QuoteRoundTrip | core/proxy_utils.py:53-54 | every text survives percent-encoding of its UTF-8 bytes (section 2.1 of RFC 3986) |
| Encodings.QuoteOfAscii | core/proxy_utils.py:53-54 | unreserved characters stand for themselves, any other ASCII character becomes a percent sign and its two upper-case hexadecimal digits (sections 2.1 and 2.3 of RFC 3986) |
| Encodings.NotIdenticalToAlpha | core/proxy_utils.py:53-54 | the UTF-8 example of section 7 of RFC 3629 |
| Encodings.StumpOfATree | core/proxy_utils.py:53-54 | the example beyond the first plane of section 7 of RFC 3629 |
| ProxyTheorems.QuestionMarkBreaksTheRoundTrip | core/proxy_utils.py:49-56 | a concrete four-part text that does not come back |
| ProxyLimits.RoundTripExactly | core/proxy_utils.py:23-107 | for every text `host:port:user:password`, coercing it to a URL and extracting the browser settings gives back user, password, port and lower-cased host exactly when the text has neither `@` nor `://`, the host is plain and the port at most 65535 |
| ProxyLimits.UrlMarksBreakTheRoundTrip | core/proxy_utils.py:43-47 | a four-part text with `@` or `://` is read as a URL, and never gives its parts back |
| ProxyLimits.AtSignBreaksTheRoundTrip | core/proxy_utils.py:46-47 | a concrete text with `@` in the password, a plain host and a small port |
| ProxyLimits.WeightOfUnquoted | core/proxy_utils.py:94-107 | percent-decoding any text never adds an `@` or `%` in total |
| ProxyRoundTrip.NormalizeKeepsNetloc | core/proxy_utils.py:7-20 | rewriting socks5 to socks5h keeps the authority that is read back, for every authority that is neither empty nor followed by blanks |
| ProxyTheorems.PartsOfText | core/proxy_utils.py:49-54 | host, port and user without colons and any password are found again in the text |
| ProxyForms.WholeUrl | core/proxy_utils.py:43-44 | a URL with these percent-encoded credentials, host and port gives these settings under its own scheme |
| ProxyForms.CredentialsFirst | core/proxy_utils.py:46-47 | so does the form without a scheme, under the default scheme |
| ProxyForms.PlaceAlone | core/proxy_utils.py:58-59 | host and port alone give this host and port and no credentials |
| ProxyForms.DefaultSchemeIs | core/proxy_utils.py:39-41 | the configured scheme if it is one of the four, in any spelling, else http |
| Base64.RoundTripExactly | core/credential_crypto.py:59-72 | unpadded base64url comes back for every byte string but the empty one, which is refused (sections 3.2 and 5 of RFC 4648) |
| Encodings.FourDigits | core/credential_crypto.py:59-60 | three bytes are one number written with four digits of the URL-safe alphabet, the first digit first (sections 4 and 5 of RFC 4648) |
| Encodings.Foobar | core/credential_crypto.py:59-60 | the examples of section 10 of RFC 4648, and a pair that shows hyphen and underscore |
| Encodings.EitherAlphabetIsRead | core/credential_crypto.py:63-72 | a text in the ordinary alphabet is read as the same text in the URL-safe one |
| Encodings.ForeignCharacterIsRefused | core/credential_crypto.py:63-72 | a character of neither alphabet makes a text unreadable wherever it stands |
| CredentialEnvelope.KeyRoundTrip | core/credential_crypto.py:75-95 | a key is 43 characters and survives base64url, base64url with a line feed, and hexadecimal |
| CredentialEnvelope.HexIsNoBase64Key | core/credential_crypto.py:84-95 | the two readings of key material cannot be confused |
| CredentialEnvelope.AssociatedDataIsInjective | core/credential_crypto.py:227-232 | equal associated data means equal normalised email and field, even when the email contains colons |
| Encodings.EnvelopeHolds | core/credential_crypto.py:227-245 | what is written: the version tag and, in base64url, nonce and text sealed under the prefix, normalised email and field |
| Encodings.NoEnvelope | core/credential_crypto.py:248-268 | a text without the tag, or with too little behind it, is refused |
| Encodings.KeysAreThirtyTwoBytes | core/credential_crypto.py:75-95 | key material is accepted exactly as 64 hexadecimal digits or base64 of 32 bytes |
| CredentialEnvelope.OpensExactlyForItsIdentity | core/credential_crypto.py:235-268 | what was encrypted for one email and field decrypts to the same text exactly under the same key for the same normalised identity, and to nothing else |
| CredentialEnvelope.EncryptsExactlyKnownIdentities | core/credential_crypto.py:49-56 | encryption accepts exactly non-empty emails of at most 320 characters with one of the four fields |

## Left out

- Networking, browser driving, IMAP, OCR and subprocess plumbing: remote answers and the operating system are arbitrary inputs.
- The registration, login, refund and payment-page flows inside an attempt: only reserving, collecting and settling are modelled.
- Liveness of the dispatcher: failed attempts are retried without end, so only what holds on leaving the loop is claimed.
- `_prepare_register_request` (api/tasks.py:102) rejects other requests before `_run_register`; the model starts at `_run_register` with an arbitrary request.
- The plain mode of `_run_register` (api/tasks.py:2342-2350), logs, timestamps and progress metadata.
- The archive's contents: only names, order, counts and whether it could be written are kept.
- Free-port choice, the readiness protocol and the page wrapper's `quit` in core/browser_startup.py; of `owns_listener` only what it records, and only until the attempt ends: a readiness probe that outlives its budget is not modelled.
- Allocator concurrency below one session: each allocator call is one step; non-numeric limits and ids are taken as already parsed.
- The grok synchronisation callback, cookie export, paid-account listings beyond their repair step, and the generic bridge routes of api/payment_bridge.py.
- Editing or deleting master rows apart from the plan; the remote part of removing a member; the seat-full hint in the invitation's answer.
- The order in which batches of one invitation go out. Any part of a call's addresses may arrive in its workspace at any moments between the draw and the report; the report itself is an arbitrary input.
- SeatRuns.ExceededExactly: does not cover workspaces into which people are also invited by hand, or by the refund route (api/business_masters.py:1095), which asks no guard; SeatRuns.LandsInExcessExactly covers them.
- SeatCapacity: invoice amounts, currency and period are not read; NaN and infinite quantities, which the source refuses, have no counterpart.
- Two `start_pool_daemon` calls racing before the thread runs: one daemon at a time is assumed.
- SubdomainRows.RepeatsExactlyDisabled: the label is that of the given draws; how draws are distributed is not modelled.
- Floating point in the pool and the waits: times and intervals are exact reals.
- Lower-casing and NFKC checks of hosts that are not ASCII; port texts of thousands of digits.
- PercentCode.DecodeAll: malformed UTF-8 is replaced byte by byte, which need not group bytes as Python does; the round trip never meets it.
- CredentialEnvelope.OpensExactlyForItsIdentity: the ideal cipher's output is at least as long as a tag, not exactly plaintext plus tag, because finitely many ciphertexts cannot keep all associated data apart.
- Redaction of proxy URLs for logs, and `build_requests_proxy_config`.
- Base64 texts whose own padding is misplaced: interpreter versions differ on a few of them; the model refuses all but exact padding.
- Key-file creation and permissions, the check for encrypted rows, nonce generation, and the strength of the cipher.
