# Clientbridge verification models

Dafny models of the parts of Clientbridge whose behaviour is hard to see from one test: the shard
balancer and the shared test tier of the end-to-end harness, the Stripe lane (relay, event shapes,
intent cleanup), the demo builder (calendar, row index, timestamps), the sink inference of the
structure check, and the CBOR encoder of the passkey stand-in. Each module models one component
and proves what that component is for.

| module | component |
|---|---|
| `Shards` | the longest-first balancer of end-to-end cases over shards and workers |
| `Leases` | the slots and namespaces of the test tier, leased by processes that may crash |
| `Tier` | holding, rebuilding and refreshing the test tier under one advisory lock |
| `Relay` | the Stripe relay that holds, releases, redelivers and recovers one event |
| `Shapes` | the recorded shapes of Stripe events: join, check of fakes, check of regressions |
| `Cleanup` | settling, refunding or canceling an owned payment intent |
| `Calendar` | the allocator that moves demo slots to times that fit |
| `RowIndex` | the incremental index of the demo rows |
| `Chronology` | the bounded relaxation that makes no demo row older than what it belongs to |
| `Sinks`, `Cells` | which parameters reach readers, and which texts an argument holds |
| `Cbor` | the CBOR encoder, with a decoder written from RFC 8949 |
| `Names`, `Results` | string order, options and results |

Code that changes state step by step is modelled by classes and methods (`RowIndex.DemoContext`,
`Chronology.Row`, `Calendar.Slot`, `Cleanup.Provider`, `Relay.Relay`, `Shapes.Recordings`), each
proved equal to a function of the old state and to what that means for its callers; the properties
over every input or every run are lemmas about those functions. The two protocols of the test tier and the relay are state machines
whose steps are the sections between which other processes or threads may run, and their properties
hold in every interleaving. Where a step of the tier is not one step in the code, the machine takes
a flag, and the property has its exact condition for either value of it.

## Where the code differs from what it says

- `balanced` says that a unit goes to the shard whose time grows the least; it goes to the shard
  whose resulting time is least (`backend/e2e/shards.py:74-79`), which is the same for every table
  only with one worker (`Shards.GrowsLeastIff`). The model follows the code.
- The test that a namespace has no record and the claim of its lock are separate steps
  (`backend/e2e/tier.py:694-703`), so a namespace that a crashed run left may be leased after all;
  `Leases.CrashedNamespaceStaysFreeIff` says exactly when.
- The lock is let go for a moment when an exclusive holder goes on to share it
  (`backend/e2e/tier.py:569`), so with two processes one may hold a tier that another took down
  (`Tier.NeverForeignIff`, `Tier.NeverForeignAlone`).
- A recording may report differences for the very objects it was made of, when their sorts differ;
  `Shapes.RecordingAdmitsIff` and `Shapes.WholeIff` say exactly when.
- The row index says that other changes rebuild it; a row replaced in place before the last one seen
  does not (`backend/scripts/demo_context.py:374-382`, `RowIndex.ReplacementAnsweredIff`);
  `RowIndex.RunAnsweredIff` says exactly when lookups stay right after any changes.
- Series are said to keep their weekday; one that starts in the last quarter of an hour before
  midnight may lose it (`backend/scripts/demo_calendar.py:260-265`,
  `Calendar.WeekdayKeptByAllHoursIff`).
- Hours are compared by time of day, so a visit across midnight may be placed outside every window
  (`backend/scripts/demo_calendar.py:229-236`, `Calendar.FittingLiesInWindowIff`).
- Ten rounds need not reach the latest times along ten links
  (`backend/scripts/demo_chronology.py:27`); `Chronology.TenRoundsSolveIff` says exactly when they do.
- The sink inference may miss calls when two functions of one name take different parameters at one
  position (`Sinks.ExactForAllBodiesIff`, `Sinks.RenamedParameterIsMissed`), and never ends when a
  parameter is handed to sinks of two depths (`Sinks.TwoRowWritersDisagree`, `Sinks.Pass`).
- The walk over cells opens a node at the level it meets first, so a text reached at two levels may be
  missed (`Cells.FindsAllIff`, `Cells.TextIsLost`).
- A cleanup that asks again for a refund under a key that was used before gets the earlier refund;
  `Cleanup.PutBackConserves` states exactly when the money adds up, and `Cleanup.PutBackEndsRun`
  that in a run of cleanups it always does when lost disputes leave room for it.

## Model

| member | source | states |
|---|---|---|
| Shards.ShardSeconds | backend/e2e/shards.py:64-70 | Accumulating seconds per file in a table gives the wall time of a shard: the larger of the even share of its units over the workers and its longest file. |
| Shards.LongestFileBounds | backend/e2e/shards.py:66-70 | The longest-file term is at least the total of every file. |
| Shards.FileIs | backend/e2e/shards.py:68-68 | A unit's file is all before its last colon, whatever colons the file's own name has. |
| Shards.LongestFileIsAttained | backend/e2e/shards.py:66-70 | And it is the total of a file that is there, so it is the maximum. |
| Shards.OneWorkerSums | backend/e2e/shards.py:70-70 | With one worker a shard's time is the plain sum of its units. |
| Shards.SortUnits | backend/e2e/shards.py:76-76 | The units come out longest first, equal ones by name, all of them once. |
| Shards.OrderedIsUnique | backend/e2e/shards.py:76-76 | There is only one such order, so the outcome does not depend on the order of the input. |
| Shards.ChosenIsLeast | backend/e2e/shards.py:77-79 | The shard chosen for a unit has the least resulting time of all shards, and is the first of those. |
| Shards.GrowsLeastIff | backend/e2e/shards.py:73-81 | With two shards or more, every unit of every table goes to a shard whose time grows the least exactly when there is one worker. |
| Shards.Balanced | backend/e2e/shards.py:73-81 | The loop places the units of that order one by one on the chosen shards; without a shard it fails exactly when there is a unit. |
| Shards.PlacedConserves | backend/e2e/shards.py:73-81 | Any measure of the units, summed over all shards, is that of the units. |
| Shards.EveryUnitPickedOnce | backend/e2e/shards.py:73-81 | Across all shards every listed unit is picked exactly once. |
| Shards.WithinFourThirdsOfBest | backend/e2e/shards.py:73-81 | With one worker every shard takes at most 4/3 - 1/(3m) of the largest shard of any assignment of the same units to m shards. |
| Shards.WithinLargestFileOrEvenSplit | backend/e2e/shards.py:73-81 | With w workers and m shards every shard takes at most the largest file's total, or (T + (m - 1) u) / (m w) for all seconds T and the longest unit u. |
| Shards.NoShardEmptyIffEnoughUnits | backend/e2e/shards.py:105-107 | With one worker and positive seconds no shard is empty exactly when there are at least as many units as shards. |
| Shards.NoShardEmptyForAllIff | backend/e2e/shards.py:105-107 | With two shards or more, as many units of positive seconds as shards leave none empty, in every table, exactly with one worker. |
| Shards.ListedUnits | backend/e2e/shards.py:99-104 | Cases of one line are one unit whose seconds are theirs together, the usual time for a case without one. |
| Shards.OwnLineOwnSeconds | backend/e2e/shards.py:99-104 | A case alone on its line is a unit of its own recorded seconds, or the usual ones without a record. |
| Shards.ShardFilters | backend/e2e/shards.py:90-108 | A shard's filters are exactly its units of the balanced split, by name, numbers below one counting shards from the end; it fails exactly when there is no such shard or it is empty. |
| Leases.SlotsShareNothing | backend/e2e/tier.py:70-72 | Slots share no port and no Redis database, neither with each other nor with the tier's services. |
| Leases.NamespacesShareNoBucket | backend/e2e/tier.py:603-605 | Different namespaces have different buckets. |
| Leases.StepKeepsLocked | backend/e2e/tier.py:680-711 | Every step of any process, crashes and probes included, keeps each process holding the locks its place needs. |
| Leases.LeasesShareNothing | backend/e2e/tier.py:680-711 | In every interleaving two live leases share no slot, namespace, port, database or bucket. |
| Leases.LeaseIsTaken | backend/e2e/tier.py:680-711 | With a slot and a namespace free and no record, the steps of a lease end with both locks held and the lease on record. |
| Leases.LeaseIsGivenBack | backend/e2e/tier.py:707-711 | And the steps of ending it give back exactly what was taken. |
| Leases.ProbesGiveBack | backend/e2e/tier.py:617-640 | Probing a free lock, or giving a slot up again, leaves locks and records as they were. |
| Leases.EveryLockIsNeeded | backend/e2e/tier.py:680-711 | In every interleaving each lock is held by a process whose place needs it: when a lease or a probe ends or crashes, its locks are free. |
| Leases.RecordKeepsOthersOut | backend/e2e/tier.py:694-703 | With test and claim in one step, nobody leases a namespace while another process's record of it exists. |
| Leases.CrashedNamespaceStaysFree | backend/e2e/tier.py:694-703 | So no run of the protocol leases a namespace whose record a crashed run left. |
| Leases.CrashedRecordStays | backend/e2e/tier.py:694-703 | With test and claim in one step, what a crashed run registered stays on record over any further run. |
| Leases.RegisteredUntilEnded | backend/e2e/tier.py:607-614 | Registering puts a lease on record, ending it takes it off, and nothing else changes that but another lease of the same namespace. |
| Leases.CrashedNamespaceStaysFreeIff | backend/e2e/tier.py:694-703 | With separate steps, a run never leases a namespace whose record a crashed run left exactly when none of its claims came after another run's record of the namespace it had tested. |
| Leases.CrashedNamespaceMayBeLeased | backend/e2e/tier.py:694-703 | Two interleaved runs and a crash do make such a claim. |
| Tier.StepKeepsLocked | backend/e2e/tier.py:544-578 | Every step keeps each process's locks as its place says, and the exclusive lock alone. |
| Tier.RebuildsAlone | backend/e2e/tier.py:557-568 | While a process destroys or starts the tier no other is inside its hold, whatever the atomicity. |
| Tier.DecideIs | backend/e2e/tier.py:555-568 | Alone with the lock, a process keeps the tier exactly when it wants it, it is well and its own on every part it compares; takes it down exactly when asked to or when it runs with other code; and starts it otherwise. |
| Tier.EnterIs | backend/e2e/tier.py:544-550 | Scripts are refreshed exactly when the tier runs, the command uses it, and of what it compares they alone differ; only their own entry is then put on record. |
| Tier.Shares | backend/e2e/tier.py:551-578 | A tier in use is shared by a further hold exactly when it is its own; otherwise nothing but its leaving is left. |
| Tier.Resets | backend/e2e/tier.py:745-771 | With nobody using the tier, a reset ends with the process's own fingerprint on record and no lock held. |
| Tier.InUse | backend/e2e/tier.py:750-762 | While the tier is in use, bringing it up waits to share it, and resetting it or taking it down is refused. |
| Tier.StepToBuilt | backend/e2e/tier.py:555-568 | A process comes to have a tier only by starting it, or by finding it well and its own while alone. |
| Tier.StepToHolding | backend/e2e/tier.py:569-578 | And to use it only by settling on such a tier, or by finding it its own while sharing it. |
| Tier.NeverForeignIff | backend/e2e/tier.py:527-578 | Whichever of the downgrade and the refresh are atomic: no run lets a process hold a tier that differs from its own in a needed part but the scripts, exactly when there are no two processes, or the downgrade is atomic and either the refresh is too or none of them needs such a part. |
| Tier.NeverForeignAlone | backend/e2e/tier.py:569-569 | With a downgrade that is not atomic, that is exactly when there is at most one process. |
| Tier.HoldersKeepTheirTier | backend/e2e/tier.py:544-578 | With an atomic downgrade and an atomic refresh, every process inside its hold sees its own fingerprint on record for each needed part but the scripts. |
| Tier.DowngradeMatters | backend/e2e/tier.py:569-569 | Without an atomic downgrade any two processes, of equal checkouts too, have a run in which one holds a tier that is not its own. |
| Tier.RefreshMatters | backend/e2e/tier.py:527-550 | Without an atomic refresh there is such a run for any two processes of which the second needs a part but the scripts: the refresh leaves a record of scripts alone under a rebuilt tier. |
| Relay.OwnedIsOfTheFixture | backend/e2e/stripe_relay.py:172-192 | An event that passes the ownership check pays the target's own invoice or booking for the customer of that very fixture. |
| Relay.OwnsIff | backend/e2e/stripe_relay.py:172-192 | An event is the target's own exactly by all of these: not live, the account's, 2000 in cad, the business's, and of the target's invoice and its first fixture's customer, or of its booking alone and its one deposit's customer. |
| Relay.RegisteredIff | backend/e2e/stripe_relay.py:148-170 | A target may be armed exactly for an intent of one registered fixture's invoice, or without an invoice for a booking with one deposit fixture whose customer is known. |
| Relay.EveryRunIsGood | backend/e2e/stripe_relay.py:148-280 | In every reachable state no answered event is lost, a held event is owned by the armed target, and deliveries are one at a time and in time. |
| Relay.NoEventIsLost | backend/e2e/stripe_relay.py:194-280 | Each event answered 202 is still held, or has a later record of its release with status 200 or of its recovery, also when a duplicate arrives during a release. |
| Relay.HeldIsTheTargets | backend/e2e/stripe_relay.py:194-213 | A held event names the armed target's intent and passed the ownership check for that target. |
| Relay.HeldNeverChanges | backend/e2e/stripe_relay.py:208-210 | Over any further run that holds something throughout, it is one and the same event. |
| Relay.OneFlightInTime | backend/e2e/stripe_relay.py:219-265 | At most one release or redelivery is in flight, and it started under 240 seconds after its copy was received. |
| Relay.RedeliveryIsOfReleased | backend/e2e/stripe_relay.py:245-265 | Only events that upstream took with 200 are delivered again. |
| Relay.CleanCloseOwesNothing | backend/e2e/stripe_relay.py:407-408 | When the last check of closing passes, every answered event was delivered or is to be sent again. |
| Relay.StoppedTakesNothing | backend/e2e/stripe_relay.py:148-248 | Over any further run from stopping on, nothing new is armed, held or started. |
| Relay.JourneyHolds | backend/e2e/stripe_relay.py:148-213 | From a free relay, arming a registered target and receiving its owned event ends with just that event held and both on record. |
| Relay.JourneyReleases | backend/e2e/stripe_relay.py:219-243 | A release taken with 200 ends with the event delivered, one record and the relay free, with any other status with it held as before. |
| Relay.JourneyRedelivers | backend/e2e/stripe_relay.py:245-265 | Sending a delivered event once more adds its record and changes nothing else. |
| Relay.JourneyRecovers | backend/e2e/stripe_relay.py:267-280 | Recovering ends with nothing held or armed, and the event on record as asked for and as sent for. |
| Relay.JourneyExpires | backend/e2e/stripe_relay.py:226-228 | 240 seconds after it came a held event is not released, is recorded as expired and stays held. |
| Relay.NothingAfter | backend/e2e/stripe_relay.py:219-280 | Once stopping a held event is not released, a delivery answers once, and only an event asked for again is recorded as sent for. |
| Relay.Relay.Arm | backend/e2e/stripe_relay.py:148-163 | Succeeds exactly when nothing is armed or held, the relay is not stopping and the target is registered; armed, the relay takes every genuine success event of the target's intent that is owned, refuses any other and forwards none; refused, nothing changes; no event is lost. |
| Relay.Relay.Receive | backend/e2e/stripe_relay.py:194-213 | A post is answered 202 exactly when it is genuine, of the armed intent, owned by the target and no other event is held; its record is then the last and it is the very copy that a release right after would send. A genuine post is passed upstream exactly when nothing is armed, it is no success event, or of another intent, and then nothing changes. Any other is refused for its reason, and leaves what is held; no event is lost. |
| Relay.Relay.StartRelease | backend/e2e/stripe_relay.py:219-231 | A release starts exactly when nothing is stopping or in flight and the held copy is under 240 seconds old and still signed; it sends that copy, and until it ends no release, redelivery or recovery gets through; what is held and armed stays; no event is lost. |
| Relay.Relay.CommitRelease | backend/e2e/stripe_relay.py:234-239 | Exactly one record is added; what is held is given up exactly if upstream answered 200 and it is still the copy that was sent, and then a record closes its event and any registered target may be armed; no event is lost. |
| Relay.Relay.Recover | backend/e2e/stripe_relay.py:267-277 | Recovery fails exactly during a delivery, and then changes nothing; otherwise nothing is held, a held event is named to be sent again with the record that closes it, and any registered target may be armed. |
| Shapes.ShapeOfList | backend/e2e/stripe_shapes.py:33-38 | Merging a list's items one after the other gives the list's shape. |
| Shapes.MergeCommutes | backend/e2e/stripe_shapes.py:42-59 | Merging commutes on all shapes. |
| Shapes.MergeIdempotent | backend/e2e/stripe_shapes.py:42-59 | A canonical shape merged with itself is itself. |
| Shapes.MergeCanonical | backend/e2e/stripe_shapes.py:42-59 | Canonical shapes merge to canonical ones. |
| Shapes.ShapeCanonical | backend/e2e/stripe_shapes.py:25-39 | The shape of every value is canonical. |
| Shapes.MergeAssociatesIff | backend/e2e/stripe_shapes.py:42-59 | Two merges of canonical shapes may be regrouped exactly when, at every shared path, the stated condition on their sorts holds. |
| Shapes.CompatibleMergeAssociates | backend/e2e/stripe_shapes.py:42-59 | Mutually compatible canonical shapes may always be regrouped. |
| Shapes.SortsDoNotAssociate | backend/e2e/stripe_shapes.py:42-59 | {}, [] and "string" may not. |
| Shapes.FoldIgnoresOrder | backend/e2e/stripe_shapes.py:104-108 | A recording of compatible shapes does not depend on the order of the events. |
| Shapes.AgreeingShapes | backend/e2e/stripe_shapes.py:25-39 | Values that agree at every path on being object, list or scalar have compatible shapes. |
| Shapes.ObjectProblems | backend/e2e/stripe_shapes.py:78-85 | Checking an object field by field finds exactly the problems of its fields. |
| Shapes.NoDifferencesIff | backend/e2e/stripe_shapes.py:62-93 | A fake has no differences exactly when, at each of its paths, the recording has the field and admits the sort and kind of what stands there, down to where the recording is open. |
| Shapes.ProblemsAreSo | backend/e2e/stripe_shapes.py:62-93 | Every problem reported is at a path of the fake and says of it what is so: a field not sent, or another sort or kind than recorded. |
| Shapes.ScalarAdmitsIff | backend/e2e/stripe_shapes.py:14-93 | A scalar seen once admits exactly null, its own kind, and whole numbers for fractional ones; null admits anything. |
| Shapes.MergeKeepsCover | backend/e2e/stripe_shapes.py:42-93 | Merging any shape in keeps everything that was covered covered, up to being mixed with other sorts. |
| Shapes.RecordingAdmitsIff | backend/e2e/stripe_shapes.py:25-108 | For all values: their recording reports no difference for any of them exactly when it is whole, naming no kind beside mixed at any path. |
| Shapes.WholeIff | backend/e2e/stripe_shapes.py:42-59 | Shapes merge to a whole one exactly when, at every path reached through one sort, those there are of one sort and all or none mixed, or the last is an object or a list, or the first of another sort, or mixed after such. |
| Shapes.RecordingAdmitsIffSettled | backend/e2e/stripe_shapes.py:25-108 | So a recording admits its values exactly when their shapes settle like that, in the order they come. |
| Shapes.RecordingAdmitsItsValues | backend/e2e/stripe_shapes.py:25-108 | The recording of agreeing values reports no difference for any of them. |
| Shapes.DisagreeingListRejectsItself | backend/e2e/stripe_shapes.py:33-93 | The list of a number, an object and a text rejects its own items. |
| Shapes.NumberAndObjectAdmitted | backend/e2e/stripe_shapes.py:33-93 | A number and an object disagree, and their recording admits both. |
| Shapes.RemovedAfterMergeIff | backend/e2e/stripe_shapes.py:111-134 | Merging more into a recording loses nothing exactly when no path that was null becomes an object or a list. |
| Shapes.RemovedIff | backend/e2e/stripe_shapes.py:111-134 | For any two recordings nothing is reported lost exactly when at every path of the committed one, not behind a null or an empty list of the fresh one, something still stands, null or of the same sort with every scalar kind besides null. |
| Shapes.LossesAreSo | backend/e2e/stripe_shapes.py:111-134 | Every loss reported is of such a path and says of it what is so: the field gone, the other sort, or the kinds missing. |
| Shapes.LossIsReported | backend/e2e/stripe_shapes.py:111-134 | And every such path where something else stands, or a field is gone from an object that still stands, is reported. |
| Shapes.RunFolds | backend/e2e/stripe_shapes.py:104-108 | After any run of the recorder, a type's recording is the fold of that type's own objects. |
| Shapes.RunAdmitsItsEvents | backend/e2e/stripe_shapes.py:62-108 | And no recorded event of a type whose objects agree differs from it. |
| Shapes.RunAdmitsIff | backend/e2e/stripe_shapes.py:62-108 | After any run a type's recording reports no difference for any object recorded of that type exactly when it is whole. |
| Shapes.Recordings.Record | backend/e2e/stripe_shapes.py:104-108 | After each call every recording is the fold of all its own type's objects so far and admits all of them exactly when it is whole, and other types' recordings stay. |
| Cleanup.PutBackConserves | backend/e2e/stripe_cleanup.py:102-150 | When cleaning up a paid intent succeeds, settled refunds and lost disputes make up the charge exactly when no more was lost than was left, under a key of its own. |
| Cleanup.PutBackIsDone | backend/e2e/stripe_cleanup.py:102-150 | Otherwise nothing is open, pending or owed. |
| Cleanup.PutBackIff | backend/e2e/stripe_cleanup.py:76-150 | A call puts a paid intent back exactly when all disputes are the charge's own and decided in time, all refunds settle and gave back what the charge counts, and the rest is nothing, or less after a loss, or its refund succeeds. |
| Cleanup.ReportIs | backend/e2e/stripe_cleanup.py:119-150 | A call that puts an intent back reports a loss or a full refund exactly when nothing is left, and otherwise the succeeded refund of what is left. |
| Cleanup.PlanIs | backend/e2e/stripe_cleanup.py:76-137 | A planned call answers, for every paid intent, what applying would do: a dispute loss, the refund of just what is left, or nothing more. |
| Cleanup.DoneCallChangesNothing | backend/e2e/stripe_cleanup.py:119-131 | A second call creates no refund and changes nothing, planned or applied. |
| Cleanup.PlannedIsApplied | backend/e2e/stripe_cleanup.py:119-150 | Without an open dispute the amount planned is the amount that applying refunds. |
| Cleanup.PlanningTakesNothing | backend/e2e/stripe_cleanup.py:76-137 | Planning creates no refund and loses no dispute. |
| Cleanup.RunKeeps | backend/e2e/stripe_cleanup.py:94-150 | However calls fail and statuses change between them, no run of cleanups refunds more than the charge. |
| Cleanup.PutBackEndsRun | backend/e2e/stripe_cleanup.py:94-150 | In a run, a call that succeeds leaves the intent done with, and the money adds up when lost disputes leave room. |
| Cleanup.DoneStays | backend/e2e/stripe_cleanup.py:94-166 | From then on every later call leaves refunds and charge as they are. |
| Cleanup.LoseOpen | backend/e2e/stripe_cleanup.py:78-82 | Editing the list of disputes while losing each open one returns what all lost disputes took. |
| Cleanup.SettledRefunds | backend/e2e/stripe_cleanup.py:112-118 | Waiting for each refund in turn returns what succeeded ones gave back, or fails at the first that does not settle. |
| Cleanup.CleanupIntent | backend/e2e/stripe_cleanup.py:94-166 | A paid intent is put back exactly when it may be, and fails without a change when it is not the run's own. A cancelable one is asked once to be canceled and reported so exactly if it is. A live, canceled or processing one is left as it is, each with its own answer. |
| Cleanup.CancelTwice | backend/e2e/stripe_cleanup.py:151-165 | Canceled once, a second call reports it and asks nothing. |
| Calendar.FindTime | backend/scripts/demo_calendar.py:215-267 | Moving the candidate on finds the first acceptable time tried, of at most 2000. |
| Calendar.FirstFitIsFirst | backend/scripts/demo_calendar.py:215-267 | That time is acceptable and none tried before it was; there is none exactly when all tries fail. |
| Calendar.FixedTriesItsOwnDate | backend/scripts/demo_calendar.py:260-265 | On its weekday a slot is tried next on its own date if it is past and its hours start over, a week on if it is to come, and else a quarter of an hour on, which leaves the date only in its last quarter. |
| Calendar.WeekdayKeptIff | backend/scripts/demo_calendar.py:259-265 | A step keeps the fixed weekday exactly before the day's last quarter of an hour, or when a past slot starts over. |
| Calendar.TriesMoveOn | backend/scripts/demo_calendar.py:259-265 | The tries of a slot to come only move forward. |
| Calendar.PastTriesGoBack | backend/scripts/demo_calendar.py:259-263 | A past slot without a fixed weekday goes back one day from a quarter of an hour on when its hours start over, and stays there otherwise. |
| Calendar.LiesInWindowIff | backend/scripts/demo_calendar.py:217-236 | A slot lies with its buffers inside an available window of its date exactly when it fits and stays within one day. |
| Calendar.FittingLiesInWindowIff | backend/scripts/demo_calendar.py:229-236 | Under all hours that a slot fits it lies in a window, exactly when it stays within one day: across midnight there are hours that it fits and none of whose windows holds it. |
| Calendar.UnblockedIsClear | backend/scripts/demo_calendar.py:237-245 | A slot that nothing blocks is over before or starts after every exception of its staff or of all. |
| Calendar.PlacedAcceptably | backend/scripts/demo_calendar.py:203-272 | Every placed slot fits its hours, is outside every exception, and is on its side of now. |
| Calendar.PlacedApart | backend/scripts/demo_calendar.py:246-272 | Two placed slots that are not canceled and share staff or a pet are apart with their buffers. |
| Calendar.WeekdayKeptByAllHoursIff | backend/scripts/demo_calendar.py:212-265 | Under all hours and occupied times a fixed slot is placed on its weekday, exactly when it is asked for before the day's last quarter of an hour or is past and could not end before now from the next day on. |
| Calendar.PlacedOnWeekday | backend/scripts/demo_calendar.py:212-265 | Under that condition every placed fixed slot is on its weekday, a past one on its date. |
| Calendar.FirstPlacedAlone | backend/scripts/demo_calendar.py:192-196 | Slots first in order are placed as if the others were not there, so one-off visits fit around series. |
| Calendar.SortedSlots | backend/scripts/demo_calendar.py:193-196 | The slots come out fixed ones first, then by start and id, all of them. |
| Calendar.OrderIs | backend/scripts/demo_calendar.py:193-196 | In that order slots of series and classes come before one-off visits, and alike ones by start and then by id. |
| Calendar.MoveSlot | backend/scripts/demo_calendar.py:268-274 | A slot and exactly its own bookings move to the start. |
| Calendar.AllocateInOrder | backend/scripts/demo_calendar.py:187-274 | The whole loop leaves slots and bookings at the times of the functional placement, or names the first slot for which no try is acceptable beside those placed before it. |
| Calendar.Allocate | backend/scripts/demo_calendar.py:187-274 | When it returns, in terms of slots, items and bookings alone: each slot takes its item's minutes and lies with its buffers in an available window, of its date if there are any; it is clear of exceptions, over before now exactly if it was over, else no earlier than it was; a series slot keeps its weekday unless it was in the day's last quarter of an hour; slots with one staff member or bookings for one pet do not overlap with their buffers unless canceled; bookings are with their slot. When it fails, no time tried for the slot named is acceptable beside those placed before it. |
| RowIndex.RunAnswersAsScan | backend/scripts/demo_context.py:346-388 | After any mix of appends, discards and lookups, or of removals too when no row is put in again, lookups answer what a plain scan answers, in its order. |
| RowIndex.AllIsTheScan | backend/scripts/demo_context.py:346-352 | With an index of the rows, all rows of a model are the scan of the rows. |
| RowIndex.GetIsTheFirst | backend/scripts/demo_context.py:354-359 | And one row is the first of the scan with that id, or missing exactly when there is none. |
| RowIndex.ReindexedIndexes | backend/scripts/demo_context.py:374-388 | If the rows seen last time are in place whenever the last of them is, indexing on gives the index of all rows. |
| RowIndex.AnsweredIff | backend/scripts/demo_context.py:374-388 | Whatever was done to the list since the index was taken of some rows: lookups answer as a scan for all classes exactly when it is rebuilt, or this business's rows among those it skips are, kind by kind, the rows it has seen. |
| RowIndex.RunAnsweredIff | backend/scripts/demo_context.py:346-388 | So it is after every run of appends, discards, lookups, removals and replacements, rows put in again included. |
| RowIndex.ReplacementAnsweredIff | backend/scripts/demo_context.py:374-382 | With an up-to-date index, putting another row in a place rebuilds it exactly at the last place, and lookups answer as a scan for all classes exactly there or when neither row is of this business. |
| RowIndex.DemoContext.Index | backend/scripts/demo_context.py:374-388 | After any of those mixes it leaves the index of all rows; in any case the fields are the function of those before. |
| RowIndex.DemoContext.All | backend/scripts/demo_context.py:346-352 | After any of those mixes the rows found are the plain scan. |
| RowIndex.DemoContext.Get | backend/scripts/demo_context.py:354-359 | After any of those mixes the row found is the first of the plain scan with the id, or missing exactly when there is none. |
| RowIndex.DemoContext.DiscardAll | backend/scripts/demo_context.py:364-366 | Exactly the rows of other models are kept, each as often as before and in their order, and the index is to be rebuilt. |
| RowIndex.DiscardedAreNotFound | backend/scripts/demo_context.py:346-366 | The next lookup finds of any model what the scan before found, without rows of the discarded one, and none of that one. |
| RowIndex.ScanPicks | backend/scripts/demo_context.py:346-352 | The scan is exactly the rows of the model that are of this business or of none, as often and in the order they stand. |
| Chronology.AroundIsLatest | backend/scripts/demo_chronology.py:32-46 | The time a round gives a row is its own or the default, or a parent's if that is later. |
| Chronology.ByKeyIsLast | backend/scripts/demo_chronology.py:26-26 | Of rows with one key the last in the list is the parent. |
| Chronology.RoundsReach | backend/scripts/demo_chronology.py:25-49 | After any number of rounds every stamped row has the latest time of the rows seen by then: those at the end of a chain with fewer links to a parent not standing earlier in the list than rounds, the link to a row that starts with a time not counted. |
| Chronology.TenRoundsSolveIff | backend/scripts/demo_chronology.py:25-49 | By which rows start with a time: ten rounds leave every stamped row at the latest time that it and all rows above it bring, whatever the times, exactly when all above that start with one are seen, and where others are above, one of those. |
| Chronology.ShortChainsInReach | backend/scripts/demo_chronology.py:25-49 | In any order that is so when no chain has ten links, or none has eleven and every stamped row starts with a time. |
| Chronology.TenLinksSolvedIff | backend/scripts/demo_chronology.py:25-49 | Eleven rows in a chain, children first and all but the top starting with a time, are solved exactly when the top starts with one. |
| Chronology.AlignTimestamps | backend/scripts/demo_chronology.py:25-52 | Stopping early changes nothing: every stamped row ends at the latest time seen in ten rounds, the latest of all above under that condition; no update is before its creation, and unstamped rows stay. |
| Chronology.LatestSolves | backend/scripts/demo_chronology.py:41-52 | With those times no stamped row is older than a parent. |
| Chronology.LatestIsLeast | backend/scripts/demo_chronology.py:41-52 | And they are the least such times. |
| Sinks.SendersReadCopy | backend/scripts/check_structure.py:198-206 | Of a sender's positional arguments exactly the copy is read. |
| Sinks.BaseArgsAre | backend/scripts/check_structure.py:195-209 | For every call: what it hands to base sinks is exactly a sender's copy by position or keyword, stored copy by keyword in services, and a row writer's first argument at its depth. |
| Sinks.WrapperArgsHand | backend/scripts/check_structure.py:210-213 | Through the wrappers a call hands on exactly what its callee has recorded, by position or keyword. |
| Sinks.StableHoldsAll | backend/scripts/check_structure.py:240-257 | Wrappers that a pass would not change, and that hold each parameter under its name too, hold every parameter that some chain of calls takes to a base sink. |
| Sinks.Pass | backend/scripts/check_structure.py:244-256 | A pass records only what reaches a sink, and reports no change only when nothing would; it always reports one, so the loop never ends, with two depths for one parameter at base sinks, and if functions of one name agree on the parameters they share, with two depths at any. |
| Sinks.WrappersOf | backend/scripts/check_structure.py:240-257 | With one depth for each parameter the loop ends with only parameters that reach a base sink, by position and by name; and with exactly those, each at its depth and under every name, when functions of one name agree on the parameters they share. |
| Sinks.ExactForAllBodiesIff | backend/scripts/check_structure.py:240-257 | By the names and parameters of a module's functions: whatever their bodies do, with one depth for each parameter, all the loop may end with is exact, exactly when functions of one name take the same parameter at every position both have. |
| Sinks.NeverExact | backend/scripts/check_structure.py:246-256 | Where two differ at a position, bodies that write that parameter of one as a row leave nothing exact for the loop to end with. |
| Sinks.TwoRowWritersDisagree | backend/scripts/check_structure.py:71-71 | A parameter handed to both row writers has two depths, and no wrappers are ever stable, whatever other functions there are. |
| Sinks.RenamedParameterIsMissed | backend/scripts/check_structure.py:246-256 | Run on that module, for any two functions that differ at a position, the loop leaves a call by keyword unreported that hands its argument to a sink. |
| Cells.CellsOf | backend/scripts/check_structure.py:217-237 | The texts found are those of the walk in its order, each held at the depth and found once; they are all that are held if each node is reached at one level. |
| Cells.HeldIs | backend/scripts/check_structure.py:221-235 | What a value holds is by its form: both branches, all values of a name, the starred value, the entries of a row one level down, itself at the last level. |
| Cells.FindsAllIff | backend/scripts/check_structure.py:219-237 | In every tree, other nodes being reached at one level each: whatever nested rows stand in place of a text, the walk finds all that is held exactly when the text is reached at one level. |
| Cells.TwoLevelsMissOne | backend/scripts/check_structure.py:219-237 | For a text of any tree reached at two levels, with rows to the deeper one in its place, a row and the text within are both held and the walk misses one of them. |
| Cells.TextIsLost | backend/scripts/check_structure.py:219-237 | In `[a] if c else a`, where a is a list of one text, the walk finds the list alone, and the text is held. |
| Cbor.EncodesExactlyEncodable | backend/e2e/webauthn.py:37-54 | The encoder succeeds exactly for lengths below 65536 and integers from -65536 to 65535. |
| Cbor.Utf8RoundTrip | backend/e2e/webauthn.py:51-52 | Decoding the bytes of a text gives the text. |
| Cbor.Utf8IsUnique | backend/e2e/webauthn.py:51-52 | And no other bytes decode to it. |
| Cbor.HeadRoundTrip | backend/e2e/webauthn.py:38-42 | A head, whatever follows, decodes to its major type and argument. |
| Cbor.HeadIsShortest | backend/e2e/webauthn.py:38-42 | No head of the same major type and argument is shorter, as section 4.2.1 of RFC 8949 requires. |
| Cbor.RoundTrip | backend/e2e/webauthn.py:37-54 | Decoding the encoding of any value followed by any bytes gives that value and those bytes. |
| Cbor.EncodingIsPrefixFree | backend/e2e/webauthn.py:37-54 | No encoding is a prefix of another value's, so encoding is injective. |
| Cbor.EncodingIsShortest | backend/e2e/webauthn.py:37-54 | No other accepted encoding of the same value is shorter. |

## Left out

- Shards: the median that cases without a time take (`usual_seconds`) is a parameter, and so is each case's line as text; files of recorded seconds and flow names are not read. Seconds are whole numbers and times exact rationals instead of floats.
- Leases.Step: draws are any namespace instead of random ones, freeing ports is part of the claim, and waiting for a slot is trying again; removing all records with the whole tier is not a step.
- Tier.Step: Docker, health and the files behind a fingerprint are answers given to the steps; a failing start is leaving in the middle of one.
- Relay.Step: sockets, threads, timers and the file of records are not modelled; a request's signature holds or does not, the transport answers any status or none, and the clock only moves on.
- Relay.OwnedIsOfTheFixture: says nothing of the fixture's account setup, because the manifest's own validation is not part of this model.
- Shapes: reports are sets of problems, so their order and repetition are not modelled, and a scalar's text is the list of its kinds.
- Cleanup.CleanupOf: waiting is one step whose outcome is given, rate limits and retries of a locked object are not modelled, and nobody else changes the charge but the provider settling refunds and disputes; a repeated key answers with the refund as it stands.
- Calendar: time zones, daylight saving and seconds (times are minutes of one wall clock). The list of occupied visits holds their times instead of the slot objects, which are not moved again.
- Calendar.MoveSlot: moves the times and the staff of bookings alone; their prices, deposits and bookkeeping dates, and the slot's own creation and update times, would only add easy assignments.
- RowIndex: which classes derive from which is a given relation, and rows are values that are equal exactly when they are one object.
- Chronology: the audit rows dated after the rounds are not modelled.
- Sinks: Python's syntax is a list of functions, each with the calls in its body; the order of a dictionary is not modelled, and any order gives the same wrappers when functions of one name agree on the parameters they share.
- Sinks.WrappersOf: does not say which names are recorded when functions of one name differ at a position, because that depends on the order of the functions; and needs one depth for each parameter, because the loop need not end without.
- Cells.CellsOf: does not say without the walk itself which texts are found when a node is reached at two levels, because that is up to the order of the branches.
- Cbor: texts with lone surrogates, which the encoder refuses, and truth values, which it takes as integers; keys of a dictionary may repeat in the model.
- Browser, simulator and process drivers, run records, demo data, snapshots and SQL quoting would only add easy members.
