# Oracles and protocols of the relay bench

Wok is a Nostr relay; `wok-bench` drives relays and judges what they answer.
This project models the parts of the bench, and two tools beside it, whose
results a run stands or falls with: the oracles that say what a relay must
hold and return, the checkers that compare, and the concurrent drivers that
must not lose or double-count work. Each is written in the form of its source
(a class where methods update fields, a method with a loop where code loops, a
step relation where tasks interleave) and proved against a statement that does
not mention its code.

`dafny verify dfyconfig.toml` checks the whole project.

| file | models |
|---|---|
| `Retention.dfy` | replacement and deletion, as a rule on sets and as two algorithms |
| `Social.dfy` | the corpus generator's running count of retained events |
| `CorpusIndex.dfy`, `CountingSort.dfy`, `CorpusQuery.dfy` | the read oracle: loading, indexes, queries |
| `ReadOracle.dfy` | the read oracle from a corpus to a verdict on a reply |
| `History.dfy`, `ClientHistory.dfy` | which replies to a limited query are right |
| `Catchup.dfy`, `SyncPlan.dfy` | the catch-up driver and its plan |
| `Storm.dfy`, `Deliveries.dfy` | the live workload: the storm protocol and the delivery check |
| `ClientSession.dfy` | a client session with NIP-42 and NIP-77 |
| `QueryLane.dfy` | a reader lane of the matched-network workload |
| `Rate.dfy` | the publish-rate workload's lanes and reconciliation |
| `Outstanding.dfy` | the sweep of the timestamp audit |
| `UnifiedDiff.dfy` | the diff of `wok config minimize` |
| `Varint.dfy` | the negentropy varint |
| `Basics.dfy` | what several files share: optional values, insertion, products |

What is taken as given:

- Ids, pubkeys and digests are numbers. An event's id determines the event
  (`Determined`, or an injective `Hash`), as for a collision-free hash.
- Relays, sockets and reconciliation steps are arbitrary: any message may
  come at any time, any send may fail.
- Clocks only move forward. A session looks at the clock anew at each test
  (`Session.Now`).
- In `Storm` and `QueryLane` each load, store and lock section is one step and
  steps take effect in the order of the run, so the source's relaxed atomics
  are read as sequentially consistent.
- A session's publications have fresh ids and it sends one burst at most
  (`FreshVisit`), as its callers arrange.
- The generator's clock does not go back, and the random content of a gift
  wrap is new (`Builder.Next`).

Three promises hold only under a condition, which is given exactly or, for the
last, whose every exception is shown to occur:

- `verify_history` accepts every history an honest relay can send, and others.
  An accepted history is one that an honest relay can send if and only if it is
  `InPlace`: its corpus events all come within the quota, and where a match is
  left out no published event within the quota is older than it
  (`AcceptedIsHonestIff`, `HonestHistories`). Each half fails on its own: an old
  published event may take the place of a stored match (`FilledPlacePasses`),
  and a stored match may come after the quota is used up (`LatePlacePasses`).
- At a drop in the storm after a settled drain, missing deliveries plus received
  ones are surplus deliveries plus expected ones, where what a connection is
  owed and got are sums over the run's steps (`AccountsAre`). So it lacks nothing
  if and only if its surplus is what its counters show beyond the expected
  number (`DropsHaveEverything`). The drain compares counts, so each
  missing delivery hides behind one that was not owed, or was repeated
  (`DuplicateHidesLoss`). The same holds at Stop (`StopsHaveEverything`).
- A checked event goes out only while every connection listens
  (`CheckedEventsAreHeard`), except in the storm after a drain that timed out
  (`TimedOutDrainIsUnheard`), and after Stop where the final drain timed out
  (`LateSendIsUnheard`) or saw a `paused` that the publisher, having read
  Recovered, was about to clear (`StaleSendIsUnheard`). Otherwise no checked
  event goes out after Stop at all (`NoLateSend`). The flag can be left over from
  before the storm because the final drain does not wait for a new pause.

## Model

| member | source | states |
|---|---|---|
| Retention.Retain | crates/wok-bench/src/corpus.rs:180-226 | An event's flag is set exactly when its id is new, it is not ephemeral, no stored version of its address beats it (later time, then lower id) and its author did not delete it |
| Retention.RetainNewest | crates/wok-bench/src/corpus.rs:190-217 | The same without deletions: first of its id, and the winner of its address over the whole corpus, whatever the order |
| Retention.MarkWinners | crates/wok-bench/src/corpus.rs:215-217 | Exactly the winners of their addresses are added to what is kept |
| Retention.FlagRetained | crates/wok-bench/src/corpus.rs:229-251 | On whole events, a flag is set exactly for the first copy of an event that survives the rules read over the set of imported events |
| Retention.Scan | crates/wok-bench/src/catchup.rs:135-190 | One pass finds the stored regular events, the winner of every address and everything the stored deletions name |
| Retention.Kept | crates/wok-bench/src/catchup.rs:135-197 | The linear-time copy returns exactly `Retained(events)`, the events the declarative rules keep |
| Retention.KeptIsSurvivor | crates/wok-bench/src/corpus.rs:180-251 | The rule by index is the rule over sets: kept iff first copy, newest of its address and not deleted by its author |
| Retention.RetainedContents | crates/wok-bench/src/corpus.rs:170-226 | What is kept is the set of survivors of the set of imported events |
| Retention.ImportOrderIsFree | crates/wok-bench/src/corpus.rs:170-226 | Two imports with the same events, in any order and with any repetitions, keep the same set |
| Retention.RetainedDistinct | crates/wok-bench/src/corpus.rs:170-226 | No event is kept twice |
| Retention.RetentionIsStable | crates/wok-bench/src/corpus.rs:170-226 | Applied to its own result, retention keeps everything |
| Retention.OneVersionPerAddress | crates/wok-bench/src/corpus.rs:170-226 | Two kept versions of one address are the same event |
| Retention.NewestOrNone | crates/wok-bench/src/corpus.rs:170-226 | An address keeps a version iff its author did not delete the newest one; no older version takes its place |
| Social.Builder.Next | crates/wok-bench/src/social.rs:349-402 | After any number of calls `retained` is the number of events the declarative rules keep of everything emitted, and it never underflows. The event has the picked kind, or is a note where that kind has nothing to point at or to delete; its key, time, tags and content are those the draft gives for that kind; and only a new regular event of the author's own key joins the author's deletion queue |
| Social.Builder.NextVersion | crates/wok-bench/src/social.rs:349-402 | Emitting a replaceable or addressable event keeps the books right; its time is the current second, or one past the last version of its address, and later than all of them |
| Social.Builder.NextDeletion | crates/wok-bench/src/social.rs:590-595 | Emitting a deletion keeps the books right: it names nothing but the newest event of its author's queue, which was kept until then and leaves the queue |
| Social.Builder.NextRegular | crates/wok-bench/src/social.rs:349-402 | Emitting a regular event keeps the books right, also where it repeats one of the same second; kinds with a key of their own take it from the draft, and a gift wrap its time too |
| Social.Builder.Tick | crates/wok-bench/src/social.rs:349-354 | The known ids are dropped exactly when the second changes |
| Social.Builder.Account | crates/wok-bench/src/social.rs:404-440 | A repeat within the second changes nothing; a new event is counted once and queued if its author may delete it |
| Social.Builder.Replace | crates/wok-bench/src/social.rs:443-457 | A version gets the wanted time, or one second past the last of its address if that is later, and only an address's first version adds to the count |
| Social.Builder.Deletion | crates/wok-bench/src/social.rs:590-595 | The deletion names the newest deletable event, which leaves the queue |
| Social.EnqueueHolds | crates/wok-bench/src/social.rs:424-430 | A new event is the last of its author's queue, which loses nothing but its oldest, and that only when it is full; other queues stay |
| Social.RegularStep | crates/wok-bench/src/social.rs:349-441 | A fresh regular event adds exactly one survivor |
| Social.DeletionStep | crates/wok-bench/src/social.rs:349-441 | A deletion of an intact event adds itself and removes its target |
| Social.VersionStep | crates/wok-bench/src/social.rs:349-457 | A later version replaces the one survivor of its address, or adds one where there was none |
| Social.RetainedSize | crates/wok-bench/src/social.rs:404-441 | The number of retained events is the number of survivors of the emitted set |
| CorpusIndex.Builder.Push | crates/wok-bench/src/corpus.rs:549-582 | After loading, records, digests, tag lists and deletions stand for exactly the events pushed, through injective numbers |
| CorpusIndex.Builder.PushTags | crates/wok-bench/src/corpus.rs:549-582 | The keys of an event's single-letter tags in order, its first `d`, and the targets a kind 5 names |
| CorpusIndex.Builder.ChooseD | crates/wok-bench/src/corpus.rs:568-572 | An addressable event's key is that of its first `d` value, empty where it has none |
| CorpusIndex.Number | crates/wok-bench/src/corpus.rs:531-547 | Numbering stays a bijection and never renumbers |
| CorpusIndex.Builder.Keep | crates/wok-bench/src/corpus.rs:584-602 | Deciding on numbers keeps exactly what the rules keep of the loaded events |
| CorpusIndex.RenamedKept | crates/wok-bench/src/corpus.rs:584-602 | Injective renaming of authors and `d` values does not change what is kept |
| CorpusIndex.LoaderKeepsRetained | crates/wok-bench/src/corpus.rs:549-602 | The loader keeps exactly `Retained(events)`, so it agrees with `retention` and with `kept` |
| CorpusIndex.Builder.Finish | crates/wok-bench/src/corpus.rs:584-646 | The three indexes hold exactly the kept events: sorted by id, grouped by author, under each of their tag keys |
| CorpusIndex.SortIds | crates/wok-bench/src/corpus.rs:603-605 | The id index holds each kept event, in id order |
| CorpusIndex.SortTags | crates/wok-bench/src/corpus.rs:620-628 | The tag index is strictly sorted and holds a pair iff the event is kept and has the key |
| CountingSort.Sort | crates/wok-bench/src/corpus.rs:606-619 | Between two starts lies exactly the list of one author's kept events, in order |
| CountingSort.Sizes | crates/wok-bench/src/corpus.rs:606-609 | One place up, the number of kept events of each author |
| CountingSort.Starts | crates/wok-bench/src/corpus.rs:606-612 | A group starts after all events of the authors before it |
| CountingSort.Fill | crates/wok-bench/src/corpus.rs:613-619 | Every write is in bounds and no group overwrites another |
| CorpusQuery.ToQuery | crates/wok-bench/src/corpus.rs:790-844 | The query's lists are sorted and name exactly what the filter's values name in the corpus |
| CorpusQuery.MatchesIsWants | crates/wok-bench/src/corpus.rs:847-868 | Matching by number is NIP-01 matching of the event, also for values the corpus lacks |
| CorpusQuery.FindId | crates/wok-bench/src/corpus.rs:873-882 | The search finds a kept event with the id, and fails only if there is none |
| CorpusQuery.IdCandidates | crates/wok-bench/src/corpus.rs:873-882 | Exactly the kept events with one of the ids |
| CorpusQuery.AuthorCandidates | crates/wok-bench/src/corpus.rs:883-892 | Exactly the kept events of the authors |
| CorpusQuery.TagRun | crates/wok-bench/src/corpus.rs:894-899 | The run between the two partition points is exactly the events under the key |
| CorpusQuery.TagCandidates | crates/wok-bench/src/corpus.rs:893-900 | Exactly the kept events with one of the keys |
| CorpusQuery.AllKept | crates/wok-bench/src/corpus.rs:901-903 | Without an index, everything kept, in order |
| CorpusQuery.Candidates | crates/wok-bench/src/corpus.rs:872-907 | In order and once each, the kept events the chosen index names |
| CorpusQuery.Find | crates/wok-bench/src/corpus.rs:790-916 | Through any index, the result is what a scan of all kept events would find, in the same order |
| ReadOracle.Judge | crates/wok-bench/src/corpus.rs:423-951 | End to end, for every corpus, filter, limit and reply: the verdict is yes iff the reply is a newest reply over the retained events that the filter wants, and the owned copy gives the same verdict |
| ReadOracle.Load | crates/wok-bench/src/corpus.rs:668-716 | Loading a corpus event by event gives a corpus that stands for it, digests included |
| ReadOracle.MatchesOf | crates/wok-bench/src/corpus.rs:910-916 | A filter's matches are the retained events it wants, each once |
| History.ExpectedReply | crates/wok-bench/src/corpus.rs:910-951 | Splits the newest `min(limit, n)` into those every right reply holds and those tied at the cut |
| History.ExpectedMatches | crates/wok-bench/src/corpus.rs:423-453 | Accepts iff the reply is that many distinct unaltered matches and no omitted match is strictly newer than one it holds |
| History.WantedBy | crates/wok-bench/src/corpus.rs:427-436 | Each expected id with its digest, marked required or tied |
| History.CountReply | crates/wok-bench/src/corpus.rs:423-480 | The counting loop fails exactly on an unknown, altered or repeated event, and counts the required ones |
| History.CountsIsNewest | crates/wok-bench/src/corpus.rs:423-480 | Counting required events accepts exactly the newest replies |
| History.OldestOfReply | crates/wok-bench/src/corpus.rs:406-419 | `oldest()` is the oldest time of every accepted reply, and absent exactly when it is empty |
| History.Owned | crates/wok-bench/src/corpus.rs:484-500 | The copy wants the same events, and counting against it accepts exactly the newest replies |
| History.OwnedMatches | crates/wok-bench/src/corpus.rs:462-480 | On such a copy a reply is accepted iff it is a newest reply, as by `ExpectedMatches` |
| ClientHistory.EventProblem | crates/wok-bench/src/clients.rs:991-1019 | No problem iff the event is known, unaltered, matching and visible; otherwise the first of these it fails |
| ClientHistory.VerifyHistory | crates/wok-bench/src/clients.rs:1031-1100 | A mismatch is reported iff the history is not `Acceptable`, with the first rule it breaks: item by item, the limit, the newest, an early end; complete and truncated are told apart exactly, and a truncated one names the number asked for |
| ClientHistory.CheckEvents | crates/wok-bench/src/clients.rs:1031-1056 | The first loop passes iff every event is deliverable and none is repeated, and finds the corpus part |
| ClientHistory.OracleExpected | crates/wok-bench/src/clients.rs:1059-1059 | Every corpus match once, newest first |
| ClientHistory.BoundaryIsNewest | crates/wok-bench/src/clients.rs:1070-1083 | The test at the boundary second holds iff no omitted match is newer than a returned one |
| ClientHistory.NotNewest | crates/wok-bench/src/clients.rs:1070-1083 | The code of that test decides it |
| ClientHistory.NewerMissing | crates/wok-bench/src/clients.rs:1074-1077 | Scanning while events are newer than the boundary finds a missing one iff there is one |
| ClientHistory.HonestNeverMismatch | crates/wok-bench/src/clients.rs:1031-1100 | The newest `min(limit, caps)` of corpus and any published events, in any order, with published events appended, never is a mismatch, and is complete without caps |
| ClientHistory.AcceptedIsHonestIff | crates/wok-bench/src/clients.rs:1020-1100 | Of the accepted histories, an honest relay can send exactly those with the corpus events within the quota and, where a match is omitted, no older published event there |
| ClientHistory.HonestHistories | crates/wok-bench/src/clients.rs:1020-1100 | The histories of honest relays are the accepted ones that are in place, and no others |
| ClientHistory.FilledPlacePasses | crates/wok-bench/src/clients.rs:1086-1100 | A history that passes and that no honest relay sends: an old published event for a stored match |
| ClientHistory.LatePlacePasses | crates/wok-bench/src/clients.rs:1086-1100 | Another, with every match present: the stored one comes after the limit is used up |
| ClientHistory.AgreesWithExpected | crates/wok-bench/src/clients.rs:1031-1100 | Without caps or published events it accepts the same replies as `Expected::matches` |
| Catchup.EndOfRun | crates/wok-bench/src/catchup.rs:451-503 | When all connections of any interleaving have ended, however they ended, each planned sync is done, refused or failed: one of them, once. Which one is read off the steps alone: done iff a step left it nothing to ask for, refused iff a NEG-ERR came while it compared or a CLOSED for its open batch, failed iff it could not be initiated, got a bad reply, was with a connection that was given up, or was never taken. The report's records, refusals, errors and notices are those of the steps, and done syncs have every needed id returned or reported |
| Catchup.RunAll | crates/wok-bench/src/catchup.rs:451-616 | The connections' tasks, run as code under any schedule, leave a run of the step relation in which every turn is a step; the concurrency is kept throughout, and once all are over the report is the one the steps call for, each planned sync in it once |
| Catchup.ReportIsFated | crates/wok-bench/src/catchup.rs:451-835 | Of any steps in which a connection that is given up fails the syncs with it: a job is in the list of done, refused or failed syncs iff some step ends it that way, or, for failed, no worker took it |
| Catchup.TrackStep | crates/wok-bench/src/catchup.rs:580-835 | Every step keeps each connection's live syncs, their batches, returned ids and problems, and its lists and counters, as the steps so far say |
| Catchup.EventRecord | crates/wok-bench/src/catchup.rs:781-810 | An event of the open batch is fetched iff the batch asks for its id and lacks it; else it came twice, or unrequested, or without an id |
| Catchup.RequestIsNext | crates/wok-bench/src/catchup.rs:762-779 | Batch after batch takes the next 500 needed ids off the end |
| Catchup.ConcurrencyIsKept | crates/wok-bench/src/catchup.rs:460-486 | In every interleaving the syncs in flight never exceed the concurrency |
| Catchup.SlotsAreUsed | crates/wok-bench/src/catchup.rs:593-616 | A connection waits for a message only with every slot in use, or with no job left to start |
| Catchup.CleanEndsEmpty | crates/wok-bench/src/catchup.rs:593-616 | A connection that ends without an error leaves an empty queue |
| Catchup.SlotsAddUp | crates/wok-bench/src/catchup.rs:460-472 | The connections' slots add up to the concurrency |
| Catchup.SlotsOf | crates/wok-bench/src/catchup.rs:472-472 | Each connection has a slot and the subtraction does not underflow |
| Catchup.InvStep | crates/wok-bench/src/catchup.rs:580-835 | Every step keeps each started sync in exactly one place |
| Catchup.FrameHolds | crates/wok-bench/src/catchup.rs:664-835 | Whatever message comes and whichever send fails, a connection's syncs stay the same ones |
| Catchup.FrameSound | crates/wok-bench/src/catchup.rs:721-835 | A sync becomes done only with every needed id returned or reported |
| Catchup.RequestAccounts | crates/wok-bench/src/catchup.rs:762-779 | A batch holds 500 ids at most, and no needed id is lost between queue and batch |
| Catchup.Collect | crates/wok-bench/src/catchup.rs:487-503 | Joining the parts and failing what never started covers every job once |
| Catchup.Queue.Pop | crates/wok-bench/src/catchup.rs:445-447 | Jobs come out in order, each once |
| Catchup.Driver.StartNext | crates/wok-bench/src/catchup.rs:619-658 | Takes the next job, which is live or failed, also when the send fails |
| Catchup.Driver.FetchNext | crates/wok-bench/src/catchup.rs:762-779 | Takes the last 500 ids at most, or ends the sync as done; with `EndOfRun`, a sync is done in no other way |
| Catchup.Driver.OnNegMsg | crates/wok-bench/src/catchup.rs:721-759 | A NEG-MSG changes only a reconciling sync, which goes on, fetches or fails |
| Catchup.Driver.OnEvent | crates/wok-bench/src/catchup.rs:781-810 | An event of the open batch counts once; any other is a problem |
| Catchup.Driver.OnEose | crates/wok-bench/src/catchup.rs:812-831 | What the batch still lacks is reported, each id once |
| Catchup.Driver.OnText | crates/wok-bench/src/catchup.rs:664-719 | The whole message dispatch is the step function the interleavings are made of |
| Catchup.Driver.FailAll | crates/wok-bench/src/catchup.rs:580-591 | After an error every live sync fails, once |
| Catchup.Driver.TakeOne | crates/wok-bench/src/catchup.rs:580-616 | One turn of the two loops is one enabled step of the system |
| SyncPlan.Windows | crates/wok-bench/src/catchup.rs:287-313 | Every timestamp falls in exactly one window, and a window's members are exactly the events its filter matches; the windows start at the first event and at the seconds that the equal shares of the corpus fall in, all of them and no others |
| SyncPlan.MakePlan | crates/wok-bench/src/catchup.rs:227-281 | Refused iff a filter passes its limit; otherwise held and missing partition the matched events in the reported numbers, the newest or exactly the sampled ones missing |
| SyncPlan.FitsLimit | crates/wok-bench/src/catchup.rs:227-238 | No filter passes its limit |
| SyncPlan.Union | crates/wok-bench/src/catchup.rs:240-242 | The members of all filters, in order and once each |
| SyncPlan.Partition | crates/wok-bench/src/catchup.rs:258-271 | A job lacks exactly the lacking among its members and holds the rest, both in order, none lost or doubled |
| SyncPlan.PlanWindows | crates/wok-bench/src/catchup.rs:201-313 | Refused iff some window has more events than the limit; otherwise the jobs together hold and lack every event of the corpus, each job those of its window, the newest or exactly the sampled ones missing |
| SyncPlan.Lacking | crates/wok-bench/src/catchup.rs:244-254 | The lacking events are `count` of the union: the newest, or exactly the sampled |
| SyncPlan.Count | crates/wok-bench/src/catchup.rs:243-243 | The rounded share never exceeds the whole |
| Storm.DropsHaveEverything | crates/wok-bench/src/live.rs:707-733 | At a drop after a settled drain, with a connection's owed deliveries those of every event sent outside the storm and accepted, and its received ones the checked deliveries of the run: missing plus received equals surplus plus expected; so no more is missing than came beyond what is owed, and nothing is missing iff that surplus is what the counters show beyond the expected number; and no checked event is under way |
| Storm.StopsHaveEverything | crates/wok-bench/src/live.rs:1257-1259 | The same of every connection from a settled final drain on, unless that drain saw a stale `paused` |
| Storm.AccountsAre | crates/wok-bench/src/live.rs:1106-1117 | A connection's books are the sums over the steps: owed the deliveries of each event sent outside the storm and accepted, delivered each checked delivery |
| Storm.PhasesInOrder | crates/wok-bench/src/live.rs:1235-1259 | Every run goes through Setup, Steady, Churn, Quiet, Storm, Recovered, Quiet and Stop in this order, none left out |
| Storm.DropsAreInStorm | crates/wok-bench/src/live.rs:948-973 | A stable connection drops only in the storm, after the drain |
| Storm.CheckedEventsAreHeard | crates/wok-bench/src/live.rs:1088-1122 | A checked event goes out only while every connection that has not failed is past its EOSE, in every phase, given that both drains settled |
| Storm.NoLateSend | crates/wok-bench/src/live.rs:1257-1259 | After a settled final drain that saw no stale `paused`, no checked event goes out |
| Storm.TimedOutDrainIsUnheard | crates/wok-bench/src/live.rs:1147-1156 | A run with a timed-out drain in which a checked event goes out while a connection is away |
| Storm.LateSendIsUnheard | crates/wok-bench/src/live.rs:1257-1259 | A run whose final drain times out, in which a checked event goes out after Stop, its connection having left |
| Storm.StaleSendIsUnheard | crates/wok-bench/src/live.rs:1090-1105 | A run whose final drain settles, in which a checked event still goes out after Stop: `paused` was left over from before the storm |
| Storm.RecoveredAfterAll | crates/wok-bench/src/live.rs:1241-1256 | Recovered starts only after each connection reconnected, exactly once |
| Storm.DuplicateHidesLoss | crates/wok-bench/src/live.rs:722-733 | A run in which a repeated delivery lets a connection drop before another came |
| Storm.InvStep | crates/wok-bench/src/live.rs:926-1260 | Every step of coordinator, publisher and connections keeps counters, signals, phases and both drains in agreement |
| Storm.AllSignalled | crates/wok-bench/src/live.rs:1137-1145 | The coordinator goes on from a wait only when every connection has signalled |
| Deliveries.Merge | crates/wok-bench/src/live.rs:1331-1351 | `missing` and `unexpected` are the sizes of the two multiset differences |
| Deliveries.Expected | crates/wok-bench/src/live.rs:1318-1330 | Sorted, with one key for each pair of an owed event and a subscription it matches |
| Deliveries.Sample | crates/wok-bench/src/live.rs:1296-1308 | The logged deliveries of published events outside the storm, in order, each as often as the log has it, and the number of those that name an unknown event |
| Deliveries.CheckedHolds | crates/wok-bench/src/live.rs:1296-1308 | A checked delivery is kept as often as the log names it, any other not at all |
| Deliveries.CheckConnection | crates/wok-bench/src/live.rs:1297-1352 | `missing` is the number of owed deliveries the log lacks, `unexpected` the number of its places that are not owed, or repeat one, outside the storm, or name an unknown event; both are zero iff each owed delivery is in one place and every other place is of the storm |
| Deliveries.ExactIsNoMismatch | crates/wok-bench/src/live.rs:1318-1351 | Nothing is missing or surplus iff each owed delivery has exactly one place in the log and every other place is of the storm |
| Deliveries.Analyse | crates/wok-bench/src/live.rs:1273-1352 | The counts are the sums of those numbers over all connections, churners included; both are zero iff every stable connection got exactly the owed deliveries and no log names an unknown event |
| ClientSession.Visit | crates/wok-bench/src/clients.rs:2108-2932 | Over any visit: no new work after the end, one AUTH at most, nothing waits on an answered AUTH, a subscription is judged as of its last REQ, pending is undecided, verdicts stay, one outcome per burst, and each live-refusal notice refuses one subscription or is left. Each input leads from one state to the next exactly as `Follows` allows. A publication becomes accepted at an input iff that is an accepting OK for it while it is undecided, and refused only by a refusing OK, by being given up, or, at the end, iff it still waits. The burst's counts are the numbers of its ids with each verdict |
| ClientSession.Verdict | crates/wok-bench/src/clients.rs:2566-2706 | Whatever the input: accepted iff it is an accepting OK for an undecided publication; refused only by a refusing OK or where the AUTH it waited for is answered or its retry is due |
| ClientSession.Session.Handle | crates/wok-bench/src/clients.rs:2284-2372 | Each request, message or timer has the effect of its kind on the whole state, and no other |
| ClientSession.Session.OnMessage | crates/wok-bench/src/clients.rs:2298-2372 | Each message has the effect of its kind and no other |
| ClientSession.Session.OnOk | crates/wok-bench/src/clients.rs:2566-2665 | The AUTH's answer, a pending publication's answer, or nothing: each exactly in its case |
| ClientSession.Session.Open | crates/wok-bench/src/clients.rs:2108-2110 | Open iff the relay is there and the instant of the test is before the end |
| ClientSession.Session.Request | crates/wok-bench/src/clients.rs:2123-2169 | A REQ goes out iff the session is open, with the identities accepted so far |
| ClientSession.Session.StartAuth | crates/wok-bench/src/clients.rs:2177-2202 | AUTH goes out iff there are keys, a challenge, none sent and the session is open |
| ClientSession.Session.Publish | crates/wok-bench/src/clients.rs:2206-2233 | An EVENT goes out iff the session is open, and is then pending and undecided |
| ClientSession.Session.SendBurst | crates/wok-bench/src/clients.rs:2237-2260 | The ids go out in order, all of them unless the session ends, and the burst counts all its events, those the end cut off included |
| ClientSession.Session.OnTimer | crates/wok-bench/src/clients.rs:2266-2282 | No due retry is left: a first part of them is sent again, in order, and the rest is decided; the part is all of them while the session is open and none once the relay is gone |
| ClientSession.Session.OnClosed | crates/wok-bench/src/clients.rs:2537-2564 | A closed subscription waits for the AUTH where it can still help, else is refused |
| ClientSession.Session.OnChallenge | crates/wok-bench/src/clients.rs:2366-2372 | A challenge starts the AUTH only where something waits for it |
| ClientSession.Session.OnAuthAnswer | crates/wok-bench/src/clients.rs:2566-2611 | What waited goes out again under the new identity, in order, or stays refused |
| ClientSession.Session.OnAnswer | crates/wok-bench/src/clients.rs:2613-2665 | A refused publication waits for the AUTH, is tried later with backoff, or is given up, each in exactly its case |
| ClientSession.Session.OnRefusal | crates/wok-bench/src/clients.rs:2636-2665 | Held for the AUTH, tried again after 250 ms times the attempts, at most 12, or given up, each in exactly its case |
| ClientSession.Session.Settle | crates/wok-bench/src/clients.rs:2617-2635 | One verdict, which moves the burst by one |
| ClientSession.Session.GiveUp | crates/wok-bench/src/clients.rs:2691-2706 | An undecided publication is refused; a decided one keeps its verdict |
| ClientSession.Session.Resend | crates/wok-bench/src/clients.rs:2667-2678 | A known publication goes out again, under its own id |
| ClientSession.Session.RefuseSub | crates/wok-bench/src/clients.rs:2681-2688 | Only that subscription is refused |
| ClientSession.Session.BurstProgress | crates/wok-bench/src/clients.rs:2708-2725 | The outcome is counted exactly when the last publication is decided |
| ClientSession.Session.OnEose | crates/wok-bench/src/clients.rs:2466-2535 | The first EOSE ends the history, a fetch is then closed, and the oldest live-refusal notice, if any, refuses this subscription |
| ClientSession.Session.OnNotice | crates/wok-bench/src/clients.rs:2350-2361 | A live-refusal notice waits for the next EOSE |
| ClientSession.Session.OnNegErr | crates/wok-bench/src/clients.rs:2380-2404 | A pass is opened again only where the relay asks for that and the session is open |
| ClientSession.Session.OpenNeg | crates/wok-bench/src/clients.rs:2727-2733 | NEG-OPEN goes out iff the session is open |
| ClientSession.Session.OnNegMsg | crates/wok-bench/src/clients.rs:2767-2798 | A finished pass is closed, and then a first part of its fetches is asked for, in order and under the accepted identities: all of them while the session is open, none once the relay is gone |
| ClientSession.Session.Finish | crates/wok-bench/src/clients.rs:2880-2932 | What still waits is given up, and an undecided burst is unanswered unless cut off |
| QueryLane.Bounded | crates/wok-bench/src/matched_network.rs:472-487 | In every interleaving at most 4096 queries are started and not at EOSE, the counter stays within one of them and never underflows, and no query is closed twice |
| QueryLane.Drive | crates/wok-bench/src/matched_network.rs:427-584 | The lane, run as code under any schedule, takes every step that finds its task ready and leaves a run of the step relation that keeps the bound throughout; rows, closes and errors are those the steps call for, and a row is the judgement of all its query received |
| QueryLane.StartedInOrder | crates/wok-bench/src/matched_network.rs:461-487 | The started queries are the first ones, as many as were started |
| QueryLane.OverIsEosed | crates/wok-bench/src/matched_network.rs:549-577 | A query is over iff an EOSE came for it after it was started |
| QueryLane.ErrorsAre | crates/wok-bench/src/matched_network.rs:427-584 | The errors are the number of steps that go wrong: at the bound, a failed send, a lost connection, a frame that fits no open query |
| QueryLane.ClosesAre | crates/wok-bench/src/matched_network.rs:549-584 | Queries are closed in the order of their EOSEs, and the receiver reads on until the last one or the end of the connection |
| QueryLane.AllStarted | crates/wok-bench/src/matched_network.rs:461-487 | A sender that ends without an error has started every query |
| QueryLane.VerdictIsFinal | crates/wok-bench/src/matched_network.rs:549-577 | A completed query never changes again, whatever frames follow |
| QueryLane.VerdictIsOfWholeStream | crates/wok-bench/src/matched_network.rs:557-575 | The verdict judges everything the query received, although only 51 events are kept |
| QueryLane.InvStep | crates/wok-bench/src/matched_network.rs:427-584 | Every step of sender and receiver keeps counter, rows and closes in agreement |
| QueryLane.Lane.Take | crates/wok-bench/src/matched_network.rs:427-584 | A step is taken iff it is enabled, and keeps the invariant |
| QueryLane.Lane.Count | crates/wok-bench/src/matched_network.rs:472-477 | The sender stops at the bound, having counted one query it does not start |
| QueryLane.Lane.Start | crates/wok-bench/src/matched_network.rs:479-479 | The query is marked before it is sent |
| QueryLane.Lane.Sent | crates/wok-bench/src/matched_network.rs:480-486 | A failed send ends the sender with the query started |
| QueryLane.Lane.Receive | crates/wok-bench/src/matched_network.rs:507-584 | A frame of a query that is not open only counts an error |
| QueryLane.Lane.Disconnect | crates/wok-bench/src/matched_network.rs:511-529 | The receiver ends and nothing else changes |
| Outstanding.Outstanding | tools/relay-matched/audit-timestamps.py:72-85 | The peak is the maximum over all instants of attempts whose closed interval holds it, the total never goes negative, and it ends at the unfinished attempts |
| Outstanding.Sweep | tools/relay-matched/audit-timestamps.py:80-85 | The same of the loop over sorted changes |
| Outstanding.StartIsCovered | tools/relay-matched/audit-timestamps.py:80-84 | Just after a start the running total is at most the attempts open at its instant |
| Outstanding.EndIsCovered | tools/relay-matched/audit-timestamps.py:80-84 | Just after a completion the running total is at least the attempts still open then |
| Outstanding.CutIsReached | tools/relay-matched/audit-timestamps.py:80-84 | The attempts open at any instant are the running total somewhere |
| Outstanding.NetOfRows | tools/relay-matched/audit-timestamps.py:72-96 | Starts up to an instant less completions before it are the attempts open at it |
| UnifiedDiff.Table | crates/wok-cli/src/config_minimize.rs:98-107 | Every cell is the longest common length of the two suffixes |
| UnifiedDiff.FillRow | crates/wok-cli/src/config_minimize.rs:99-106 | A row is filled from the one below without touching the rest |
| UnifiedDiff.CommonIsLongest | crates/wok-cli/src/config_minimize.rs:98-107 | No common subsequence is longer |
| UnifiedDiff.Walk | crates/wok-cli/src/config_minimize.rs:109-125 | The steps use up both files, each the preferred one at its place, and keep as many lines as the table says |
| UnifiedDiff.Choose | crates/wok-cli/src/config_minimize.rs:112-118 | Equal lines are kept, and otherwise a line is removed rather than added where that leaves no less in common; no choice loses any of what the rest has in common |
| UnifiedDiff.NoScriptKeepsMore | crates/wok-cli/src/config_minimize.rs:109-125 | No edit script between the files keeps more |
| UnifiedDiff.ScriptReplays | crates/wok-cli/src/config_minimize.rs:109-125 | Replaying the steps gives back both files |
| UnifiedDiff.KeptIsCommon | crates/wok-cli/src/config_minimize.rs:109-125 | The kept lines are a subsequence of both files |
| UnifiedDiff.Group | crates/wok-cli/src/config_minimize.rs:128-159 | The hunks are disjoint, in order, and hold every change; each goes from three lines before its first change to three after its last, cut at the ends of the file, and neighbouring changes share a hunk iff they are at most six lines apart |
| UnifiedDiff.NextRange | crates/wok-cli/src/config_minimize.rs:133-142 | A hunk holds its changes with three lines of context before the first and after the last, cut at the ends of the file, and ends before the next change's context |
| UnifiedDiff.HeaderOf | crates/wok-cli/src/config_minimize.rs:143-158 | The header gives where the range starts in both files and how many lines it has |
| UnifiedDiff.CoveredOnce | crates/wok-cli/src/config_minimize.rs:131-142 | No change lies in two hunks |
| UnifiedDiff.HunkApplies | crates/wok-cli/src/config_minimize.rs:142-158 | A hunk, applied where its header says, writes the new lines of its range |
| UnifiedDiff.Diff | crates/wok-cli/src/config_minimize.rs:89-161 | Applying the hunks by their header numbers rebuilds the new file; they are those of the preferred script with its contexts, and mark as many lines removed and added as each file has beyond a longest common subsequence |
| UnifiedDiff.DiffMarks | crates/wok-cli/src/config_minimize.rs:128-159 | The hunks carry every change of the script: marked lines and kept lines together are each file |
| Rate.Plan | crates/wok-bench/src/rate.rs:96-116 | The lanes come out in connection order, whatever the number of threads |
| Rate.DealtOnce | crates/wok-bench/src/rate.rs:118-141 | Every number below the total is in exactly one lane, in increasing order, and nothing else is |
| Rate.LaneHolds | crates/wok-bench/src/rate.rs:118-141 | A lane holds exactly the numbers below the total with its remainder |
| Rate.Reconcile | crates/wok-bench/src/rate.rs:701-754 | Refused iff a log line cannot be read or repeats an id or an export line cannot be read; otherwise each count is the number of events with that reply and that fate, each prefix has the number of refusals with it, the list is that of the first 20 lost events, and the export matters only through its set of ids |
| Rate.Mark | crates/wok-bench/src/rate.rs:727-736 | An event is marked stored iff some export line names it; refused iff a line cannot be read |
| Rate.Index | crates/wok-bench/src/rate.rs:704-726 | Each id with its place, and the refusals by prefix, unless a line cannot be read or repeats an id |
| Rate.RefusalsCount | crates/wok-bench/src/rate.rs:704-726 | The count of a prefix is the number of log lines refused with it |
| Rate.CountsNext | crates/wok-bench/src/rate.rs:738-753 | One more event moves exactly the count of its outcome, and the list of lost events while it is short |
| Rate.OutcomesAddUp | crates/wok-bench/src/rate.rs:738-753 | Each logged event has exactly one outcome, and 20 lost events at most are listed |
| Varint.Encode | crates/wok-negentropy/src/encoding.rs:39-54 | The bytes are the base-128 digits, most significant first, the high bit on all but the last |
| Varint.Decode | crates/wok-negentropy/src/encoding.rs:23-37 | Takes exactly the varint in front and gives its value modulo 2^64, or fails having read everything |
| Varint.FrontIsUnique | crates/wok-negentropy/src/encoding.rs:23-37 | At most one varint stands in front of a byte string |
| Varint.ShiftWraps | crates/wok-negentropy/src/encoding.rs:31-31 | Wrapping at every shift is wrapping once at the end |
| Varint.RoundTrip | crates/wok-negentropy/src/encoding.rs:23-54 | Decoding an encoding gives the number and leaves the suffix untouched |
| Varint.EncodingValue | crates/wok-negentropy/src/encoding.rs:39-54 | An encoding is terminated and has the value it encodes |
| Varint.Shortest | crates/wok-negentropy/src/encoding.rs:39-54 | No varint with the same value is shorter |
| Varint.PrefixFree | crates/wok-negentropy/src/encoding.rs:39-54 | No encoding is the start of another |
| Varint.ConcatenationIsUnique | crates/wok-negentropy/src/encoding.rs:39-54 | A concatenation of encodings can be read back in one way |

## Left out

- Storage, the query engine, negentropy reconciliation and the WebSocket codec: only called by the code modelled here.
- Signing, key generation, random text and the choice of events: inputs.
- Latencies, histograms, byte counts, samples of problem texts and reports: easy sums.
- Times in the live workload: ticks, timeouts and switches of task may come at any point.
- The multi-filter branch of `verify_history`, which relies on unique timestamps.
- `Groups` of the catch-up plan: one filter per tag value; `MakePlan` takes its member lists as any others.
- What a NIP-77 pass of a session must need (`finish_neg`): a set comparison.
- `Spec::matches` of the live workload and the filter matchers of the client oracle: parameters of the proofs.
- Storm.CheckedEventsAreHeard: says nothing of a storm or a Stop after a drain that timed out or, before Stop, saw a stale `paused`; there it is false (`TimedOutDrainIsUnheard`, `LateSendIsUnheard`, `StaleSendIsUnheard`).
- SyncPlan.Count: percentages are exact numbers, where the source has floats.
- Social.Builder.Account: the queues of possible targets are left out; a target is part of the draft.
- ClientHistory.OracleExpected: a scan of the corpus stands for the client oracle's candidate indexes; `CorpusQuery` has those of the read oracle.
- Rate.Reconcile: the prefix of a refusal is given, not cut from its message, and blank lines are taken out beforehand.
- ClientSession.Visit: the counters of unanswered requests other than bursts are left out.
- ClientSession.Session.Finish: of the counters of unanswered work only the burst's is kept, and the reasons of notices left over are not.
- CorpusQuery.ToQuery: drops repetitions from the sorted lists, which no search can see.
- Varint.Encode: remainder and division stand for masks and shifts, and in `Varint.Decode` addition stands for or.
