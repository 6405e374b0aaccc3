# Verification model of the CT firehose filter

The program watches a stream of certificate-transparency leaves. A frame loop matches the names of
each leaf against a watchlist of registrable domains and hands the matches, through a bounded
channel, to a batcher. The batcher sends them in small batches to the novelty sink, which counts the
brands of every match in a small database, strips brands that have become hubs, and alerts the first
time a coalition of two to five remaining brands is seen. Alerts go to a rotated, size-bounded log;
every match also goes to a research archive with a disk budget.

This project models those parts and proves what they promise. `dafny verify dfyconfig.toml` checks
all of it.

## How the model is laid out

| file | what it models |
|---|---|
| `Text.dfy`, `Event.dfy` | strings, sorted name lists, the two list encodings, the match event |
| `Novelty.dfy` | the novelty tables as values, the committed effects, and the class that runs the SQL |
| `NoveltyAlert.dfy` | one engine step, `process_match`, with its alerts and counters |
| `NoveltyHistory.dfy` | a run of steps against a specification that reads the history only |
| `NoveltyResults.dfy` | alert budgets, what each counter says, funnel conservation, burn-in, facts and their alerts |
| `HostHistory.dfy` | tier B over a run: the host table and the host alerts against the history |
| `Faults.dfy` | scripted statements and writes, and operations of several statements |
| `NoveltySink.dfy` | the sink: calibration check, step and line per event, failure in the middle of a batch |
| `LostAlerts.dfy` | two runs of a sink that lose an alert |
| `Batch.dfy` | the batcher, on top of the sink |
| `Pipeline.dfy` | the frame loop, its counters and its archive offers |
| `Delivery.dfy` | frame loop, channel and batcher as concurrent processes |
| `Watchlist.dfy`, `Hosts.dfy` | the matcher; what normalising a host name does |
| `ChunkNames.dfy`, `Directory.dfy` | names, sort keys and listings of sealed log chunks; removals that may fail |
| `AlertsFile.dfy`, `Archive.dfy` | the rotated alerts log; the archive's disk budget |

**Failures.** The store carries a script that says which of the coming SQL statements fail; a
transaction that fails is rolled back. Every operation's contract says how many statements it takes
and that it succeeds exactly when they all do. A step that fails leaves some prefix of its planned
effects committed, and every such prefix is covered. A history is a list of *attempts*, each done or
cut short after any number of effects, together with the scripts that lay ahead of it; a retried
batch is simply further attempts with the same events, so the results over histories hold under any
pattern of failure and retry. Line writes have their own script (written, not written, written and
then failed).

**Clocks, sizes, interleavings.** Clock readings, compressed sizes, serialized event sizes and send
durations are arbitrary functions given from outside. In `Delivery` a run is any sequence of enabled
steps of the frame loop and the batcher.

**What the proofs assume.** Brand names hold neither `U+001F` nor a comma, as registrable domains do
(`CleanEvent`); `Watchlist.MatchesAreClean` derives it for matches, and `Novelty.CommaBrandsConflict`
shows what a comma would do: two coalitions would share one captured key, and the second could never
be stored, so its batch would be retried for ever. The ignore names are trimmed lines. Channel
capacity and the batch message cap are at least one where the delivery protocol needs it, as the
configuration check demands. A line whose write fails without getting out leaves nothing in the writer's
buffer for a later flush to emit. A rotation of the alerts log reads a later time than the rotations
before it, and removals in its directory succeed; both are asked for where they are needed, and
`AlertsFile.FirstRotations` is a log on which they hold.

**What the proofs found.** The mute key and the captured fact are committed before the alert is
answered and before its line is written, and a retry finds the key already there. So what fails in
between is lost for good. By default no statement follows that commit and only the write of the line
can fail (`NoveltyResults.DefaultKeepsAlerts`, `NoveltySink.DefaultLosesLinesOnlyToWrites`); with tier
B or the learning feed on, host inserts and counter reads follow it. `NoveltyResults.FactHasAlertExactlyWhen`
and `NoveltySink.FactHasLineExactlyWhen` give the exact conditions on the coming statements and the
coming write, and `LostAlerts` runs a sink into each loss. And an event over the byte cap ends the
batcher: `Delivery.DrainDeliversAll` says that everything enqueued is delivered if and only if every
event is within the cap. One more trailing dot on a certificate name changes its host if and only if
it stands behind a space that follows a dot (`Hosts.DotMattersExactlyWhen`), and a space before trailing
dots is the one case in which the engine's own host differs from the matcher's
(`Hosts.EngineHostExactlyWhen`).

## Model

| member | source | states |
|---|---|---|
| Text.SplitJoin | src/novelty.rs:52-59 | splitting undoes both list encodings on non-empty lists whose parts do not hold the separator |
| Text.JoinInjective | src/novelty.rs:52-59 | so both are injective on such lists |
| Text.LessIsLexicographic | src/novelty_alert.rs:363-373 | the order of the sorted lists is that of the first differing character, a proper prefix being smaller |
| Novelty.EdgesAreCooccurrences | src/novelty.rs:290-340 | after any run of effects the partner graph holds exactly the pairs that some recorded co-occurrence named together |
| Novelty.DegreeIndex | src/novelty.rs:264-352 | after any run the partner graph is symmetric and irreflexive, and each partner column is the larger of the brand's largest seed floor and its number of partners |
| Novelty.EventsGrowByMentions | src/novelty.rs:290-352 | without seeding, a brand's event count grows by exactly the number of recorded mentions |
| Novelty.EventsColumn | src/novelty.rs:264-352 | whatever the order of seeding and counting, an event column is the largest of the brand's mentions and of each of its seed floors with the mentions after it |
| Novelty.SeededColumns | src/novelty.rs:264-287 | seeding raises both columns of exactly the non-blank names, trimmed and lower-cased, to the floor |
| Novelty.SeedingIsEffects | src/novelty.rs:264-287 | seeding a list of names is a run of seed effects, so the index results cover it |
| Novelty.FactsAlwaysMuted | src/novelty.rs:386-436 | in every state reachable from an empty database each captured key has its unit-separator twin among the mute keys |
| Novelty.NoCaptureConflict | src/novelty.rs:386-436 | in such a state the fact insert after a new mute insert never hits the primary key |
| Novelty.CommaBrandsConflict | src/novelty.rs:56-59 | with commas in brands it can: a concrete store and coalition |
| Novelty.ColumnReadsBack | src/novelty.rs:56-70 | splitting a captured list column at its commas gives each distinct non-empty trimmed lower-cased part once, sorted |
| Novelty.CalibratingMeans | src/novelty.rs:356-370 | calibrating in plain terms: the clock is short of the start plus the time gate, capped at 63 bits, or fewer events than the event gate; a zero gate is off |
| Novelty.NoveltyStore.EventCount | src/novelty.rs:242-256 | the stored event column, zero when absent, clamped to 32 bits |
| Novelty.NoveltyStore.PartnerDegree | src/novelty.rs:233-256 | the stored partner column, zero when absent, clamped to 32 bits |
| Novelty.NoveltyStore.SeedDegreeFloor | src/novelty.rs:264-287 | the names before the first failing statement are seeded, all of them on success; a zero floor changes nothing |
| Novelty.NoveltyStore.RecordCooccurrence | src/novelty.rs:290-340 | all counters, edges, partner columns and the event counter of one co-occurrence, or, on any failure, an unchanged store |
| Novelty.NoveltyStore.RecordAppearances | src/novelty.rs:343-352 | the names before the first failing statement are counted, all of them on success |
| Novelty.NoveltyStore.IsCalibrating | src/novelty.rs:356-370 | true exactly while an enabled burn-in gate is unmet, on the two readings and the event counter |
| Novelty.NoveltyStore.InsertCoalition | src/novelty.rs:373-379 | inserts the mute key unless present and says whether it was new |
| Novelty.NoveltyStore.InsertMultiBrandCert | src/novelty.rs:386-436 | mute key with its time and fact row together, only if the key is new, or, on any failure, an unchanged store; the row's columns are the event's sorted lower-cased names and hosts, fingerprint, source, SAN count and time; it fails if the captured key is taken |
| Novelty.NoveltyStore.InsertHost | src/novelty.rs:444-450 | inserts the pair unless present and says whether it was new |
| NoveltyAlert.BrandsAreASet | src/novelty_alert.rs:363-373 | the brand list holds exactly the lower-cased names, so two events give the same list exactly when they name the same set of brands, whatever order, case or repetition |
| NoveltyAlert.RoutineMeans | src/novelty_alert.rs:481-487 | routine are the brand's own host and the hosts whose first label is on the routine list |
| NoveltyAlert.HostOfEvent | src/novelty_alert.rs:450-465 | the hosts of an event are its non-empty normalised names |
| NoveltyAlert.StripWithoutCaps | src/novelty_alert.rs:418-426 | with both caps off, filtering by the ignore set and sorting equals the general strip |
| NoveltyAlert.IsLearnedHub | src/novelty_alert.rs:389-409 | the column-by-column reads decide: ignored, or at a non-zero event cap, or at a non-zero partner cap |
| NoveltyAlert.TierABrands | src/novelty_alert.rs:412-435 | exactly the brands that are no hubs, in sorted order, and nothing stored changes |
| NoveltyAlert.InsertHosts | src/novelty_alert.rs:302-313 | the hosts of a brand are recorded up to the first failure; the novel ones are those unseen before and not routine |
| NoveltyAlert.Report | src/novelty_alert.rs:255-284 | the ordered if-chain of drop reasons gives the alerts and counters that the separate conditions give |
| NoveltyAlert.RecordHighDf | src/novelty_alert.rs:224-295 | a multi-brand event left with fewer than two brands records its full key and counts as high-frequency drop when new |
| NoveltyAlert.ProcessMatch | src/novelty_alert.rs:209-331 | success commits exactly the planned effects and answers exactly the specified alerts and counters; failure leaves exactly a prefix of the plan; it succeeds exactly when all its statements do, and a coalition gets its key exactly when the statements up to that commit do |
| NoveltyAlert.FunnelConserved | src/novelty_alert.rs:224-294 | a new key is counted under exactly one reason, if and only if tier A is wanted or the key is no stripped coalition |
| NoveltyHistory.IndexMatchesHistory | src/novelty.rs:290-352 | after any attempts, event counts, partner counts and neighbours equal what the history names |
| NoveltyHistory.StrippedIsLowDf | src/novelty_alert.rs:217-223 | the engine strips each attempt to the brands that the history, this attempt included, does not make hubs |
| NoveltyHistory.HubsArePermanent | src/novelty_alert.rs:389-409 | once a hub, always a hub |
| NoveltyHistory.BookkeepingNeverSilences | src/novelty_alert.rs:224-295 | a full key recorded on a high-frequency branch differs from every stripped key of any later attempt |
| NoveltyHistory.FactsMutedOverRun | src/novelty.rs:386-436 | every captured fact stays muted over any run of attempts |
| NoveltyHistory.NeverStuck | src/novelty.rs:386-436 | after any attempts no clean event meets a capture conflict, so a step fails only when a statement does |
| NoveltyHistory.MuteKeysAreRecorded | src/novelty_alert.rs:224-295 | the mute keys are exactly the keys that earlier attempts got far enough to record |
| NoveltyHistory.NewKeyMeansFirst | src/novelty_alert.rs:224-295 | a key is new exactly when no earlier attempt recorded its brands, as a stripped coalition or as a full set |
| NoveltyHistory.NewKeyMeansFirstRecorded | src/novelty_alert.rs:243-252 | a stripped key is new exactly when no earlier attempt recorded the same stripped coalition |
| NoveltyHistory.KeyHasFirstSeen | src/novelty.rs:373-379 | a mute key carries the event time of the first attempt that recorded it |
| NoveltyHistory.AlertsExactlyWhen | src/novelty_alert.rs:209-285 | an attempt emits a tier A alert if and only if, by the history alone, it completed, is wanted and unmuted, its stripped list has 2 to the maximum number of brands, passes the SAN gate and was recorded by no earlier attempt; the alert names exactly that list |
| NoveltyHistory.AlertsAreDistinct | src/novelty_alert.rs:243-285 | no two attempts of a run alert on the same set of brands |
| NoveltyHistory.RecordedStaysSilent | src/novelty_alert.rs:243-283 | a coalition first recorded while muted, dropped or cut short never alerts later |
| NoveltyResults.AlertBudget | src/novelty_alert.rs:399-401 | with event cap D > 0 no brand is named in more than D - 1 alerts over any run |
| NoveltyResults.AlertsWithinBrandBudget | src/novelty_alert.rs:217-223 | twice the alerts of a run are at most D - 1 times its distinct brands |
| NoveltyResults.CountersExactlyWhen | src/novelty_alert.rs:224-294 | each counter of an attempt, by the history alone: inserted if it is the first to record its key, and then exactly one of high-frequency, oversized, too many SANs, muted, alerted, each on its own plain condition |
| NoveltyResults.FunnelOverRun | src/novelty_alert.rs:224-294 | summed inserts and alerts equal the growth of mute keys and facts on runs without failure, and never exceed it; every insert has one reason |
| NoveltyResults.MultiEventsAreCounted | src/novelty.rs:323-327 | the stored event counter is the number of multi-brand attempts that were counted |
| NoveltyResults.BurnInLatch | src/novelty.rs:356-370 | once burn-in is over it stays over while the clock does not run backwards |
| NoveltyResults.MutedExactlyWhile | src/novelty_sink.rs:157-170 | an attempt is muted if and only if its clock reading is before the start plus the time gate, or fewer multi-brand attempts than the event gate were counted before it |
| NoveltyResults.NoAlertWithinTimeGate | src/novelty_sink.rs:157-170 | with a time gate of S seconds no attempt within S seconds of the start alerts |
| NoveltyResults.AlertsInPlainTerms | src/novelty_alert.rs:209-285 | an alert, on the event, the clock and the earlier attempts only: completed, wanted, 2 to the maximum number of low-frequency brands, SAN count or matched names within the cap, both burn-in gates past, coalition recorded by no earlier attempt |
| NoveltyResults.FirstEventsNeverAlert | src/novelty_sink.rs:157-170 | with event gate E none of the first E multi-brand events alerts |
| NoveltyResults.CaptureLeavesFact | src/novelty.rs:386-436 | the attempt that first records an alertable coalition leaves its fact row for good: hits, hosts, fingerprint, source, SAN count and time are those of its own event |
| NoveltyResults.CaptureCompletesExactlyWhen | src/novelty_alert.rs:249-284 | a capturing attempt completes if and only if none of the statements after its commit fails: one insert per host row of tier B, two counter reads per brand of the learning feed |
| NoveltyResults.FactHasAlertExactlyWhen | src/novelty_alert.rs:243-285 | a captured fact has an alert in the run if and only if none of the statements scripted after its commit fails |
| NoveltyResults.DefaultKeepsAlerts | src/novelty_alert.rs:101-115 | with tier B and the learning feed off, as by default, every captured fact has its alert, whatever fails |
| NoveltyResults.AlertCanBeLost | src/novelty_alert.rs:333-361 | with the learning feed on, one failed counter read right after the capture of a first two-brand event leaves the fact and no alert, however often the event is tried again |
| NoveltySink.LinesAreDistinct | src/novelty_sink.rs:156-190 | whatever fails and is retried, no two tier A lines name the same set of brands |
| NoveltySink.LineHasFact | src/novelty_sink.rs:156-190 | every tier A line has its captured fact, whose columns are those of the line's event |
| NoveltySink.LinesAfterBurnIn | src/novelty_sink.rs:157-170 | every tier A line was written at a clock reading past the time gate, after as many multi-brand events as the event gate asks for |
| NoveltySink.FeedExactlyWhen | src/novelty_alert.rs:333-361 | the learning feed gets a row exactly for an attempt that is the first to record its key and that no gate but burn-in stops |
| NoveltySink.FactHasLineExactlyWhen | src/novelty_sink.rs:169-179 | a captured fact has its line on file if and only if none of the statements scripted after its commit fails and the next scripted write gets out |
| NoveltySink.DefaultLosesLinesOnlyToWrites | src/novelty_sink.rs:169-179 | with tier B and the learning feed off, it has its line if and only if the next scripted write gets out |
| NoveltySink.DeliveredIsOnFile | src/novelty_sink.rs:174-188 | the alert of an attempt that ran to its end with all lines out is on file |
| NoveltySink.FileIsAlertsDue | src/novelty_sink.rs:156-190 | when every line gets out, the tier A lines on file are exactly the alerts the history calls for, in order |
| LostAlerts.LoseLine | src/novelty_sink.rs:169-179 | a default sink, one write that does not get out: the batch is sent again and acknowledged, the fact is stored, the file stays empty |
| LostAlerts.LoseAlert | src/novelty_alert.rs:333-361 | a sink with the learning feed, one counter read that fails after the capture: acknowledged in the end, the fact is stored, the file stays empty |
| NoveltySink.FileOfSink | src/novelty_sink.rs:146-191 | both results for whatever a sink has been through |
| NoveltySink.SeedsIgnoredOnly | src/novelty_sink.rs:83-97 | opening raises both columns of every ignored name to the floor and touches no other name |
| NoveltySink.Open | src/novelty_sink.rs:83-97 | opens exactly when no seeding statement fails; then with no lines, an empty journal and a store that is empty but for the ignore names, which stand at the larger of the two caps in both columns |
| NoveltySink.Sink.constructor | src/novelty_sink.rs:115-126 | a sink over a store that holds nothing but seeded counters of ignored names starts with no lines and an empty journal |
| NoveltySink.Sink.WriteAnswer | src/novelty_sink.rs:174-188 | the alert of a step is on file exactly if its write got out; success means that every due write succeeded |
| NoveltySink.Sink.ProcessOne | src/novelty_sink.rs:156-188 | one clock reading, the calibration check, one attempt and its line; it succeeds exactly when the attempt ran to its end with all lines out; tables and lines stay what the journal says |
| NoveltySink.Sink.SendBatch | src/novelty_sink.rs:146-191 | success if and only if every event ran to its end, in order, with every due line out; failure stops at some event, with every event before it delivered; tables and lines stay what the journal says; on clean events only a scripted fault makes it fail |
| HostHistory.HostsMatchHistory | src/novelty_alert.rs:253-262 | the host table holds exactly the pairs that some attempt got to insert, whatever was cut short |
| HostHistory.DoneInserts | src/novelty_alert.rs:253-313 | a completed attempt inserts, when tier B is on, every remaining brand with every host |
| HostHistory.HostHasFirstSeen | src/novelty.rs:444-450 | a host row carries the event time of the first attempt that inserted it |
| HostHistory.HostAlertExactlyWhen | src/novelty_alert.rs:297-330 | an attempt emits a host alert if and only if it completed, tier B is on, one brand is left, and some host is not routine and was inserted with the brand by no earlier attempt; the alert lists exactly those hosts |
| HostHistory.HostAlertCounted | src/novelty_alert.rs:297-330 | it is counted exactly then |
| HostHistory.HostsAlertOnce | src/novelty_alert.rs:297-330 | no two host alerts of a run report the same host for the same brand |
| Batch.Cut | src/batch.rs:159-177 | the longest prefix within both caps: it fits and no longer prefix does |
| Batch.PushedSplits | src/batch.rs:123-150 | one more event makes at most one batch, non-empty and within both caps; order and content are kept; the rest is settled |
| Batch.DrainAfterPush | src/batch.rs:134-150 | sending until settled after one accepted event is exactly that: nothing, the buffer alone, or the buffer with the event |
| Batch.GreedyDelivers | src/batch.rs:67-72 | the batches of a full flush concatenate to the buffer |
| Batch.GreedyFits | src/batch.rs:159-177 | each batch of a flush is non-empty and within both caps |
| Batch.SettledLeavesAsOne | src/batch.rs:67-72 | a settled buffer is flushed in one batch |
| Batch.WaitsDouble | src/batch.rs:179-204 | each wait between two tries is 10 ms doubled after every earlier refusal, at most 5 s |
| Batch.Batcher.Enqueue | src/batch.rs:123-132 | accepts exactly the events within the byte cap |
| Batch.Batcher.PrefixLen | src/batch.rs:159-177 | the scan finds the longest prefix within both caps |
| Batch.Batcher.ShouldFlushNow | src/batch.rs:141-150 | true exactly when the buffer is not settled |
| Batch.Batcher.TrySend | src/batch.rs:185-192 | the events leave the buffer only if the sink takes them |
| Batch.Batcher.SendPrefixWithRetry | src/batch.rs:179-204 | the longest prefix is acknowledged as one batch after any number of refusals, with the doubling, capped delays; it fails only when no prefix fits; the first try is on record with the oldest receipt |
| Batch.Batcher.Flush | src/batch.rs:67-72 | ends with an empty buffer and exactly the greedy batches acknowledged |
| Batch.Batcher.FlushReady | src/batch.rs:134-139 | ends settled, with exactly the due batches acknowledged |
| Batch.Batcher.Push | src/batch.rs:62-65 | one event: settled again, at most one batch, or an error that loses nothing buffered |
| Batch.Batcher.Take | src/batch.rs:82-110 | the recorded start is set with the first buffered event and kept while anything stays buffered |
| Batch.Batcher.DeadlineInTime | src/batch.rs:94-103 | the armed deadline, the recorded start plus the flush interval or now, is no later than the oldest buffered receipt plus the flush interval, or now |
| Batch.Batcher.TakeTurn | src/batch.rs:78-121 | one turn of the loop: the timer fires exactly when nothing is available by the flush interval after the event that found the buffer empty, and then sends the whole buffer at that time; the recorded start is that event's receipt while anything stays buffered, also after a split |
| Batch.Batcher.TakeTurnOnPace | src/batch.rs:78-121 | a turn keeps on record why each batch was sent |
| Batch.Batcher.Run | src/batch.rs:78-121 | clean exit if and only if every event is within the byte cap, and then everything was delivered in order; after an early exit, delivered and abandoned events are a prefix of what was received; every batch was first sent no later than its oldest receipt plus the flush interval plus the time spent sending since, and only because it was full, the next event did not fit, the flush interval had passed since the event that found the buffer empty, or the channel had closed; if nothing ever fails, each delivered event was processed exactly once and the file holds exactly the alerts the history calls for |
| Batch.Consume | src/pipeline.rs:183-191 | sink and batcher from an empty database to the end of the channel: clean exit if and only if every event is within the byte cap, everything delivered in order; without faults the file holds exactly the alerts that the history of those events calls for |
| Pipeline.AccountedFrame | src/pipeline.rs:201-258 | one frame keeps the books if and only if its outcome is not both a match and suppressed |
| Pipeline.BooksCount | src/pipeline.rs:201-258 | each counter is the number of frames of its own kind: malformed, ignored, suppressed, matched, met a full channel, enqueued |
| Pipeline.FrameLoop.HandleFrame | src/pipeline.rs:206-256 | every counter, the archive offer and the enqueued match of one frame |
| Pipeline.FrameLoop.Run | src/pipeline.rs:198-261 | at exit frames seen equal ignored, malformed, suppressed and enqueued, each counting its own frames, and archive offers equal the enqueued matches in order, up to the one match abandoned |
| Delivery.RunKeeps | src/pipeline.rs:198-261 | over every run: delivered, buffered, poisoned and queued events are exactly what was enqueued, the channel is within capacity, the books balance, every batch is within the caps |
| Delivery.CleanExitDeliversAll | src/batch.rs:78-121 | a clean exit of the batcher means everything enqueued was delivered in order |
| Delivery.DeliveredIsPrefix | src/pipeline.rs:198-261 | at any time, also after an early exit, the delivered events are a prefix of the enqueued ones |
| Delivery.SomethingMoves | src/pipeline.rs:227-252 | no deadlock: unless it idles on an empty channel a live batcher can move, and a blocked frame loop waits for nothing else |
| Delivery.DrainIsBounded | src/batch.rs:111-114 | once the frame loop is gone the batcher takes a bounded number of moves, however often the sink refuses |
| Delivery.DrainDeliversAll | src/batch.rs:111-114 | when nothing moves any more, the batcher exited cleanly and everything was delivered if and only if every event is within the byte cap |
| Delivery.TakingIsSteps | src/batch.rs:104-110 | a turn of the batcher that takes an event is a run of protocol steps with the same result |
| Delivery.FiringIsSteps | src/batch.rs:115-118 | so is a turn in which the timer fires |
| Delivery.ClosingIsSteps | src/batch.rs:111-114 | so is the turn that sees the channel closed, up to the clean exit |
| Delivery.FailingIsSteps | src/batch.rs:123-132 | so is the turn that takes an event over the byte cap, up to the early exit |
| Watchlist.SuffixWalkIsUnder | src/watchlist.rs:288-290 | the suffix walk visits exactly the names the host equals or is a subdomain of |
| Watchlist.ReportIsUnique | src/watchlist.rs:121-190 | the declarative reading of an inspection determines the outcome |
| Watchlist.SuppressingIsDifference | src/watchlist.rs:156-161 | matching with a suppress set gives the event of a watchlist built from the remaining names |
| Watchlist.TwoFilters | src/watchlist.rs:140-169 | filtering by the watchlist and then by the live hits keeps what one filter by the live hits keeps, in order |
| Watchlist.HitsAreCovered | src/watchlist.rs:163-173 | a live hit always keeps a name of the certificate, so the second empty branch is unreachable |
| Watchlist.EngineSeesTheHits | src/novelty_alert.rs:363-373 | the engine's own normalisation of a match changes nothing: it counts exactly the live hits |
| Watchlist.MatchesAreClean | src/watchlist.rs:121-190 | matches of separator-free watchlists are clean events |
| Watchlist.DomainWatchlist.LookUp | src/watchlist.rs:140-145 | the looked-up suffixes are exactly the watched names the host is under |
| Watchlist.DomainWatchlist.Inspect | src/watchlist.rs:121-190 | the two-pass hash matcher reports exactly the declarative reading: sorted unsuppressed names, covered domains in order, clamped SAN count, or why there is no event |
| Hosts.CaseDoesNotMatter | src/watchlist.rs:270-283 | a normal host has no upper-case letter, and letter case never changes it |
| Hosts.SpacesDoNotMatter | src/watchlist.rs:270-283 | surrounding spaces never change it |
| Hosts.DotMattersExactlyWhen | src/watchlist.rs:270-283 | one more trailing dot changes it if and only if the name ends in a space behind a dot |
| Hosts.DotBehindSpace | src/watchlist.rs:270-283 | such a name: a host, a dot and a space |
| Hosts.PlainHostStays | src/watchlist.rs:270-283 | a normal host stands for itself, with or without a wildcard in front |
| Hosts.CoversExactlyWhen | src/watchlist.rs:140-145 | a certificate name in any letter case is under a normal name if and only if it is that name or ends in a dot and that name |
| Hosts.AnyCaseIsReported | src/watchlist.rs:121-190 | such a name of a certificate is reported with the watched name, unless that is suppressed |
| Hosts.EngineHostExactlyWhen | src/novelty_alert.rs:450-465 | the engine's own normalisation gives the matcher's host if and only if no space stands in front of the trailing dots |
| ChunkNames.SiblingShape | src/alerts_file.rs:115-125 | chunk names are exactly the live name, a dot, digits and perhaps the compression suffix |
| ChunkNames.KeyOfStem | src/alerts_file.rs:149-161 | the sort key reads those digits, or zero beyond 128 bits |
| Text.SameWidthOrder | src/archive.rs:480-503 | among time stamps of one width the order of names is the order of keys |
| ChunkNames.KeyOfName | src/archive.rs:480-503 | sort key after chunk name is the identity on time stamps, compressed or not |
| Directory.ListingIsUnique | src/alerts_file.rs:127-147 | chunks with different keys have one listing only |
| Directory.Directory.ListRotated | src/alerts_file.rs:127-147 | exactly the chunks of the log, each once, by increasing key |
| Directory.TotalCounts | src/alerts_file.rs:163-186 | a total counts every named file once, with its own size |
| AlertsFile.EncodeReadsBack | src/alerts_file.rs:199-206 | reading the file line by line gives the lines back, when none holds a newline |
| AlertsFile.ListingIsSealOrder | src/alerts_file.rs:127-161 | the listing is the order in which the chunks were sealed |
| AlertsFile.RetainedIsSuffix | src/alerts_file.rs:56-84 | chunks in key order and then the live file read as the encoding of a suffix of all lines written, and split at the newlines give those lines back: nothing missing, reordered, repeated or cut |
| AlertsFile.PruningKeeps | src/alerts_file.rs:175-186 | pruning keeps a suffix and brings the sealed bytes within the budget |
| AlertsFile.AlertsFile.PruneToBudget | src/alerts_file.rs:163-186 | removes the shortest oldest-first run that fits the budget, or all chunks; it ends although removals may fail |
| AlertsFile.AlertsFile.SealLive | src/alerts_file.rs:64-81 | the live lines become the newest chunk, compressed or kept plain |
| AlertsFile.AlertsFile.RotateIfNeeded | src/alerts_file.rs:56-84 | below the limit nothing changes; otherwise seal and minimal prune; other files are untouched |
| AlertsFile.AlertsFile.OpenAppend | src/alerts_file.rs:189-196 | a missing live file is created empty and nothing else changes |
| AlertsFile.AlertsFile.WriteLine | src/alerts_file.rs:199-215 | the line is last; the live file stays below its limit and live plus sealed bytes below the sum of both limits, whatever sizes compression yields; the chunks change by one rotation or not at all |
| AlertsFile.WriteAll | src/alerts_file.rs:56-215 | any run of writes from a directory without the log: the bounds hold and a reader gets a suffix of all the lines, when the clock readings that are used increase; without compression what the reader gets is within both limits |
| AlertsFile.FirstRotations | src/alerts_file.rs:56-215 | a concrete log through two rotations |
| Archive.MatchArchive.DirByteTotal | src/archive.rs:567-600 | live, sealed and snapshot bytes |
| Archive.MatchArchive.PruneSealedToBudget | src/archive.rs:522-552 | removes the shortest oldest-first run of sealed chunks that fits the budget, or all; ends although removals may fail; never the live file or a snapshot; no budget, no pruning |
| Archive.PruneIsMinimal | src/archive.rs:522-552 | what is gone is no newer than any chunk that stays, the rest fits or no chunk is left, and one removal fewer would not have fitted |
| Archive.PruneIsOldestFirst | src/archive.rs:491-518 | a removed chunk has no later time stamp than a kept one |

## Left out

- NoveltySink.Open: reopening an existing database is not modelled.
- Novelty.NoveltyStore.RecordCooccurrence: a failed commit is taken as rolled back; a connection left inside an open transaction, in which every later begin fails, and counters beyond 64 bits are not modelled.
- Novelty.NoveltyStore.InsertMultiBrandCert: a failed commit is taken as rolled back, as above.
- Batch.Batcher.Run: termination is stated for clean events and finitely many faults; an event that could never be stored would be retried for ever, as in the program.
- AlertsFile.AlertsFile.WriteLine: removals succeed, the clock moves on between rotations and writes are whole; buffered partial writes, a failed reopen, and a partial compressed file left by a failed compression are not modelled. The log starts in a directory that holds none of it.
- NoveltyAlert.RecordHighDf: the contents of learning-feed rows are not modelled, only that reading them may fail.
- Event time is given in whole seconds and the wall-clock fallback is resolved beforehand; the capture time of a fact is not stored.
- Sums of file and event sizes are unbounded; the 64-bit saturation of the program is out of reach of real files.
- Archive writing, rotation and the compaction of long name lists: the same rotation as the alerts log, and easy list bounds.
- Public-suffix lookup, JSON, the stream client, metrics, configuration parsing, schema migration, the outbox and announcements: external data or plumbing.
- A hot swap of the watchlist between frames: each inspection sees one watchlist.
