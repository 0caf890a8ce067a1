# Stumble core: a verified model

Stumble keeps Pods, curated collections on independent nodes, discoverable without a central
index. This project models the parts of `stumble-core` whose correctness is hard to see from
any one function, and proves what they promise.

* **Announcement retention** (`Artifacts`, `Retention`, `Convergence`, `Rejection`,
  `ProvenanceHistory`, `SlotMaps`, `PodAnnouncements`). An Origin signs announcements with a
  30-day lease; they reach a node from many sources, in any order, repeated, at any time, among
  forged ones. Each node keeps one announcement and one withdrawal per key (Origin, slug). Nodes
  that received the same verified artifacts agree, by lease and withdrawal, on the announcement to
  offer, and nothing replaced or withdrawn ever comes back. What a node then lists also depends on
  `announcement_delivery_is_active`, that is on its own endpoints and policy (`Endpoints`).
* **The Bootstrap node** (`StreamLog`, `Cursors`, `RateWindow`, `RateRecords`, `KeyOrder`, `Nodes`,
  `BootstrapStream`, `BootstrapAdmission`, `Lifecycle`, `BootstrapRuns`, `BootstrapLimits`,
  `AdmissionDecision`, `AdmissionOutcomes`, `BackwardClock`, `CursorCoverage`, `StreamPages`,
  `FutureCursors`, `Scenarios`). Admission gates, sliding-window limits, an admitted set and a
  pruned, sequence-numbered lifecycle log with cursor paging. The admitted set always equals what
  the complete log replays to; with a forward clock every window of the complete past keeps the
  limits; a reader that follows issued cursors sees consecutive rows.
* **The synchronizing client** (`StreamSync`, `SyncRuns`, `PassOutcomes`, `PassCounts`,
  `PageFailures`, `Redelivery`, `ClientAgreement`, `Endpoints`). Pages are fetched, applied one page
  at a time with rollback, and the cursor is persisted. Interrupted and resumed passes end as one
  uninterrupted pass would, and a client that read the whole stream offers what the Bootstrap node
  offers.
* **The Discovery Peer** (`PeerServing`, `PeerStreams`, `PeerFutureCursors`, `PeerAds`). Opt-in
  serving of what is retained, the node's own advertisement, rate-limited admission of others, and a
  seeded random sample.
* **The Feed Mix composer** (`FeedMixes`, `FeedComposer`, `FeedPriorities`). A greedy selection in
  five passes under quotas, caps and a priority guarantee, with in-place removal and running
  counters.
* **Taste and evidence** (`InterestSeeds`, `TasteAggregates`, `CandidateMerge`, with
  `StableSort` and `Lists`). What submissions teach, how it is retracted, reset and weighed, and
  how submissions for one candidate merge.

State that the source changes in place is a class here (`Nodes.Store`, `FeedMixes.SelectionState`,
`InterestSeeds.SeedStore`). Its methods follow the source step by step and are proved equal to
functions on values (`NodeState`, `Selection`, `Seeds`). The theorems are about those functions
and about runs of them. `stream.history`, `peer.stream.history` and `ledger` are the complete past
(every row ever appended, every admission ever accepted), which the source prunes and only the
model keeps.

Signature verification and the validity of a public Pod URL are verdicts carried by the artifact
(`signatureValid`, `addressValid`). `Verify` adds the checks the source makes itself: the signer is
the Origin, and the lease ends exactly 30 days after the announcement. The current time, the result
of an Origin probe, the answers of a remote stream, fresh ids and the outcome of URL normalisation
are parameters.

## Where the code does something else than one would expect

The model follows the code. Each point names the statement that pins it down.

* A batch can hold one item more than requested. The priority limit is at least 1 even when the
  subscribed share is 0, and `feed_mix.rs:71-92` then adds the full exploration and old-gem
  targets. This happens for some candidates if and only if those two targets already fill the
  batch (`FeedComposer.TooLongExactly`, `FeedComposer.SixtyFortyOverfills`).
* A failed page is rolled back by restoring two maps. The comment at `stream_sync.rs:98-104` takes
  these to be all that retaining changes, but rows projected into the peer stream remain. The
  failure is invisible if and only if serving is off, or every announcement before the first bad
  entry has lapsed, is buried by what the node keeps, or follows in the page a withdrawal that ends
  it (`PageFailures.FailedPageIsInvisibleExactly`; a page that leaves a row:
  `PageFailures.FailedPageCanLeaveRow`).
* The guard against cursors from the future accepts the cursor equal to the high-water mark. A
  reader using it never gets the row written there, while from every earlier position later reads
  can get it (`FutureCursors.FutureCursorSkipsRow`, `Scenarios.SecondRowIsSkipped`). The peer stream
  has the same guard (`PeerFutureCursors.PeerFutureCursorSkipsRow`).
* A withdrawal older than the kept announcement, naming no other one, is accepted, unmarks an
  admitted key and is logged, but leaves the announcement on offer
  (`Rejection.WithdrawalEndsDiscovery`, `Scenarios.OlderWithdrawalOnlyCloses`).
* A stale announcement is refused only after it removed a withdrawal the kept announcement
  supersedes. This never shows in discovery or in any later announcement
  (`Rejection.RejectionNeverShows`), but it can change the verdict on a later withdrawal, exactly
  as `Rejection.WithdrawalVerdictChangesExactly` says.
* Withdrawals that arrive by stream synchronization are not projected into the node's own log.
  Where that removes the announcement of an admitted key, the next sweep drops the key without a
  row and the log no longer replays to the admitted set
  (`BootstrapRuns.UnprojectedWithdrawalBreaksReplay`, `Scenarios.UnprojectedWithdrawalLosesKey`).
* Every accepted withdrawal submission is logged, so a closed key may have further `Withdrawn`
  rows. An admission epoch still has exactly one closing row (`Lifecycle.ClosedOncePerEpoch`).
* The quota of eight counts keys on offer, so an Origin gets a ninth admitted key exactly when one
  of the eight has lapsed and was not swept yet (`BootstrapLimits.NinthKeyExactlyWhenOneLapsed`,
  `Scenarios.NinthKeyIsAdmitted`).
* Timestamps pruned at a later reading of the clock are lost to an earlier one. After the clock was
  set back, a submission overfills a one-hour window, which may end later than the submission,
  exactly when the pruned lists let it pass although a window it falls into is full. After any run
  the limits hold if and only if that never happened (`BackwardClock.OverfilledExactly`,
  `BackwardClock.LimitHoldsExactly`, `PeerAds.PeerOverfilledExactly`,
  `Scenarios.BackwardClockOverfills`, `Scenarios.LaterHourOverfills`).
* Switching on peer serving passes over announcements whose lease has ended. If the clock is then
  set back, they count as leased and are not served, and only these (`PeerStreams.ServingIsComplete`,
  `PeerStreams.SwitchOnServesExactly`, `PeerStreams.LateSwitchOnLeavesOut`).
* A locally retained announcement counts as active until a delivery of it names a remote source, and
  then only as long as some source that any delivery named does (`Endpoints.ActiveExactly`,
  `Endpoints.LocalStopsCountingAfterRemote`).
* Resetting a single taste signal also retracts every seed of that User that was recorded without
  any evidence (`InterestSeeds.ResetRetractsExactly`, `InterestSeeds.UnrelatedResetRetracts`).

## Model

| member | source | states |
|---|---|---|
| `Retention.PreferenceIgnoresClock` | crates/stumble-core/src/pod_announcement.rs:162-178 | Between verified announcements the lease-aware comparator is the lexicographic order of (announced at, package version, id), whatever the clock says |
| `Retention.RunKeepsSound` | crates/stumble-core/src/pod_announcement.rs:484-503 | In every slot reachable by any deliveries, kept artifacts are verified and a kept announcement is strictly later than a kept withdrawal |
| `Retention.DeliverySettles` | crates/stumble-core/src/pod_announcement.rs:467-616 | A verified delivery puts its artifact behind the slot, whether it is accepted or rejected |
| `Retention.RunKeepsSettled` | crates/stumble-core/src/pod_announcement.rs:467-616 | An announcement that was matched, replaced or withdrawn stays so under any later deliveries at any times |
| `Retention.RunKeepsHighWater` | crates/stumble-core/src/pod_announcement.rs:484-503 | The high-water mark max(announced at, withdrawn at) never decreases over a run |
| `Retention.NoResurrection` | crates/stumble-core/src/pod_announcement.rs:467-616 | An announcement once replaced or withdrawn is never kept again and every redelivery of it is refused, in any run, however the clock moves |
| `Convergence.OfferedIsWinner` | crates/stumble-core/src/pod_announcement.rs:182-197 | What a node offers at a time is the top-ranked announcement delivered to it, still leased and later than every withdrawal delivered |
| `Convergence.WinnerIsOffered` | crates/stumble-core/src/pod_announcement.rs:182-197 | Such an announcement, if there is one among the deliveries, is offered |
| `Convergence.Converges` | crates/stumble-core/src/pod_announcement.rs:467-616 | Two runs that received the same verified artifacts, in any order, at any times, repeated, and mixed with any forged or malformed ones, offer the same announcement |
| `SlotMaps.KeysAreIndependent` | crates/stumble-core/src/pod_announcement.rs:485-504 | A key of the two maps evolves by its own deliveries alone, in any run that mixes keys |
| `SlotMaps.NodesConverge` | crates/stumble-core/src/pod_announcement.rs:467-616 | Convergence for whole nodes: the same verified artifacts lead to the same offer for every key |
| `Rejection.RejectionIsHarmless` | crates/stumble-core/src/pod_announcement.rs:485-504 | A rejected delivery leaves the slot equal up to a superseded withdrawal |
| `Rejection.AlikeAnnounce` | crates/stumble-core/src/pod_announcement.rs:467-553 | Slots that differ by a superseded withdrawal decide every announcement alike and stay alike |
| `Rejection.RejectionNeverShows` | crates/stumble-core/src/pod_announcement.rs:485-504 | A rejected delivery never changes what is discoverable, now or after any later deliveries, nor which later announcements are retained and with which record |
| `Rejection.RejectionDropsExactly` | crates/stumble-core/src/pod_announcement.rs:485-504 | A rejected announcement changes its slot exactly when it is verified, leased and later than the kept withdrawal |
| `Rejection.RejectionCanAdmitSupersededWithdrawal` | crates/stumble-core/src/pod_announcement.rs:485-504 | Concrete deliveries after which a rejection changes the verdict on a later withdrawal |
| `Rejection.WithdrawalVerdictChangesExactly` | crates/stumble-core/src/pod_announcement.rs:564-616 | Exactly when a rejected announcement changes the verdict on the next withdrawal |
| `Rejection.WithdrawalEndsDiscovery` | crates/stumble-core/src/pod_announcement.rs:582-614 | An accepted withdrawal ends discovery exactly when the kept announcement is not later than it, or its lease lapsed |
| `Scenarios.OlderWithdrawalOnlyCloses` | crates/stumble-core/src/bootstrap/admit.rs:222-308 | An older withdrawal is accepted, releases the admitted key, and leaves its announcement on offer |
| `ProvenanceHistory.ProvenanceMatchesHistory` | crates/stumble-core/src/pod_announcement.rs:505-548 | The recorded source sets of the kept announcement are exactly the union of the sources of its accepted deliveries, the recorded time is that of the latest one and the recorded peer that of the latest one that named a peer, whatever their order and whatever forged copies came in between |
| `ProvenanceHistory.KeptWithdrawalIsDelivered` | crates/stumble-core/src/pod_announcement.rs:564-616 | A kept withdrawal is one that was delivered, with the time and peer of that delivery |
| `PodAnnouncements.RetainVerifiedPodAnnouncement` | crates/stumble-core/src/pod_announcement.rs:467-553 | The operation on the store has exactly the outcome and new state of the per-key specification, plus the projection into the peer stream |
| `PodAnnouncements.RetainVerifiedPodWithdrawal` | crates/stumble-core/src/pod_announcement.rs:564-616 | Likewise for withdrawals; only the two maps change |
| `StreamLog.AppendKeepsWindow` | crates/stumble-core/src/bootstrap/types.rs:156-163 | Appending and pruning keep the log a contiguous interval that ends at the newest sequence |
| `StreamLog.WindowSize` | crates/stumble-core/src/bootstrap/types.rs:156-163 | The log holds min(rows ever appended, 8192) rows |
| `StreamLog.RangeIsHistory` | crates/stumble-core/src/bootstrap/stream.rs:168-184 | A page holds consecutive rows of the complete log, from the first retained one after the position on |
| `Cursors.CursorRoundTrip` | crates/stumble-core/src/bootstrap/stream.rs:110-123 | Every issued cursor parses back to the position it was issued for |
| `Cursors.CursorsAreDistinct` | crates/stumble-core/src/bootstrap/stream.rs:110-123 | Distinct positions have distinct cursors, none of them blank |
| `Cursors.ParsesExactly` | crates/stumble-core/src/bootstrap/stream.rs:110-123 | A cursor stands for n exactly when, trimmed, it is a decimal numeral of n below 2^64, with any leading zeros and an optional plus sign |
| `Cursors.TrimmedExactly` | crates/stumble-core/src/bootstrap/stream.rs:110-123 | Trimming removes white space at both ends and nothing else |
| `Nodes.Store.EnsureBootstrapRuntime` | crates/stumble-core/src/bootstrap/types.rs:85-89 | Creates the bookkeeping on first use and changes nothing else |
| `BootstrapStream.PruningKeepsSurvivors` | crates/stumble-core/src/bootstrap/types.rs:143-153 | An audit survives a pruning exactly when it is younger than seven days and fewer than 1024 such audits came after it; the order is kept |
| `BootstrapStream.RejectSubmission` | crates/stumble-core/src/bootstrap/types.rs:122-140 | A rejection adds one audit and touches nothing else |
| `BootstrapStream.AuditsAreBounded` | crates/stumble-core/src/bootstrap/types.rs:143-153 | Audits stay bounded in number and age, and the newest rejection is always kept |
| `BootstrapStream.PruneStreamEntries` | crates/stumble-core/src/bootstrap/types.rs:156-163 | The loop removes the lowest sequences until 8192 rows are left |
| `BootstrapStream.AppendStreamEntry` | crates/stumble-core/src/bootstrap/stream.rs:20-42 | Writes one row at the next sequence, advances the counter and prunes |
| `BootstrapStream.CollectExpiry` | crates/stumble-core/src/bootstrap/stream.rs:55-81 | Splits the admitted keys into lapsed announcements and keys without an announcement |
| `BootstrapStream.ExpireCandidates` | crates/stumble-core/src/bootstrap/stream.rs:83-100 | Writes one terminal row per candidate and releases its key |
| `BootstrapStream.EmitExpiryTransitions` | crates/stumble-core/src/bootstrap/stream.rs:52-101 | The sweep over the store equals its specification and reports the number of rows |
| `BootstrapStream.ProjectBootstrapWithdrawal` | crates/stumble-core/src/bootstrap/stream.rs:225-236 | Closes an admitted key with one row and does nothing for any other key |
| `BootstrapStream.ReadAnnouncementStream` | crates/stumble-core/src/bootstrap/stream.rs:136-185 | Reading validates the cursor, sweeps, and serves the rows after the cursor |
| `BootstrapAdmission.RecordAdmissionAttempt` | crates/stumble-core/src/bootstrap/types.rs:216-230 | Prunes both timestamp lists and appends the admission |
| `BootstrapAdmission.CheckAdmission` | crates/stumble-core/src/bootstrap/admit.rs:131-176 | The gates after the idempotent replay, in the order of the code |
| `BootstrapAdmission.AdmitBootstrapAnnouncement` | crates/stumble-core/src/bootstrap/admit.rs:66-215 | The admission on the store has exactly the outcome and new state of its specification |
| `BootstrapAdmission.AdmitBootstrapWithdrawal` | crates/stumble-core/src/bootstrap/admit.rs:222-308 | Likewise for submitted withdrawals |
| `AdmissionDecision.RetainedExactly` | crates/stumble-core/src/pod_announcement.rs:467-503 | An announcement is retained exactly when verified, leased, later than the kept withdrawal and not outranked by the kept announcement |
| `AdmissionDecision.RateDecides` | crates/stumble-core/src/bootstrap/types.rs:191-214 | After any run the rate check counts what recording leaves of the complete past; with a forward clock that is the hour that ends now |
| `AdmissionDecision.AcceptedExactly` | crates/stumble-core/src/bootstrap/admit.rs:66-215 | After any run, whatever its clock did, an announcement is accepted exactly when well formed and either a replay or confirmed by the probe, passed by the rate check, within the quota and retainable; with a forward clock the rate check is fewer than 512 and 24 admissions in the past 3,600 seconds |
| `AdmissionDecision.WithdrawalRetainedExactly` | crates/stumble-core/src/pod_announcement.rs:564-616 | A withdrawal is retained exactly when it repeats the kept one or no kept artifact makes it stale |
| `AdmissionDecision.WithdrawalAcceptedExactly` | crates/stumble-core/src/bootstrap/admit.rs:222-308 | After any run, whatever its clock did, a submitted withdrawal is accepted exactly when well formed and either a repetition or passed by the rate check and not stale |
| `AdmissionDecision.RateAloneDecides` | crates/stumble-core/src/bootstrap/admit.rs:131-138 | With every other gate passed, the rate limit alone accepts or refuses, and a refusal leaves the ledger |
| `AdmissionDecision.RateRefusesExactly` | crates/stumble-core/src/bootstrap/types.rs:191-214 | With a forward clock and every other gate passed, an announcement is refused for its rate exactly when the 3,600 seconds up to it hold 512 admissions or 24 of its Origin |
| `AdmissionDecision.RateAloneDecidesWithdrawal` | crates/stumble-core/src/bootstrap/admit.rs:222-308 | With every other gate passed, the rate limit alone accepts or refuses a withdrawal, and an accepted one counts for the limits |
| `AdmissionOutcomes.AcceptedOutcome` | crates/stumble-core/src/bootstrap/admit.rs:179-215 | An accepted announcement that is no replay is answered as an admission if its key was not admitted and as a renewal if it was, and adds exactly that row, with its artifact, time and number |
| `AdmissionOutcomes.ReplayOutcome` | crates/stumble-core/src/bootstrap/admit.rs:113-128 | Exactly the announcement an admitted key holds is answered as a replay, which changes nothing |
| `AdmissionOutcomes.RefusalReason` | crates/stumble-core/src/bootstrap/admit.rs:66-193 | The reason of every refusal, from the submission, the probe and the state of the node: which of the gates it fails first |
| `AdmissionOutcomes.RefusalIsAudited` | crates/stumble-core/src/bootstrap/types.rs:122-140 | A refusal is recorded last among the audits, with its reason, its subject and the time |
| `AdmissionOutcomes.WithdrawalRefusalReason` | crates/stumble-core/src/bootstrap/admit.rs:222-308 | The reason of every refused withdrawal |
| `AdmissionOutcomes.WithdrawalRefusalIsAudited` | crates/stumble-core/src/bootstrap/types.rs:122-140 | A refused withdrawal is recorded likewise |
| `AdmissionOutcomes.WithdrawalOutcome` | crates/stumble-core/src/bootstrap/admit.rs:222-308 | An accepted withdrawal adds exactly one row, whether or not its key was admitted; a repetition adds none and changes nothing |
| `AdmissionOutcomes.SweepRows` | crates/stumble-core/src/bootstrap/stream.rs:52-101 | A sweep adds exactly one expired row for each admitted key whose lease is over, by Origin and slug, with the announcement that lapsed |
| `Lifecycle.EpochShape` | crates/stumble-core/src/bootstrap/stream.rs:52-101 | In a legal log, after an admission the key stays open with renewals only, up to at most one closing row, and then closed until the next admission |
| `Lifecycle.ClosedOncePerEpoch` | crates/stumble-core/src/bootstrap/stream.rs:52-101 | Between two consecutive admissions of a key there is exactly one closing row |
| `BootstrapRuns.SweepEffect` | crates/stumble-core/src/bootstrap/stream.rs:52-101 | A sweep touches only the log and the admitted set, and closes exactly the lapsed keys |
| `BootstrapRuns.StepKeeps` | crates/stumble-core/src/bootstrap/admit.rs:66-308 | Every operation keeps log replay, lifecycle grammar, log window and held artifacts |
| `BootstrapRuns.RunKeepsInv` | crates/stumble-core/src/bootstrap/admit.rs:66-308 | In every reachable state the admitted set is what the complete log replays to, rows are legal, and each admitted key keeps an announcement and no withdrawal |
| `BootstrapRuns.SweepKeepsReplayExactly` | crates/stumble-core/src/bootstrap/stream.rs:55-81 | A sweep keeps the admitted set equal to the replayed log exactly when every admitted key still has an announcement |
| `BootstrapRuns.UnprojectedWithdrawalBreaksReplay` | crates/stumble-core/src/bootstrap/client.rs:411-425 | A withdrawal retained without projection breaks log replay at the next sweep exactly when it removes the announcement of an admitted key |
| `Scenarios.UnprojectedWithdrawalLosesKey` | crates/stumble-core/src/bootstrap/client.rs:411-425 | An admitted key, a withdrawal retained without projection, a sweep: the key is gone and the log still has it open |
| `RateWindow.RecentIsWindow` | crates/stumble-core/src/bootstrap/types.rs:186-214 | The pruned list counts the current hour of the complete admission history exactly |
| `RateWindow.EveryWindowIsBounded` | crates/stumble-core/src/bootstrap/types.rs:191-214 | A limit kept at every admission bounds every one-hour window, wherever it ends |
| `RateWindow.RecordKeeps` | crates/stumble-core/src/bootstrap/types.rs:191-230 | An admission that passed the check keeps both limits for every submitter |
| `RateWindow.LimitsDecide` | crates/stumble-core/src/bootstrap/types.rs:191-214 | Refusing on the pruned lists is refusing on the complete history |
| `RateWindow.LimitsHold` | crates/stumble-core/src/bootstrap/types.rs:191-230 | Every window of the complete history and the stored lists respect both limits |
| `RateWindow.WindowsAreHours` | crates/stumble-core/src/bootstrap/types.rs:186-214 | The windows all limit statements speak of are the admissions less than 3,600 seconds before their end, counted one by one |
| `RateRecords.LimitsDecideAnytime` | crates/stumble-core/src/bootstrap/types.rs:186-230 | After admissions in ascending order, the check counts at any reading of the clock the window that ends at the later of that reading and the last admission |
| `RateRecords.RecordKeepsExact` | crates/stumble-core/src/bootstrap/types.rs:186-230 | Whatever the clock did, the stored lists are what pruning and appending leave of the complete past, for everyone and for each submitter |
| `RateRecords.NothingIsLost` | crates/stumble-core/src/bootstrap/types.rs:186-214 | A reading behind no admission counts the window that ends there exactly, whatever the clock did before |
| `RateRecords.FullAheadExactly` | crates/stumble-core/src/bootstrap/types.rs:191-214 | Some window that a reading falls into is full exactly when the one that ends there is, or one that ends with an admission less than an hour later |
| `RateRecords.AttemptOverfillsExactly` | crates/stumble-core/src/bootstrap/types.rs:186-230 | For any limits, any past and any reading: an attempt overfills a window, wherever it ends, exactly when the check lets it pass although a window it falls into is full, which takes a clock set back |
| `BackwardClock.CheckAnytime` | crates/stumble-core/src/bootstrap/types.rs:191-214 | After any run with a forward clock, the 512 and 24 of a node are checked, at any reading, against the hour that ends at the later of that reading and the last admission in the complete past |
| `BackwardClock.OverfilledExactly` | crates/stumble-core/src/bootstrap/admit.rs:131-138 | After any run, a submission at any reading, every other gate passed, overfills a window of 512 or 24, wherever it ends, exactly when the check lets it pass although a window it falls into is full; that takes a reading behind some admission |
| `BackwardClock.WithdrawalOverfillsExactly` | crates/stumble-core/src/bootstrap/admit.rs:222-308 | The same for submitted withdrawals, which count for the same limits |
| `BackwardClock.StepOverfillsExactly` | crates/stumble-core/src/bootstrap/types.rs:186-230 | Any operation in any state overfills a window exactly when it is an accepted submission that falls into a full one |
| `BackwardClock.LimitHoldsExactly` | crates/stumble-core/src/bootstrap/types.rs:186-230 | After any run, whatever its clock did, any 3,600 seconds keep the limits if and only if no accepted submission fell into a window that was full already |
| `Scenarios.BackwardClockOverfills` | crates/stumble-core/src/bootstrap/types.rs:186-230 | 25 admissions of one Origin in one hour, by submissions to an empty node and a clock set back once |
| `Scenarios.LaterHourOverfills` | crates/stumble-core/src/bootstrap/types.rs:186-230 | Set back further, the last of these is alone in the hour that ends at it and overfills one that ends later |
| `BootstrapLimits.StepRecords` | crates/stumble-core/src/bootstrap/admit.rs:195-196 | The admission ledger grows by exactly the accepted submissions, each of which passed the limits |
| `BootstrapLimits.AdmissionsAreLimited` | crates/stumble-core/src/bootstrap/types.rs:186-230 | Over any run with a forward clock, any 3,600 seconds hold at most 512 admissions, and at most 24 of one Origin |
| `BootstrapLimits.QuotaHoldsWhenSwept` | crates/stumble-core/src/bootstrap/admit.rs:165-176 | If every submission comes after a sweep or a served read at the same instant, an Origin never has more than eight admitted keys |
| `BootstrapLimits.QuotaDecides` | crates/stumble-core/src/bootstrap/admit.rs:37-58 | With every other gate passed, the count of active keys alone decides a new key |
| `BootstrapLimits.NinthKeyExactlyWhenOneLapsed` | crates/stumble-core/src/bootstrap/admit.rs:165-176 | A ninth key is admitted exactly when one of the eight has lapsed unswept |
| `Scenarios.NinthKeyIsAdmitted` | crates/stumble-core/src/bootstrap/admit.rs:165-176 | Eight keys admitted from an empty node, one lapsed unswept, and a ninth admitted |
| `BootstrapLimits.RejectedSubmissionIsHarmless` | crates/stumble-core/src/bootstrap/admit.rs:179-185 | A rejected submission leaves log, admitted set, rate lists and peer stream as they were, and the maps alike |
| `BootstrapLimits.RejectedWithdrawalIsHarmless` | crates/stumble-core/src/bootstrap/admit.rs:222-308 | A rejected withdrawal changes nothing but the audits |
| `CursorCoverage.PageContinuesCover` | crates/stumble-core/src/bootstrap/stream.rs:136-185 | A page read at an issued cursor continues the reader without repeats and skips only rows pruned from behind it |
| `CursorCoverage.PollContinues` | crates/stumble-core/src/bootstrap/stream.rs:136-185 | An issued cursor is never refused, and its page continues the reader |
| `CursorCoverage.ReaderCovers` | crates/stumble-core/src/bootstrap/stream.rs:136-185 | Over every interleaving of server operations and reads the reader saw each row once and in order, except rows pruned before it reached them |
| `CursorCoverage.PromptReaderSeesAll` | crates/stumble-core/src/bootstrap/stream.rs:136-185 | A reader that polls before 8192 rows pass it sees the complete log, row for row |
| `StreamPages.ReadServesFirst` | crates/stumble-core/src/bootstrap/stream.rs:136-185 | A read serves the first retained rows after the cursor in the swept log, in order: as many as are wanted (50, or what is asked between 1 and 100), or all if they are fewer |
| `StreamPages.ReadRefusedExactly` | crates/stumble-core/src/bootstrap/stream.rs:136-163 | A read is refused, changing nothing, exactly when the service is off or the cursor is no number or beyond the next row; which of these is told |
| `StreamPages.PeerReadServesFirst` | crates/stumble-core/src/discovery_peer/serve.rs:30-80 | The same of the rows a peer read serves |
| `StreamPages.PeerReadRefusedExactly` | crates/stumble-core/src/discovery_peer/serve.rs:30-60 | The same of the peer reads that are refused |
| `ClientAgreement.RunMirrors` | crates/stumble-core/src/bootstrap/admit.rs:66-308 | Over any run, what the log says of a key that was only submitted is behind what the node keeps of it, and what the node keeps is in the log |
| `ClientAgreement.ClientAgrees` | crates/stumble-core/src/bootstrap/stream.rs:136-185 | A client that got the artifacts of such a key in the complete log, in any order and amid forged ones, offers what the Bootstrap node offers, whatever the clocks did before |
| `ClientAgreement.StepIsGood` | crates/stumble-core/src/bootstrap/client.rs:382-431 | No operation ever writes a row that would fail the page of a client |
| `ClientAgreement.PromptClientAgrees` | crates/stumble-core/src/bootstrap/client.rs:382-431 | End to end: a prompt reader at the end of the stream, in any interleaving, applies all it got without a failure and then offers for such a key what the node offers |
| `FutureCursors.NothingBehindIsServed` | crates/stumble-core/src/bootstrap/stream.rs:136-185 | Whatever happens, a reader never gets a row at or before the position it resumed from |
| `FutureCursors.PollsReachRow` | crates/stumble-core/src/bootstrap/stream.rs:136-185 | Polling on reaches every retained row ahead of the cursor |
| `FutureCursors.FutureCursorSkipsRow` | crates/stumble-core/src/bootstrap/stream.rs:147-163 | Every position up to the high-water mark is accepted, and later reads can get the next row from it, whatever else the node does, if and only if it is not that mark |
| `Scenarios.SecondRowIsSkipped` | crates/stumble-core/src/bootstrap/stream.rs:147-163 | A node with one row accepts cursor 2, from which row 2 is never got, while it is from cursor 1 |
| `PeerServing.PrunePeerStreamEntries` | crates/stumble-core/src/discovery_peer/types.rs:99-106 | The loop keeps the newest 8192 rows |
| `PeerServing.AppendPeerStreamEntry` | crates/stumble-core/src/discovery_peer/advertise.rs:182-201 | Writes one row at the next sequence and advances the counter |
| `PeerServing.ProjectPeerServingAnnouncement` | crates/stumble-core/src/discovery_peer/advertise.rs:133-151 | Refuses in the order of the code, and otherwise appends one row |
| `PeerServing.MaybeProjectPeerServingAnnouncement` | crates/stumble-core/src/discovery_peer/advertise.rs:157-166 | Projects when serving, and does nothing otherwise |
| `PeerServing.ProjectKeepsWindow` | crates/stumble-core/src/discovery_peer/advertise.rs:133-201 | The peer stream stays a contiguous interval that ends at the newest sequence |
| `PeerServing.ProjectAllAppends` | crates/stumble-core/src/discovery_peer/advertise.rs:168-201 | A series of projections appends exactly those rows in order while serving, and nothing otherwise |
| `PeerStreams.EnableDiscoveryPeerService` | crates/stumble-core/src/discovery_peer/advertise.rs:38-71 | After the endpoint, key, reachability and identity checks in this order, issues the advertisement, records endpoint and time, and projects every verified leased announcement |
| `PeerStreams.RenewDiscoveryPeerAdvertisement` | crates/stumble-core/src/discovery_peer/advertise.rs:79-108 | Issues a new advertisement for the kept endpoint after the checks, only while serving, and touches nothing else |
| `PeerStreams.PausedIsQuiet` | crates/stumble-core/src/discovery_peer/advertise.rs:114-120 | After switching off, no reader gets anything and no row is written in any run that does not switch on again |
| `PeerStreams.ReaderResumes` | crates/stumble-core/src/discovery_peer/advertise.rs:38-71 | After switching on again, a reader from before is accepted and its next page continues where it was |
| `PeerStreams.AdvertisedExactlyWhileServing` | crates/stumble-core/src/discovery_peer/advertise.rs:38-120 | Over every run an advertisement is out exactly while serving, verifies, names the verified endpoint and was issued when it was verified |
| `PeerStreams.IssuedIsAdmissible` | crates/stumble-core/src/discovery_peer/advertise.rs:216-239 | An issued advertisement passes the checks of an admitting Bootstrap node exactly while it is less than seven days old, its key is not blank and it is not too large |
| `PeerStreams.ReadPeerAnnouncementStream` | crates/stumble-core/src/discovery_peer/serve.rs:30-80 | Refuses when off or on a bad cursor, and otherwise serves the rows after the cursor |
| `PeerStreams.PeerReaderCovers` | crates/stumble-core/src/discovery_peer/serve.rs:30-80 | Reader coverage of the peer stream over every interleaving, the service being switched off and on included |
| `PeerFutureCursors.NothingBehindIsServedByPeer` | crates/stumble-core/src/discovery_peer/serve.rs:30-80 | Whatever happens, a reader of the peer stream never gets a row at or before the position it resumed from |
| `PeerFutureCursors.PeerFutureCursorSkipsRow` | crates/stumble-core/src/discovery_peer/serve.rs:48-65 | While serving, every position up to the high-water mark is accepted, and later reads of the peer stream can get the next row from it, whatever else the node does, if and only if it is not that mark |
| `PeerFutureCursors.FirstRowIsSkipped` | crates/stumble-core/src/discovery_peer/serve.rs:48-65 | A node that has just begun to serve accepts cursor 1, from which its first row is never got, while it is from cursor 0 |
| `PeerStreams.ServingIsComplete` | crates/stumble-core/src/discovery_peer/advertise.rs:38-71 | While serving, every kept announcement with an active lease has been written to the stream, at any reading that is not behind a switching on |
| `PeerStreams.SwitchOnServesExactly` | crates/stumble-core/src/discovery_peer/advertise.rs:38-71 | At any readings, what is served after switching on is complete if and only if each kept announcement that counts as leased was leased then or had been written before |
| `PeerStreams.LateSwitchOnLeavesOut` | crates/stumble-core/src/discovery_peer/advertise.rs:38-71 | A node that switches on when a lease has ended, with its clock set back afterwards, keeps a leased announcement that it does not serve |
| `PeerStreams.CaughtUpReaderKnowsAll` | crates/stumble-core/src/discovery_peer/serve.rs:30-80 | A reader at the end of the stream without misses has seen every leased announcement the peer keeps |
| `PeerAds.AdmitDiscoveryPeerAdvertisement` | crates/stumble-core/src/discovery_peer/admit.rs:27-123 | The admission of an advertisement on the store equals its specification |
| `PeerAds.PeerAcceptedExactly` | crates/stumble-core/src/discovery_peer/admit.rs:27-123 | With a forward clock an advertisement is accepted exactly when enabled, small enough, its own node's, current, leased, signed and at a usable endpoint, and either kept already or within both limits and confirmed by the probe |
| `PeerAds.KeptIsLastAccepted` | crates/stumble-core/src/discovery_peer/admit.rs:95-112 | After any submissions, what is kept of a node is the last advertisement accepted of it, with the time of its acceptance |
| `PeerAds.KnownWhenAccepted` | crates/stumble-core/src/discovery_peer/admit.rs:95-112 | A node is known exactly when one of its advertisements was accepted |
| `PeerAds.OutcomeExactly` | crates/stumble-core/src/discovery_peer/admit.rs:76-122 | An advertisement that is kept already is answered as a repetition and changes nothing; one of an unknown node is admitted, another one of a known node renewed |
| `PeerAds.PeerAdmissionsAreLimited` | crates/stumble-core/src/discovery_peer/types.rs:50-96 | With a forward clock, any 3,600 seconds hold at most 128 peer admissions, and at most 8 of one node |
| `PeerAds.PeerRateRefusesExactly` | crates/stumble-core/src/discovery_peer/types.rs:50-77 | With a forward clock and every other gate passed, an advertisement is refused for its rate exactly when the 3,600 seconds up to it hold 128 admissions or 8 of its node |
| `PeerAds.PeerOverfilledExactly` | crates/stumble-core/src/discovery_peer/types.rs:50-96 | After any submissions, one more overfills a window of 128 or 8, wherever it ends, exactly when the check lets it pass although a window it falls into is full and nothing else is in the way |
| `PeerAds.ShufflePermutes` | crates/stumble-core/src/discovery_peer/serve.rs:129-134 | The seeded shuffle is a permutation for every seed |
| `PeerAds.LastIsDrawn` | crates/stumble-core/src/discovery_peer/serve.rs:129-134 | Each round of the shuffle places the item that the next value of the 64-bit generator names, and never moves it again |
| `PeerAds.Shuffle` | crates/stumble-core/src/discovery_peer/serve.rs:129-134 | The in-place shuffle stays in bounds and equals its specification |
| `PeerAds.CollectEligible` | crates/stumble-core/src/discovery_peer/serve.rs:121-126 | Collects each eligible advertisement once |
| `PeerAds.SampleKnownAdvertisements` | crates/stumble-core/src/discovery_peer/serve.rs:111-138 | For every seed: min(limit, eligible) different advertisements, the limit 8 unless asked and between 1 and 16, each of them kept, verified and leased |
| `StreamSync.FetchStreamPages` | crates/stumble-core/src/stream_sync.rs:35-73 | The fetch loop equals its recursive specification and returns at most 32 pages; `PassOutcomes.PassAppliesExactly` says which |
| `StreamSync.ApplyStreamEntry` | crates/stumble-core/src/bootstrap/client.rs:390-429 | One entry is retained, skipped or fails the page |
| `StreamSync.ApplyStreamPage` | crates/stumble-core/src/bootstrap/client.rs:382-431 | Entries are applied in order up to the first hard failure |
| `StreamSync.ApplyPageStaged` | crates/stumble-core/src/stream_sync.rs:105-119 | On a hard failure the two maps, and only those, are put back |
| `StreamSync.DrainPage` | crates/stumble-core/src/stream_sync.rs:149-173 | One page is applied and the cursor moved past it, unless it fails |
| `StreamSync.DrainStreamPages` | crates/stumble-core/src/stream_sync.rs:136-186 | Pages are applied in order; the cursor stops at the first bad page |
| `StreamSync.SyncBootstrapEndpoint` | crates/stumble-core/src/bootstrap/client.rs:250-298 | One pass over one endpoint fetches, applies and persists its progress |
| `SyncRuns.EntriesOutcome` | crates/stumble-core/src/bootstrap/client.rs:382-431 | A page applies exactly when it has no bad entry, and then its effect on the maps is its deliveries in order |
| `SyncRuns.FailedPageResidue` | crates/stumble-core/src/stream_sync.rs:105-119 | A failed page restores both maps; all that remains is one peer row per announcement retained before the failure |
| `PageFailures.NothingRetainedExactly` | crates/stumble-core/src/bootstrap/client.rs:382-431 | Nothing is retained before a failure exactly when each announcement before the first bad entry has lapsed, is buried in the node's own slot, or follows in the page a withdrawal that ends it |
| `PageFailures.FailedPageIsInvisibleExactly` | crates/stumble-core/src/stream_sync.rs:105-119 | A failed page leaves the whole node as it was if and only if serving is off or no announcement before the first bad entry can take effect, told from page and node before the call |
| `PageFailures.FailedPageCanLeaveRow` | crates/stumble-core/src/stream_sync.rs:105-119 | A concrete page that fails on a node switched on for serving and leaves a row behind |
| `SyncRuns.PassesFoldAPrefix` | crates/stumble-core/src/stream_sync.rs:136-186 | Any sequence of passes with failures anywhere leaves the maps as the fold of the first pages, with the persisted cursor at the first page not applied |
| `SyncRuns.ResumeEqualsUninterrupted` | crates/stumble-core/src/bootstrap/client.rs:250-298 | However passes are interrupted and resumed, the maps are those of applying each page once |
| `SyncRuns.PersistedCursor` | crates/stumble-core/src/stream_sync.rs:136-186 | The persisted cursor is the one the drain stopped at, on success and on failure |
| `SyncRuns.PassProgresses` | crates/stumble-core/src/stream_sync.rs:136-186 | A pass whose first request gets a good page applies at least that page |
| `PassOutcomes.PageFailure` | crates/stumble-core/src/bootstrap/client.rs:382-431 | A page with a bad entry fails with the reason of its first bad entry |
| `PassCounts.PageCounts` | crates/stumble-core/src/bootstrap/client.rs:382-431 | A good page reports how many of its announcements, and how many of its withdrawals, were retained when their turn came |
| `PassOutcomes.PassAppliesExactly` | crates/stumble-core/src/stream_sync.rs:35-186 | If the answers come from one stream, a pass fetches n pages, n being 32 or where a request fails or one past the first page that ends the stream, applies them up to the first bad one, and reports that page, that request, or success |
| `PassOutcomes.EveryPassStops` | crates/stumble-core/src/stream_sync.rs:35-186 | For any answers there are such numbers of pages fetched and applied, so every pass is covered |
| `PassOutcomes.HealthyPass` | crates/stumble-core/src/stream_sync.rs:35-186 | When every request is answered and no page is bad, a pass applies all pages up to the end of the stream, or 32, and succeeds |
| `PassCounts.PassCountsExactly` | crates/stumble-core/src/stream_sync.rs:136-186 | A pass reports as retained, of each kind, the sum over the pages it applied of the entries retained in their turn |
| `PassOutcomes.FailureIsPersisted` | crates/stumble-core/src/bootstrap/client.rs:250-298 | A failed pass stores its failure and the cursor it stopped at, and leaves the time of the last success |
| `Redelivery.TwiceIsOnce` | crates/stumble-core/src/pod_announcement.rs:467-616 | Delivering a batch of one key a second time changes nothing |
| `Redelivery.RedeliveryChangesNothing` | crates/stumble-core/src/pod_announcement.rs:467-616 | Applying a page again leaves both maps exactly as they were, records included |
| `Endpoints.AddBootstrapEndpoint` | crates/stumble-core/src/bootstrap/client.rs:114-155 | Adds under a fresh id with a unique URL in last place, or fails and changes nothing |
| `Endpoints.AddedExactly` | crates/stumble-core/src/bootstrap/client.rs:114-155 | An endpoint is added exactly when it has a name and a usable URL that no other has; from then on its URL is accepted as a source next to all those that were |
| `Endpoints.EnsureDefaultBootstrapEndpoint` | crates/stumble-core/src/bootstrap/client.rs:50-77 | An empty list gets the sponsored endpoint, any other list is left alone |
| `Endpoints.DefaultIsAccepted` | crates/stumble-core/src/bootstrap/client.rs:50-77 | After start-up an empty list accepts exactly the sponsored URL, any other list what it did before |
| `Endpoints.SetBootstrapEndpointEnabled` | crates/stumble-core/src/bootstrap/client.rs:165-176 | Changes the flag of one endpoint only |
| `Endpoints.RemoveBootstrapEndpoint` | crates/stumble-core/src/bootstrap/client.rs:187-197 | Removes one endpoint with its progress and keeps every announcement |
| `Endpoints.EditsKeepUniqueUrls` | crates/stumble-core/src/bootstrap/client.rs:114-197 | Every edit keeps base URLs unique, and a new endpoint comes last |
| `Endpoints.UrlsStayUnique` | crates/stumble-core/src/bootstrap/client.rs:50-197 | Base URLs are unique after any sequence of edits |
| `Endpoints.RemovalDeactivatesExactly` | crates/stumble-core/src/pod_announcement.rs:93-155 | Removing an endpoint deactivates exactly the announcements with no other active source |
| `Endpoints.RemovalDeactivatesByUrl` | crates/stumble-core/src/pod_announcement.rs:93-155 | After any edits, removing an endpoint deactivates exactly the announcements that recorded its URL while enabled, recorded no other URL still retained, and have no other active source |
| `Endpoints.SharedUrlStandsIn` | crates/stumble-core/src/pod_announcement.rs:93-98 | Without unique URLs that fails: two enabled endpoints of one URL stand in for each other |
| `Endpoints.DisablingEqualsRemoving` | crates/stumble-core/src/pod_announcement.rs:93-98 | Disabling an endpoint and removing it have the same effect on every announcement |
| `Endpoints.ActiveExactly` | crates/stumble-core/src/pod_announcement.rs:122-155 | After any deliveries, the kept announcement is active if and only if no delivery of it under its lease named a source, or some such delivery named a source that is active now |
| `Endpoints.LocalStopsCountingAfterRemote` | crates/stumble-core/src/pod_announcement.rs:127-136 | The smallest instance: a local record is always active until a Bootstrap delivery is merged, and then follows that source |
| `FeedMixes.NewMix` | crates/stumble-core/src/domain/feed.rs:381-405 | A mix is accepted exactly when its percentages total at most 100 and both caps are positive |
| `FeedMixes.SelectionState.PushCandidate` | crates/stumble-core/src/feed_mix.rs:124-136 | Counts every listed Pod and the source, and appends the item |
| `FeedMixes.PushKeepsBalanced` | crates/stumble-core/src/feed_mix.rs:96-136 | Counters stay equal to the listings and sources of the selected items, and no cap is exceeded |
| `FeedMixes.CanSelectExactly` | crates/stumble-core/src/feed_mix.rs:111-122 | A candidate may be taken exactly when it has a Pod, its source has fewer selected items than the cap, and each of its Pods fewer listings than the cap |
| `FeedMixes.BlockedStays` | crates/stumble-core/src/feed_mix.rs:111-122 | A candidate that is blocked stays blocked as the selection grows |
| `FeedMixes.FirstFitConserves` | crates/stumble-core/src/feed_mix.rs:175-192 | Selected and remaining candidates together are what they were |
| `FeedMixes.FirstFitEffect` | crates/stumble-core/src/feed_mix.rs:175-192 | A pass keeps the caps, and ends at its limit or with everything left held back by what is selected |
| `FeedMixes.FirstFitOneMore` | crates/stumble-core/src/feed_mix.rs:175-192 | A candidate is taken exactly when room is left and the selection made from the candidates before it allows it |
| `FeedMixes.SelectCandidates` | crates/stumble-core/src/feed_mix.rs:175-192 | The index-and-remove loop over the vector refines the recursive first fit |
| `FeedMixes.SelectPriorityCandidates` | crates/stumble-core/src/feed_mix.rs:138-173 | The loop over priority Pods refines the recursive priority pass |
| `FeedMixes.PriorityPassEffect` | crates/stumble-core/src/feed_mix.rs:138-173 | After the pass its limit is reached, or every priority Pod is represented or has no candidate the caps allow |
| `FeedComposer.SortedEffect` | crates/stumble-core/src/feed_mix.rs:26-35 | Sorting permutes the candidates, by score, then newest, then URL, equal ones in the order they came in |
| `StableSort.SortedIsStable` | crates/stumble-core/src/feed_mix.rs:90-90 | Sorting keeps candidates of equal rank in the order they came in |
| `KeyOrder.TextLessExactly` | crates/stumble-core/src/feed_mix.rs:34-34 | One text precedes another exactly when it is a proper prefix or smaller at the first difference |
| `FeedComposer.OrderedIsRanked` | crates/stumble-core/src/feed_mix.rs:26-35 | In rank order no item has a lower score than a later one, at equal scores none is older, and at equal times none has a later URL |
| `FeedComposer.PriorityLimitExactly` | crates/stumble-core/src/feed_mix.rs:71-80 | The priority limit is the rounded-down subscribed share of the batch, but one item when that is none and the batch has room |
| `FeedComposer.ComposeFeedCandidates` | crates/stumble-core/src/feed_mix.rs:56-94 | The composer on vectors and counters equals the five specified passes |
| `FeedComposer.CapsHold` | crates/stumble-core/src/feed_mix.rs:111-136 | No Pod and no source exceeds its cap in the batch |
| `FeedComposer.NothingLost` | crates/stumble-core/src/feed_mix.rs:56-94 | Selected and unselected items together are exactly the candidates, up to the added reason |
| `FeedComposer.Maximal` | crates/stumble-core/src/feed_mix.rs:56-94 | The batch is full, or every unselected candidate has no Pod, or its source or one of its Pods is listed in the batch as often as the cap allows |
| `FeedComposer.PriorityIsRepresented` | crates/stumble-core/src/feed_mix.rs:138-173 | In the final batch every priority Pod is represented, or the batch holds back all its unselected subscribed candidates, or the priority limit was used up |
| `FeedPriorities.PrioritiesInOrder` | crates/stumble-core/src/feed_mix.rs:138-173 | The batch begins with the priority items, each a candidate with the reason added that represents a Pod no earlier item does; below some Pod all priority Pods are represented or held back, and from it on they miss out only once the limit is used up |
| `FeedPriorities.OthersAreUnchanged` | crates/stumble-core/src/feed_mix.rs:81-92 | All other items of the batch are candidates exactly as they were offered |
| `FeedComposer.BatchLayout` | crates/stumble-core/src/feed_mix.rs:71-92 | The batch is subscribed items, then exploration, then old gems, each within its quota, then backfill by score, then newest, then URL |
| `FeedComposer.ShortOnlyWhenBlocked` | crates/stumble-core/src/feed_mix.rs:81-92 | Each kind falls short of its target only when the final batch holds back everything left of that kind |
| `FeedComposer.TargetsFit` | crates/stumble-core/src/feed_mix.rs:71-76 | The three rounded-down targets never exceed the batch, nor fill it without a positive subscribed share |
| `FeedComposer.LengthBound` | crates/stumble-core/src/feed_mix.rs:56-94 | At most size + 1 items, and at most size when the subscribed share is positive or the other quotas do not fill the batch |
| `FeedComposer.OneTooMany` | crates/stumble-core/src/feed_mix.rs:77-80 | Concrete candidates that yield size + 1 items whenever the other quotas fill the batch |
| `FeedComposer.SixtyFortyOverfills` | crates/stumble-core/src/feed_mix.rs:71-92 | Under every mix of 60 and 40 percent without a subscribed share, a request of ten, twenty, and so on can yield one item more |
| `FeedComposer.TooLongExactly` | crates/stumble-core/src/feed_mix.rs:71-92 | A batch can come out too long if and only if the exploration and old-gem targets already fill it |
| `InterestSeeds.SeedStore.RecordInterestSeed` | crates/stumble-core/src/interest_seeds.rs:6-51 | A learning submission creates a seed or adds the evidence it lacks, in signal order |
| `InterestSeeds.SeedStore.RetractInterestSeed` | crates/stumble-core/src/agent_tools/feed/preferences.rs:218-250 | Retracts one seed of the same tenant, once |
| `InterestSeeds.SeedStore.ResetInterestSeedEvidence` | crates/stumble-core/src/interest_seeds.rs:284-304 | The loop over all seeds equals the specified reset, whatever the visiting order |
| `InterestSeeds.RecordSupports` | crates/stumble-core/src/interest_seeds.rs:6-51 | Recording adds at most the recorded seed to the support of a signal, and nothing to a retracted one |
| `InterestSeeds.RecordTwiceIsOnce` | crates/stumble-core/src/interest_seeds.rs:28-38 | Recording a submission again changes nothing |
| `InterestSeeds.ResetSupports` | crates/stumble-core/src/interest_seeds.rs:284-304 | A reset empties exactly the named support of that User and tenant |
| `InterestSeeds.RetractSupports` | crates/stumble-core/src/agent_tools/feed/preferences.rs:218-250 | A retraction ends exactly the support of that seed |
| `InterestSeeds.ResetRetractsExactly` | crates/stumble-core/src/interest_seeds.rs:294-303 | Resetting one signal retracts a seed exactly when all its evidence is for that signal, so also when it has none |
| `InterestSeeds.UnrelatedResetRetracts` | crates/stumble-core/src/interest_seeds.rs:294-303 | Every seed recorded without evidence is retracted by the next reset of any one signal |
| `InterestSeeds.RetractionIsForever` | crates/stumble-core/src/interest_seeds.rs:28-51 | Over any run seeds stay, keep their tenant, and stay retracted since the same moment |
| `InterestSeeds.RetractedNeverSupports` | crates/stumble-core/src/interest_seeds.rs:246-248 | A retracted seed never supports anything again, whatever is submitted |
| `InterestSeeds.SignalsAreHistory` | crates/stumble-core/src/interest_seeds.rs:6-51 | After any run a seed carries a signal exactly when it was submitted with it and not reset since |
| `TasteAggregates.CountSeeds` | crates/stumble-core/src/interest_seeds.rs:245-263 | The nested loops count each supporting seed once per signal, whatever the visiting order |
| `TasteAggregates.TasteSignalAggregates` | crates/stumble-core/src/interest_seeds.rs:240-282 | Every aggregate holds the number of unretracted seeds, of supporting and opposing feedback and of events per kind, cut off at 32 bits; there is one exactly for the signals with evidence |
| `TasteAggregates.KindsAddUp` | crates/stumble-core/src/interest_seeds.rs:240-282 | Below saturation the counts by kind add up to supporting and opposing evidence |
| `TasteAggregates.WeightFollowsMajority` | crates/stumble-core/src/interest_seeds.rs:216-225 | Twice the weight is supporting minus opposing evidence, cut off at six either way, and zero below two pieces of evidence or when blocked |
| `TasteAggregates.WeightIsBounded` | crates/stumble-core/src/interest_seeds.rs:216-225 | Every weight lies between -3 and 3, whatever the counters hold |
| `TasteAggregates.ResetForgetsExactly` | crates/stumble-core/src/agent_tools/feed/preferences.rs:335-349 | A reset removes every trace of what it names from the aggregates and leaves every other count |
| `TasteAggregates.OneCandidateNeverWeighs` | crates/stumble-core/src/interest_seeds.rs:216-225 | Submitting one candidate however often gives no signal any weight without feedback |
| `CandidateMerge.FromSubmissions` | crates/stumble-core/src/domain/candidates.rs:249-287 | The nested loops over the sorted submissions equal the specified merge |
| `CandidateMerge.MergeIgnoresOrder` | crates/stumble-core/src/domain/candidates.rs:249-254 | With distinct ids the merged reference does not depend on the order of the submissions |
| `CandidateMerge.FactsAreNewest` | crates/stumble-core/src/domain/candidates.rs:257-274 | Title, author, date, excerpt and summary each come from a submission that states one, and no other that does was created later, or at the same time with a greater id |
| `CandidateMerge.ListsAreUnions` | crates/stumble-core/src/domain/candidates.rs:275-284 | Tags and media are exactly those of all submissions, the latest first; location, type and provenance are those of the submission created last, the greatest id deciding |
| `CandidateMerge.NewerOnlyAdds` | crates/stumble-core/src/domain/candidates.rs:249-287 | A submission created after all others, or at the same time with a greater id, overrides the facts it states, keeps the others, and adds to the lists |
| `CandidateMerge.SparseErasesNothing` | crates/stumble-core/src/domain/candidates.rs:249-287 | A newer submission without facts changes only location, type and provenance; lists lose at most repetitions |

## Left out

- HTTP handlers and clients, the command line, MCP, persistence, search, and the tenant and
  display fields of store records.
- Cryptography, canonical JSON, URL parsing, endpoint policy and the probes: their verdicts are
  inputs of the model.
- Issuing and refreshing the node's own announcements: they end in the retention modelled here.
- Saturation of 64-bit sequence numbers and of machine-size counters: coverage is stated for logs
  of fewer than 2^64 rows. Saturation of the 32-bit taste counters is modelled.
- BootstrapLimits.AdmissionsAreLimited: assumes a clock that does not run backwards, because the
  limits can be exceeded otherwise; `BackwardClock.LimitHoldsExactly` says for any clock when they
  hold, and `BackwardClock.OverfilledExactly` which submission exceeds one.
- PeerAds.PeerAdmissionsAreLimited: assumes the same of the clock, for the same reason;
  `PeerAds.PeerOverfilledExactly` says for any clock which submission exceeds a limit.
- PeerStreams.ServingIsComplete: assumes a reading that is not behind a switching on, because a lease
  that was over then would become active again; `PeerStreams.SwitchOnServesExactly` is the exact
  condition. Retention, convergence and log replay hold for any clock.
- ClientAgreement.ClientAgrees: speaks of keys the Bootstrap node knows from submissions, because
  what it retains from elsewhere is not logged.
- ProvenanceHistory.ProvenanceMatchesHistory: assumes that an id names one announcement among the
  verified ones, which is what the source takes equal ids to mean when it merges sources. Forged or
  altered copies may reuse it.
- Convergence.Converges: gives the same announcement when no two different ones share announcement
  time, version and id, and one of the same rank otherwise.
- Iteration order of hash maps: the order in which switching on a peer service projects known
  announcements is fixed to key order; the loops over seeds and advertisements visit them in any
  order.
- The loop over several configured endpoints: a run is a sequence of passes over one endpoint.
- The Discovery Peer client that shares the page driver, and the set of sources a known
  advertisement was learned from.
- Other capabilities than serving announcements: the source has no other, so the capability gate of
  an advertisement is modelled but never fires.
- The storage of peer-admission timestamps inside the Bootstrap runtime: the model keeps them in a
  record of their own.
- Feed scores: a score is a number in a total order, which is what the comparator uses of it.
- Extraction of taste signals from a submission: the set of distinct signals is an input. The
  weight is a real number; every value it takes is a multiple of one half.
- Ranking formulas, harness grants, proposals and personal discovery planning.
