# Fidelity: a verified model

Fidelity is a runtime self-protection library. One process holds one runtime; the runtime scans its environment,
retains what it found, and latches permanent denials that a host checks before each protected operation. This project
models its hardest parts in Dafny and proves what its comments and its documentation promise of them:

- **The process-wide protocol** (`Protocol`, `ProtocolInvariant`, `ProtocolSteps`, `ProtocolTheorems`, `ProtocolRecord`,
  `ProtocolHistory`, `ProtocolQueue`, `ProtocolCalls`, `ProtocolDeny`, `ProtocolDispatch`, `ProtocolPanics`,
  `ProtocolScans`, `ProtocolProgress`, `ProtocolLeak`, `ProcessWords`, `Facade`). Concurrent starts, the worker of
  each runtime, `deny`, `report_ui_abuse`, `snapshot`, `ensure_allowed` and the coverage wait, interleaved one load,
  store, lock or unlock at a time. The scheduler, scan outcomes, panics of detectors, callbacks and latch hooks, failures and timeouts are free choices. The theorems hold
  in every state of every run.
- **The retained state and the report queue** (`Engine`, `Pending`, `Detect`, `CategorySets`).
- **The two start-time snapshots** (`Sorting`, `Snapshots`, `Drift`, `Targets`): linear merges against quadratic
  rules, with the exact condition under which the two agree, up to the verdicts of the two detectors.
- **SHA-256 and guarded constants** (`Sha256`, `Sha256Bits`, `Sha256Constants`, `Sha256Vectors`, `Text`, `Cipher`,
  `Guarded`, `Extract`): the in-place hash against FIPS 180-4, whose constants are shown to be the roots of the primes;
  the streams and the key derivation over an arbitrary 32-byte block function, of which
  `Cipher.SHA_256` is one; the round trip from the build to a read; and the extractor's indexed search.
- **The binary readers** (`Bytes`, `ApkSigning`, `ApkZip`, `ApkArchive`, `Pe`, `Macho`, `MachoDispatch`, `MachoImage`,
  `Smbios`, `Elf`): each loop refines a specification, an encoder is inverted, and bounds hold on arbitrary bytes.

## How the model stands to the code

- Steps are sequentially consistent. The mutex of the report queue is held for one step of the model. Waiting for the
  readiness report and the coverage wait end at any time that the code lets them end.
- `KeepsHandles` is the one hypothesis on the host: a failed start lets no handle escape through its callback.
  `ProtocolLeak.LeakedHandleDirtiesAFreeSlot` is a run without it.
- Bytes are integers from 0 to 255, `usize` is 64 bits wide, and an offset that would pass the end of its buffer reads
  as nothing, which is also what an overflowing offset does in the code. Wrap-around, saturation and checked 64-bit
  sums are written out where the code has them.
- Text is a sequence of Unicode characters with its UTF-8 bytes, so byte lengths and character tests both follow the code.
- A platform call is an argument: what the code can see of it is any value of its result type.
- `Cipher.Step` demands bytes that are not below the first letter, as the unsigned subtraction does; every value that
  the macro emits meets this. `Extract.Recover` demands text in the alphabet, as `encrypt` does.

## Where code and comments part

The model follows the code, and each of these is a proved statement.

- `block_length` measures blocks that `signer_certificate` then refuses: the first bounds the stated size, the second
  the whole block, which is eight bytes longer (`ApkSigning.BoundsDisagree`). `read_at` has the bound of the second, so
  the probe answers that such an archive is unreadable (`ApkSigning.GapHidesACertificate`,
  `ApkArchive.GapArchiveIsUnreadable`).
- `signer_certificate` never looks at the stated size or at the magic, and its last entry may cover the footer
  (`ApkSigning.SignerIff`, `ApkSigning.FooterOverlapAnswers`); `block_length` does look at the magic first.
- `derive_key` takes a part beyond 64 bytes as its digest, so that part and the digest derive one key
  (`Cipher.LongIdentityCollides`).
- Both loops of the extractor stop one short: the index leaves out the last eight bytes of a file and the salts leave
  out the last sixteen, so a value or a salt that ends a file is missed (`Extract.RecoveryMissesExactly`,
  `Extract.EightBytesAtTheEndAreMissed`, `Extract.SaltAtTheEndIsMissed`).
- The Windows reader asks for `MAX_TARGETS` slots and not for one more, so its snapshot never states truncation
  (`Targets.WindowsNeverStatesTruncation`, `Targets.WindowsMissesTheExtraSlot`).
- The protection merge and the target merge look at the first entry with a start or a slot only, so duplicates hide a change
  (`Snapshots.DuplicateStartHidesAChange`, `Snapshots.DuplicateSlotHidesAChange`); the verdicts of both detectors
  follow the rules exactly without such duplicates (`Drift.RegionVerdictFollowsRuleIff`,
  `Drift.TargetVerdictFollowsRuleIff`).
- An SMBIOS structure without strings answers empty text to the number one (`Smbios.NumberOneWithoutStrings`).

## Model

| member | source | states |
|---|---|---|
| `ProtocolSteps.StepKeeps` | crates/fidelity/src/lib.rs:172-248 | Every enabled step of the interleaved process (concurrent starts, workers, host calls, panics, timeouts) keeps the invariant, as long as no failed start has leaked a handle |
| `ProtocolTheorems.RunInv` | crates/fidelity/src/builder.rs:20-43 | The invariant holds in every state of every run from the initial words |
| `ProtocolTheorems.LatchesNeverDisagree` | crates/fidelity-engine/src/worker.rs:74-113 | The engine latch is inside the process word at every step of every run, hook panics included, and equals it whenever the state lock is free and no hook of this runtime panicked |
| `ProtocolTheorems.SlotHasOneOwner` | crates/fidelity/src/lib.rs:172-219 | At most one start or runtime owns the slot, the slot word says whether one does, and a free slot leaves every process word clean |
| `ProtocolTheorems.CommitIsForever` | crates/fidelity/src/builder.rs:216-228 | After a commit the slot stays taken by that runtime and the latch word only grows, for the rest of every run |
| `ProtocolTheorems.RunEvolves` | crates/fidelity/src/builder.rs:230-332 | Along a run no start goes back to an earlier stage or changes its policy or its opt-in, and what is committed, ready or completely scanned stays so |
| `ProtocolTheorems.LiveRunGrows` | crates/fidelity/src/lib.rs:186-190 | While one runtime stays alive, the word read earlier is contained in every word read later |
| `ProtocolTheorems.ConfigurationIsKept` | crates/fidelity/src/builder.rs:230-332 | From its creation on a start has the policy and the opt-in that it was created with, and while it lives the word of the startup window is that opt-in |
| `ProtocolTheorems.WordShrinksOnlyInAbandon` | crates/fidelity/src/lib.rs:192-202 | The only step that takes a category out of the word is the clear of an abandoned start |
| `ProtocolTheorems.LosingClaimChangesNoWord` | crates/fidelity/src/builder.rs:25-30 | A claim that finds the slot taken changes no process word |
| `ProtocolTheorems.LoserNeverActs` | crates/fidelity/src/builder.rs:216-228 | A start that lost its claim takes no further step in any continuation of the run |
| `ProtocolTheorems.LaterSnapshotExplainsTheCheck` | crates/fidelity/src/handle.rs:228-238 | A word value read by one call is contained in what every later snapshot of that runtime copies, without a hook panic |
| `ProtocolTheorems.LaterCheckDeniesTheSnapshot` | crates/fidelity/src/handle.rs:88-97 | The latches that a snapshot copied are contained in every word that a later check reads |
| `ProtocolTheorems.FullScanFlagIsForGood` | crates/fidelity-engine/src/worker.rs:186-233 | Once the flag is set it stays set, by a worker whose start reported ready; the scan behind it covers the inventory, its detectors have left NotRun, and its denials are in the word, at every later step |
| `ProtocolTheorems.AllowedCheckSawCoverage` | crates/fidelity/src/handle.rs:88-97 | A check that returns Ok on an opted-in runtime read the flag set with its last load; a check whose first load already saw the flag returned Ok only because that scan denied nothing |
| `ProtocolTheorems.WaitReturnsAfterTheFlag` | crates/fidelity/src/lib.rs:225-248 | A wait that reports completion returns only after the flag is set |
| `ProtocolLeak.LeakedHandleDirtiesAFreeSlot` | crates/fidelity/src/builder.rs:334-343 | The hypothesis is needed: a run in which a callback leaks its handle and the start then fails, and whose last state has a free slot and a category in the word |
| `ProtocolHistory.EngineIsReplay` | crates/fidelity-engine/src/worker.rs:74-113 | At every index of every run, the engine of a live runtime without a hook panic is the replay of the events that reached it, but for one denial on its way from the word into the engine; at a free lock it is exactly the replay |
| `ProtocolHistory.WordIsJustified` | crates/fidelity/src/lib.rs:186-190 | At a free lock the process word holds exactly the categories that a host denial or a qualifying finding of that runtime justifies |
| `ProtocolHistory.SlotsAreSummaries` | crates/fidelity-engine/src/state.rs:27-43 | At every index, even after a hook panic, each slot is the summary of the outcomes that reached its detector, and no category is latched without a justification |
| `ProtocolDeny.DenialIsForGood` | crates/fidelity/src/handle.rs:114-128 | After a `deny(c)` call returned, at every later index c is in both latched sets of its runtime, and in the process word as long as that runtime is not abandoned, which a committed one never is |
| `ProtocolDeny.DeniedCheck` | crates/fidelity/src/handle.rs:88-97 | Every check on that runtime that begins after the `deny(c)` call returned, and returns, answers `Denied` with c among its categories |
| `ProtocolDeny.HostDenialIsACall` | crates/fidelity/src/handle.rs:114-128 | Every host denial of c that reaches a runtime is the step of a `deny(c)` call on it: no start, worker or other call denies for the host |
| `ProtocolDeny.RunKeepsCall` | crates/fidelity/src/handle.rs:114-184 | At every index of every run each call still has its one instruction to run, is on its way from it, or is done with what it owes in the engine |
| `ProtocolDeny.ReportIsReceived` | crates/fidelity/src/handle.rs:171-180 | After a report returned, the history of the host detector holds a finding of that strength and time in the category UiAbuse, and UiAbuse is latched, and in the word of a live runtime, when the policy denies it |
| `ProtocolDeny.ReportIsQueued` | crates/fidelity/src/handle.rs:171-180 | A report adds to the queue its own finding with the action of UiAbuse when it reaches the threshold, and nothing otherwise |
| `ProtocolDispatch.DispatchesInOrder` | crates/fidelity-engine/src/worker.rs:258-287 | In every run each dispatch step takes the next pair of its round, which is what `record` qualified in the recording that began it or what the queue held when it was taken: a callback pair puts the worker in the callback with that finding, another invokes nothing, and a crash pair is never passed |
| `ProtocolDispatch.RoundIsOver` | crates/fidelity-engine/src/worker.rs:204-220 | A worker reports readiness, takes the queue, begins a scan or marks a full scan only when every pair of the round before is taken |
| `ProtocolDispatch.CallbackIsExpected` | crates/fidelity-engine/src/worker.rs:294-298 | While a callback runs, its finding is that of the pair taken last |
| `ProtocolPanics.CallbackPanicsAreRecorded` | crates/fidelity-engine/src/worker.rs:294-317 | Every callback panic becomes one health event of the finding that was dispatched, in order, and before the worker dispatches, reports readiness, takes the queue, scans or marks |
| `ProtocolScans.RecordsInOrder` | crates/fidelity-engine/src/worker.rs:74-113 | Each outcome that a start or a worker delivers to the retained state is the next one of the scan that began its recording |
| `ProtocolScans.RecordingIsOver` | crates/fidelity-engine/src/worker.rs:258-261 | The whole scan has been delivered before the worker is spawned, dispatches, reports readiness, takes the queue, scans again or marks |
| `ProtocolQueue.QueueIsAPrefix` | crates/fidelity-engine/src/pending.rs:66-91 | At every index of every run, the queue of a runtime is the first sixteen of what its calls added since its worker last took it |
| `ProtocolQueue.DispatchedOnce` | crates/fidelity-engine/src/worker.rs:214-287 | At every index of every run, what the worker dispatched of the queue is a prefix of the kept reports of each round, so no report goes out twice; unless the worker died the rest is what it has still to dispatch |
| `ProtocolQueue.NothingIsLost` | crates/fidelity-engine/src/pending.rs:66-91 | While no round of the run passes sixteen, everything that was added is dispatched, about to be, or still queued, in order |
| `ProtocolCalls.DenialIsExplained` | crates/fidelity/src/handle.rs:88-97 | What a check returned as denied is contained in what every snapshot call returns that begins after it, without a hook panic |
| `ProtocolCalls.SnapshotIsDenied` | crates/fidelity/src/handle.rs:228-238 | After a snapshot returned a latch, every check that begins later and returns, returns a denial that contains it, hook panics included, and never an Ok or a coverage gap |
| `ProtocolCalls.CheckAnswers` | crates/fidelity/src/handle.rs:88-97 | At the step it returns, a denial lists exactly the word, which is not empty; a coverage gap is answered only under the opt-in and with the flag not set; and an Ok under the opt-in read the flag |
| `ProtocolCalls.WaitAnswers` | crates/fidelity/src/lib.rs:235-248 | A wait that returns with the flag set reports completion, and one that does not report it timed out with the scan not marked |
| `ProtocolCalls.CompleteAfterTheFlag` | crates/fidelity/src/handle.rs:191-210 | Once the flag is set, no wait that returns later times out and no check that returns later reports a coverage gap |
| `ProtocolProgress.OneLockEach` | crates/fidelity-engine/src/worker.rs:294-317 | In every reachable state no start, worker or call holds both the state lock and the wait mutex, and a worker in a callback holds neither |
| `ProtocolProgress.HolderReleases` | crates/fidelity-engine/src/worker.rs:74-113 | From any reachable state the holder of the state lock gives it back by its own steps alone, within a bound that its section states, and leaves every other section of the runtime as it was |
| `ProtocolProgress.WaitingSectionGetsTheLock` | crates/fidelity/src/handle.rs:114-128 | In every reachable state a section that waits for the state lock gets its turn after steps of the holder alone |
| `ProtocolProgress.WaitMutexComesFree` | crates/fidelity/src/lib.rs:203-248 | In every reachable state the wait mutex comes free in at most four steps of its holder |
| `ProtocolRecord.SectionIsRecord` | crates/fidelity-engine/src/worker.rs:74-113 | The single steps of a critical section, run without a hook panic, leave exactly the state that `record` leaves and collect exactly what it returns, and word and engine agree again |
| `ProcessWords.Statics.Latch` | crates/fidelity/src/lib.rs:186-190 | Oring the bits of a one-element set into the word adds exactly that category to the set the word denotes, and makes no stray bit |
| `Facade.ClaimSlot` | crates/fidelity/src/lib.rs:172-176 | The compare-exchange leaves the words of the claim step and succeeds exactly when that step claims; a failed one changes nothing |
| `Facade.Latch` | crates/fidelity/src/lib.rs:186-190 | The hook leaves the words of the hook step of the critical section that calls it |
| `Facade.AbandonStart` | crates/fidelity/src/lib.rs:192-219 | The words after each store, lock and unlock are the words after each of the seven clear steps: they end clean, the wait mutex is held from the third step to the sixth, and the slot stays taken until the last store |
| `Facade.MarkFullScanComplete` | crates/fidelity/src/lib.rs:225-233 | The words after each store, lock and unlock are the words after each of the four mark steps, and the wait mutex is held from the first to the third |
| `Facade.EnsureAllowed` | crates/fidelity/src/handle.rs:88-97 | The three loads, on the bits of the word, answer what the call answers that runs them: the latched categories first, then the startup window |
| `Facade.WaitForFullScan` | crates/fidelity/src/lib.rs:235-248 | A wait that is woken some times before its timeout takes one round for each of them while the flag is clear, and answers what the call answers that takes exactly those steps |
| `Engine.SlotIsTheSummaryOfItsHistory` | crates/fidelity-engine/src/state.rs:27-43 | After any run of recordings and latches each slot is the summary of its own history: last outcome, earliest finding of maximal strength, first and last finding times, count saturating at the 32-bit maximum |
| `Engine.RecordAllKeepsDetectors` | crates/fidelity-engine/src/state.rs:92-102 | Recording never changes the number, the order or the detectors of the slots |
| `Engine.LatchedExactly` | crates/fidelity-engine/src/worker.rs:294-317 | A category is latched exactly when the host denied it or a recorded finding of a known detector qualified for a denial; health findings of callback panics never latch |
| `Engine.HostLatchedExactly` | crates/fidelity-engine/src/state.rs:105-117 | A category reads as denied by the host exactly when the host denied it |
| `Engine.QualifiedExactly` | crates/fidelity-engine/src/policy.rs:85-95 | What `record` returns is exactly the findings of known detectors that reach their threshold, with the action of their category, and a health finding never carries Crash |
| `Engine.ReachesIff` | crates/fidelity-types/src/strength.rs:56-58 | A strength reaches a threshold exactly when they are equal, it is High, or the threshold is Low |
| `Engine.RaisingKeepsTheAction` | crates/fidelity-engine/src/policy.rs:85-95 | A finding that differs only in a stronger strength selects the action that the weaker one selected |
| `Engine.StrongestMeans` | crates/fidelity-engine/src/state.rs:27-43 | The strongest finding of a slot is High exactly when its history holds a High one, and Low exactly when all are Low |
| `Engine.HealthRecordIsWeak` | crates/fidelity-engine/src/worker.rs:304-315 | The health record of a callback panic never displaces a strongest finding, never crashes the process, and selects nothing above the lowest threshold |
| `Engine.State.Record` | crates/fidelity-engine/src/state.rs:92-102 | The in-place recording refines the specification and returns the finding of a known detector only |
| `Engine.Record` | crates/fidelity-engine/src/worker.rs:74-113 | The loop leaves the fold of its outcomes and returns the qualifying findings in order; a word that agreed with the engine agrees again, and one that contained it contains it still |
| `Engine.DenyByHost` | crates/fidelity/src/handle.rs:114-128 | A host denial goes to the word and then to both latched sets, and a word that agreed with the engine agrees again |
| `Pending.Reports.Push` | crates/fidelity-engine/src/pending.rs:42-49 | A report joins the queue exactly when there is room |
| `Pending.Reports.Take` | crates/fidelity-engine/src/pending.rs:51-60 | The whole queue comes out in order and the queue is empty |
| `Pending.Reports.Add` | crates/fidelity-engine/src/pending.rs:77-86 | The queue holds the first sixteen of what it held and what was added |
| `Pending.QueueKeepsThePrefixOfEachRound` | crates/fidelity-engine/src/pending.rs:66-91 | Over any sequence of adds and takes the queue holds the first sixteen reports since the last take, and the takes return the first sixteen of each round |
| `Pending.NothingIsLostWithoutOverflow` | crates/fidelity-engine/src/worker.rs:266-287 | When at most sixteen reports arrive between takes, taken and queued reports together are exactly the added ones, in order |
| `Pending.OverflowLoses` | crates/fidelity-engine/src/pending.rs:42-49 | When some round holds more than sixteen reports, fewer come out than went in |
| `Detect.ScanCoverage` | crates/fidelity-detect/src/lib.rs:86-192 | However each detector call ends, a full scan reports on every inventory entry but the host-fed one, and a cheap scan misses exactly the local agent besides |
| `Detect.PanicsAreWeak` | crates/fidelity-detect/src/lib.rs:86-192 | A detector that panics is reported at its place in the scan as a Low finding about its own health, in its own category |
| `CategorySets.MaskIsShift` | crates/fidelity-types/src/category.rs:55-67 | The mask of a category is one shifted by its declaration position |
| `CategorySets.InsertAdds` | crates/fidelity-types/src/category.rs:99-104 | Setting the bit of a category adds exactly that category to the set the bits denote, makes no stray bit, and changes the bits exactly when it was absent |
| `CategorySets.AbsInjective` | crates/fidelity-types/src/category.rs:134-149 | Words without stray bits are equal exactly when they denote the same set |
| `CategorySets.LenIsCardinalityIff` | crates/fidelity-types/src/category.rs:118-122 | The count of ones is the size of the set exactly when there are no stray bits |
| `CategorySets.EmptyIff` | crates/fidelity-types/src/category.rs:112-116 | Without stray bits the word is zero exactly when the set is empty |
| `CategorySets.MembersAreTheSet` | crates/fidelity-types/src/category.rs:126-128 | The members in iteration order are the set, each once, in declaration order |
| `CategorySets.CategorySet.Insert` | crates/fidelity-types/src/category.rs:99-104 | The insertion adds the category and reports whether it was absent |
| `CategorySets.CategorySet.Len` | crates/fidelity-types/src/category.rs:118-122 | The length is right exactly when there are no stray bits |
| `CategorySets.CategorySetIter.Next` | crates/fidelity-types/src/category.rs:171-180 | Each call takes the next member off the rest in declaration order, and ends only when none is left |
| `CategorySets.Collect` | crates/fidelity-types/src/category.rs:152-181 | Draining an iterator gives every member once, in declaration order |
| `Sorting.SortIgnoresOrder` | crates/fidelity-core/src/fact/baseline.rs:91-97 | Sorting by a total order depends on the multiset only |
| `Snapshots.NewRegionsIgnoresOrder` | crates/fidelity-core/src/fact/baseline.rs:91-97 | A region snapshot depends on the multiset of regions, is in address order, and is truncated exactly when there are more than it keeps |
| `Snapshots.NewTargetsIgnoresOrder` | crates/fidelity-core/src/fact/dispatch.rs:82-92 | The same of a target snapshot |
| `Snapshots.AddedSince` | crates/fidelity-core/src/fact/baseline.rs:121-141 | The two-cursor merge equals the quadratic rule "held by no earlier region" on all snapshots, overlaps and duplicates included |
| `Snapshots.NowWritableSince` | crates/fidelity-core/src/fact/baseline.rs:150-168 | The merge reports the writable regions whose first earlier namesake was not writable |
| `Snapshots.OpenedFirstIsSound` | crates/fidelity-core/src/fact/baseline.rs:150-168 | The merge never reports what the quadratic rule does not |
| `Snapshots.OpenedAgreesIff` | crates/fidelity-core/src/fact/baseline.rs:150-168 | Merge and rule agree on every later snapshot exactly when each closed earlier region comes first among those with its start |
| `Snapshots.DistinctStartsDecide` | crates/fidelity-core/src/fact/baseline.rs:150-168 | Distinct earlier starts meet that condition |
| `Snapshots.DuplicateStartHidesAChange` | crates/fidelity-core/src/fact/baseline.rs:150-168 | A concrete earlier snapshot with one start twice hides a change that the rule reports |
| `Snapshots.RedirectedSince` | crates/fidelity-core/src/fact/dispatch.rs:124-142 | The merge reports the targets whose first start namesake held another value |
| `Snapshots.RedirectedFirstIsSound` | crates/fidelity-core/src/fact/dispatch.rs:124-142 | The merge never reports what the quadratic rule does not |
| `Snapshots.RedirectedAgreesIff` | crates/fidelity-core/src/fact/dispatch.rs:124-142 | Merge and rule agree on every later table exactly when equal start slots hold equal values |
| `Snapshots.UnchangedTableIsQuiet` | crates/fidelity-core/src/fact/dispatch.rs:118-142 | With one value for each slot, an unchanged table reports nothing |
| `Snapshots.DuplicateSlotHidesAChange` | crates/fidelity-core/src/fact/dispatch.rs:124-142 | A concrete start table with one slot twice on which merge and rule differ |
| `Snapshots.ReportedBytesFit` | crates/fidelity-detect/src/integrity/baseline.rs:77-100 | Over disjoint regions both reported byte totals fit in 64 bits |
| `Drift.RuntimeBaseline` | crates/fidelity-detect/src/integrity/baseline.rs:45-114 | The detector computes the specified verdict, gaps and failed reads included |
| `Drift.RegionVerdictMeans` | crates/fidelity-detect/src/integrity/baseline.rs:63-114 | On all complete snapshots it reports added code exactly when a region starts where none was; opened code only, and under the condition below exactly, when otherwise a region is writable that was not |
| `Drift.RegionVerdictFollowsRuleIff` | crates/fidelity-detect/src/integrity/baseline.rs:63-114 | The verdict follows the quadratic rules on every later list exactly when, wherever a start was held, the first region with it speaks for every closed one |
| `Drift.RegionVerdictIgnoresOrder` | crates/fidelity-core/src/fact/baseline.rs:86-97 | The verdict does not depend on the order in which the platform lists regions |
| `Drift.CompareTargets` | crates/fidelity-detect/src/instrumentation/dispatch.rs:45-97 | The detector computes the specified verdict, unbound and truncated tables included |
| `Drift.TargetVerdictMeans` | crates/fidelity-detect/src/instrumentation/dispatch.rs:62-97 | On all complete snapshots of a bound table it reports only, and with one value for each start slot exactly, when some slot holds another value now |
| `Drift.TargetVerdictFollowsRuleIff` | crates/fidelity-detect/src/instrumentation/dispatch.rs:62-97 | The verdict follows the quadratic rule on every later table exactly when each start slot holds one value |
| `Drift.TargetVerdictIgnoresOrder` | crates/fidelity-core/src/fact/dispatch.rs:77-92 | The verdict does not depend on the order in which the platform lists targets |
| `Sha256.ComputeSha256` | crates/fidelity-cipher/src/sha256.rs:89-119 | The chunked, in-place digest equals the recursive definition of FIPS 180-4 (sections 5.1.1, 5.2.1 and 6.2.2) on every message |
| `Sha256.Compress` | crates/fidelity-cipher/src/sha256.rs:130-172 | One block turns the state into the next hash value of section 6.2.2 |
| `Sha256.FillSchedule` | crates/fidelity-cipher/src/sha256.rs:131-144 | The schedule array holds the message schedule of the block |
| `Sha256.Mix` | crates/fidelity-cipher/src/sha256.rs:146-167 | The sixty-four rounds over the eight working variables are the rounds of the standard |
| `Sha256.HashChunks` | crates/fidelity-cipher/src/sha256.rs:92-97 | The full blocks of the message are the first blocks of the padded message |
| `Sha256.HashTail` | crates/fidelity-cipher/src/sha256.rs:99-112 | One or two tail blocks complete the hash of the padded message |
| `Sha256.PadIsTailBlocks` | crates/fidelity-cipher/src/sha256.rs:99-112 | The padding of section 5.1.1 is the one-or-two-block tail that the code builds |
| `Sha256.PaddingIsLeast` | crates/fidelity-cipher/src/sha256.rs:99-112 | The padded message fills whole blocks with the fewest zeros that do |
| `Sha256.LengthIsExact` | crates/fidelity-cipher/src/sha256.rs:106-111 | For every length below 2^64 bits the last eight bytes denote the length exactly |
| `Sha256.OneMoreBlock` | crates/fidelity-cipher/src/sha256.rs:92-97 | The hash of no blocks is the initial value, and one more block compresses into the hash of the blocks before it |
| `Sha256Constants.FirstSixtyFourPrimes` | crates/fidelity-cipher/src/sha256.rs:7-73 | The table of primes is increasing and holds exactly the primes below 312, sixty-four of them |
| `Sha256Constants.RoundConstants` | crates/fidelity-cipher/src/sha256.rs:7-73 | Section 4.2.2 of FIPS 180-4: K[t] is the first thirty-two bits of the fractional part of the cube root of the t-th prime |
| `Sha256Constants.InitialHashValue` | crates/fidelity-cipher/src/sha256.rs:75-87 | Section 5.3.3 of FIPS 180-4: the initial hash value is the first thirty-two bits of the fractional parts of the square roots of the first eight primes |
| `Sha256Bits.Sigma0IsBits` | crates/fidelity-cipher/src/sha256.rs:146-160 | Each bit of the function is the exclusive or of its three numbered bits of the argument |
| `Sha256Bits.Sigma1IsBits` | crates/fidelity-cipher/src/sha256.rs:146-160 | The same of the second one |
| `Sha256Bits.Small0IsBits` | crates/fidelity-cipher/src/sha256.rs:136-144 | Each bit is the exclusive or of its two rotated bits and of the shifted one where there is one |
| `Sha256Bits.Small1IsBits` | crates/fidelity-cipher/src/sha256.rs:136-144 | The same of the second one |
| `Sha256Bits.ChIsBits` | crates/fidelity-cipher/src/sha256.rs:146-160 | Each bit is chosen by the first argument from the other two |
| `Sha256Bits.MajIsBits` | crates/fidelity-cipher/src/sha256.rs:146-160 | Each bit is that of the first two arguments where they agree, and that of the third elsewhere |
| `Sha256Vectors.AbcVector` | crates/fidelity-cipher/src/sha256.rs:194-200 | The digest of "abc" is the published one |
| `Text.Hex` | crates/fidelity-cipher/src/sha256.rs:245-256 | Two lowercase digits for each byte, high digit first |
| `Text.ParseSha256Hex` | crates/fidelity-types/src/identity.rs:372-388 | A text of another length, or with a character that is no digit, is refused with that reason; otherwise each byte is the number of its two digits |
| `Text.DenotesIff` | crates/fidelity-types/src/identity.rs:390-397 | A text denotes a digest exactly when its lowercase form is what `hex` writes for the digest |
| `Text.HexRoundTrip` | crates/fidelity-cipher/src/sha256.rs:245-256 | What `hex` writes parses to the same digest and to no other |
| `Text.HexSample` | crates/fidelity-cipher/src/sha256.rs:245-256 | The high digit of each byte comes first, and bytes stay in order |
| `Guarded.ParseAcceptsExactly` | crates/fidelity-cipher/src/binding.rs:124-148 | The usable stated values are exactly `none` and a known kind, a colon and non-empty material that the kind does not refuse |
| `Guarded.HexIsAccepted` | crates/fidelity-cipher/src/binding.rs:76-98 | For every 32-byte digest, its `hex` form is accepted as that same material under both digest kinds |
| `Guarded.TeamIsUsable` | crates/fidelity-cipher/src/binding.rs:76-84 | Apple material of letters and digits is accepted as it is |
| `Guarded.BlankIsRefused` | crates/fidelity-cipher/src/binding.rs:76-84 | Apple material with a blank, a line break or a null character anywhere is refused |
| `Guarded.OtherDigestIsRefused` | crates/fidelity-cipher/src/binding.rs:85-98 | A digest of another length, or with a character that is no lowercase digit, is refused under both digest kinds |
| `Guarded.ReadGuarded` | crates/fidelity/src/secret.rs:128-158 | The in-place decryption of a copy returns the specified value, printable for text whatever the identity |
| `Guarded.BoundBuildReadsBack` | crates/fidelity/src/builder.rs:420-451 | In a bound build the start succeeds exactly when the image reports non-empty material, and with the stated material every read returns the literal |
| `Guarded.UnboundBuildReadsBack` | crates/fidelity/src/builder.rs:420-451 | In an unbound build the start succeeds and every read returns the literal, whatever the image reports |
| `Guarded.CratesAgree` | crates/fidelity/build.rs:46-65 | The macro and the runtime crate take one stated value the same way |
| `Guarded.OtherIdentityReadsBackIff` | crates/fidelity/src/secret.rs:128-141 | Under another identity a text reads back exactly when both keys give every position the same amount |
| `Guarded.OtherIdentityReadsBytesBackIff` | crates/fidelity/src/secret.rs:143-158 | Under another identity a byte literal reads back exactly when both keys give every position the same byte |
| `Guarded.OtherIdentityIsToldApart` | crates/fidelity/src/secret.rs:128-158 | For every two different identities of up to 64 bytes there is a block function under which what a build emits for the one does not read back under the other |
| `Cipher.Step` | crates/fidelity-cipher/src/lib.rs:186-212 | The in-place pass, one block for sixteen characters and a saturating counter, moves every character by its own keystream amount |
| `Cipher.ByteStream` | crates/fidelity-cipher/src/lib.rs:162-176 | The in-place pass xors every byte with its own keystream byte |
| `Cipher.DecryptInverts` | crates/fidelity-cipher/src/lib.rs:133-146 | For every block function and key, decryption inverts encryption on every text of the alphabet, and the other way round |
| `Cipher.DecryptIsBijective` | crates/fidelity-cipher/src/lib.rs:140-146 | Decryption under any key is one-to-one on the texts of one length over the alphabet and reaches each of them |
| `Cipher.StreamIsItsOwnInverse` | crates/fidelity-cipher/src/lib.rs:150-176 | The byte stream undoes itself on all bytes |
| `Cipher.Encrypt` | crates/fidelity-cipher/src/lib.rs:133-138 | A text that leaves the alphabet is refused; any other is moved forward |
| `Cipher.ComputeSalt` | crates/fidelity-cipher/src/lib.rs:72-82 | The salt is the front of the digest of both parts, each behind its length |
| `Cipher.DeriveKey` | crates/fidelity-cipher/src/lib.rs:95-117 | The fixed 144-byte buffer always has room, and the key is the digest of both reduced parts, each behind its length |
| `Cipher.FramedInjective` | crates/fidelity-cipher/src/lib.rs:72-82 | No two lists of parts frame to the same bytes, however the lengths split |
| `Cipher.SaltInputIsInjective` | crates/fidelity-cipher/src/lib.rs:72-82 | The salt input determines seed and literal |
| `Cipher.KeyInputAgreesIff` | crates/fidelity-cipher/src/lib.rs:95-117 | Two key inputs agree exactly when both parts reduce to the same bytes |
| `Cipher.KeyInputIsInjective` | crates/fidelity-cipher/src/lib.rs:95-123 | For identities of up to 64 bytes the key input determines salt and identity |
| `Cipher.LongIdentityCollides` | crates/fidelity-cipher/src/lib.rs:103-108 | A longer identity derives the same key as its own digest, which is another identity |
| `Cipher.DerivationsDigestBothParts` | crates/fidelity-cipher/src/lib.rs:72-117 | Salt and key are the digests of both of their parts, each behind its eight-byte length |
| `Cipher.KeysAgreeIff` | crates/fidelity-cipher/src/lib.rs:95-117 | Under a block function that tells its inputs apart, two keys agree exactly when both reduced parts do |
| `Cipher.IdentitiesGetDifferentKeys` | crates/fidelity-cipher/src/lib.rs:102-116 | For every salt and every two identities of up to 64 bytes there is a block function under which their keys differ |
| `Cipher.LiteralsGetDifferentSalts` | crates/fidelity-cipher/src/lib.rs:72-82 | Under a block function whose first sixteen bytes tell the two inputs apart, two literals under one seed get different salts |
| `Cipher.CharacterMeans` | crates/fidelity-cipher/src/lib.rs:186-212 | A character moves around the 95 of the alphabet by its own two bytes, the low one first, of the digest of the key and the little-endian number of its block |
| `Cipher.ByteMeans` | crates/fidelity-cipher/src/lib.rs:162-176 | A byte is xored with its own byte of the digest of the key and the little-endian number of its block |
| `Cipher.XorByBit` | crates/fidelity-cipher/src/lib.rs:174-174 | A bit of the exclusive or is set exactly where the two bytes differ |
| `Extract.Keystream` | crates/fidelity-cipher/examples/extract.rs:107-115 | The decryption of sixty-four first letters gives what the key adds at each position |
| `Extract.ClearIsDecrypt` | crates/fidelity-cipher/examples/extract.rs:118-120 | The fast path over the keystream equals decryption at every position it covers |
| `Extract.BuildIndex` | crates/fidelity-cipher/examples/extract.rs:256-267 | The index holds, for every eight bytes, exactly the starts below the length less eight where they sit |
| `Extract.LookUp` | crates/fidelity-cipher/examples/extract.rs:287-300 | The index leads to a match exactly when one of eight bytes or more starts before the last eight |
| `Extract.Recover` | crates/fidelity-cipher/examples/extract.rs:253-304 | A value is recovered exactly when some salt offset below the length less sixteen gives a ciphertext with such a match |
| `Extract.LongerIsFullSearch` | crates/fidelity-cipher/examples/extract.rs:296-300 | For a ciphertext of more than eight bytes this is plain substring search |
| `Extract.EightBytesMissTheEnd` | crates/fidelity-cipher/examples/extract.rs:258-262 | For exactly eight bytes it misses only a match at the very end of the file |
| `Extract.EightBytesAtTheEndAreMissed` | crates/fidelity-cipher/examples/extract.rs:258-262 | Under a made-up constant block function, a file made of a salt and the eight-byte value emitted with it: the salt is tried, the value is there, and nothing is recovered |
| `Extract.RecoveryMissesExactly` | crates/fidelity-cipher/examples/extract.rs:253-304 | Against a search of every salt offset and every place, the extractor misses exactly a salt in the last sixteen bytes and an eight-byte ciphertext in the last eight |
| `Extract.SaltAtTheEndIsMissed` | crates/fidelity-cipher/examples/extract.rs:270-278 | Under a made-up block function of two values, a file made of an emitted nine-byte value and its salt: trying the last sixteen bytes would recover it, and the extractor does not |
| `Extract.EmittedIsRecovered` | crates/fidelity-cipher/examples/extract.rs:240-304 | A constant that the macro emitted is recovered from any file that holds its salt and its value, unless that salt is the last sixteen bytes or the value is eight bytes long and the last eight |
| `ApkSigning.SignerCertificate` | crates/fidelity-formats/src/apk/signing.rs:94-135 | The one-pass walk answers the preferred certificate of the parsed entries, and nothing when any entry is malformed |
| `ApkSigning.FirstOfIsFirst` | crates/fidelity-formats/src/apk/signing.rs:119-124 | The certificate kept for a scheme is that of its first entry that parses |
| `ApkSigning.CertificateReadsBack` | crates/fidelity-formats/src/apk/signing.rs:141-153 | The certificate reader inverts the nesting, whatever bytes follow on each level |
| `ApkSigning.CertificateShape` | crates/fidelity-formats/src/apk/signing.rs:141-153 | Every scheme block that yields a certificate has that nesting |
| `ApkSigning.ElementIff` | crates/fidelity-formats/src/apk/signing.rs:164-169 | An element reads at an offset exactly where it was written |
| `ApkSigning.EntriesReadBack` | crates/fidelity-formats/src/apk/signing.rs:113-128 | Every written list of entries reads back, at any place |
| `ApkSigning.EntriesShape` | crates/fidelity-formats/src/apk/signing.rs:113-128 | Every block whose entries all read is made of exactly those entries |
| `ApkSigning.EntriesAdvance` | crates/fidelity-formats/src/apk/signing.rs:113-128 | On arbitrary bytes each accepted entry advances the walk by at least twelve bytes and is a part of the block |
| `ApkSigning.SignerIsASlice` | crates/fidelity-formats/src/apk/signing.rs:94-135 | On arbitrary bytes an answer is a slice of the block |
| `ApkSigning.BlockLengthReadsBack` | crates/fidelity-formats/src/apk/signing.rs:69-82 | The footer of a written block states its length, up to the bound |
| `ApkSigning.SignerReadsBack` | crates/fidelity-formats/src/apk/signing.rs:94-135 | For every list of entries within the bound, the reader answers the first parseable v3.1 certificate, else v3, else v2, however the identifiers interleave |
| `ApkSigning.SignerIff` | crates/fidelity-formats/src/apk/signing.rs:94-135 | Exactly which blocks answer: those within the bound whose size fields agree and that hold entries, up to the footer or into it, whose preferred certificate is the answer; stated size and magic are not looked at |
| `ApkSigning.EntriesIff` | crates/fidelity-formats/src/apk/signing.rs:113-128 | The walk reads a list of entries exactly when they are written there, reach the footer, and all but the last end before it |
| `ApkSigning.FooterOverlapAnswers` | crates/fidelity-formats/src/apk/signing.rs:94-135 | For every certificate that fits, a block of stated size zero and without a magic, whose one entry covers its footer, is not measured and answers the certificate |
| `ApkSigning.BoundsDisagree` | crates/fidelity-formats/src/apk/signing.rs:78-97 | A block whose stated size is within eight bytes of the bound is measured by one reader and refused by the other |
| `ApkSigning.MeasuredBlockIsWalkedIff` | crates/fidelity-formats/src/apk/signing.rs:78-97 | A measured block that holds a certificate answers it exactly when its whole length is within the bound |
| `ApkSigning.GapHidesACertificate` | crates/fidelity-formats/src/apk/signing.rs:78-97 | For every certificate that fits there is a block in that gap which is measured and holds it, and the walk answers nothing |
| `ApkZip.CentralDirectoryOffset` | crates/fidelity-formats/src/apk/zip.rs:66-90 | The backward search answers the directory offset of the last record whose comment ends exactly at the end, and nothing when there is none (section 4.3.16 of the ZIP APPNOTE) |
| `ApkZip.StatedByLastIsUnique` | crates/fidelity-formats/src/apk/zip.rs:66-90 | That rule fixes the answer |
| `ApkZip.TailAnswersForTheFile` | crates/fidelity-formats/src/apk/zip.rs:26-33 | Searching the last MAX_TAIL bytes gives the answer of searching the whole file |
| `ApkZip.RecordReadsBack` | crates/fidelity-formats/src/apk/zip.rs:66-90 | A written record answers with its offset unless its own comment holds another record that ends the file |
| `ApkArchive.ArchiveCertificate` | crates/probe/fidelity-probe-android/src/sys/apk.rs:72-98 | The three reads of the probe answer what the directory, the footer and the block say, with the gap of the first read that fails |
| `ApkArchive.ArchiveReadsBack` | crates/probe/fidelity-probe-android/src/sys/apk.rs:72-98 | Every written archive with its directory below 4 GiB and no further ending record in its comment yields the preferred certificate of its entries when the block is within 4 MiB, is unreadable up to eight bytes more, and has no block beyond |
| `ApkArchive.GapArchiveIsUnreadable` | crates/probe/fidelity-probe-android/src/sys/apk.rs:101-117 | For every certificate that fits, every archive written around a block in the gap holds it and is unreadable |
| `Pe.MappedImportSlots` | crates/fidelity-formats/src/pe/mod.rs:51-104 | The nested walk equals a closed form over the trace without a limit: a full prefix at the limit, everything when the table ended properly, nothing otherwise |
| `Pe.ReadTable` | crates/fidelity-formats/src/pe/mod.rs:81-97 | One inner loop answers at the limit, refuses a malformed entry, and otherwise continues with every slot of its table |
| `Pe.SlotsAreSound` | crates/fidelity-formats/src/pe/mod.rs:84-96 | On arbitrary bytes an answer holds at most the limit, and each pair is an in-image offset plus the base, without overflow, with the eight bytes stored there |
| `Pe.SmallerLimitIsAPrefix` | crates/fidelity-formats/src/pe/mod.rs:83-85 | If a limit answers with a list, every smaller limit answers with its prefix |
| `Pe.ImportRangeIff` | crates/fidelity-formats/src/pe/mod.rs:125-158 | The import descriptors are found exactly when each header field is in place and the table lies inside the image |
| `Pe.ImportsReadBack` | crates/fidelity-formats/src/pe/mod.rs:65-97 | For every list of imports that an image holds, the walk gives exactly their slots, in order |
| `Pe.ImageReadsBack` | crates/fidelity-formats/src/pe/mod.rs:51-104 | For every image with headers and a list of imports, a limit answers the first slots of that list |
| `Pe.SampleReadsBack` | crates/fidelity-formats/src/pe/mod.rs:198-223 | For every number below 2^60 there is an image that holds that many slots |
| `Macho.CommandsIff` | crates/fidelity-formats/src/macho/dispatch.rs:79-117 | The walk reads exactly the lists of well-formed commands whose bytes fill the rest of the buffer |
| `Macho.SizesSumToTheBuffer` | crates/fidelity-formats/src/macho/dispatch.rs:117-124 | On arbitrary bytes the walk answers only when the stated sizes sum to the buffer length |
| `Macho.NextCommand` | crates/fidelity-formats/src/macho/dispatch.rs:80-86 | One round of the walk takes exactly one command off what is left, or shows that nothing reads |
| `Macho.EncodedIsWellFormed` | crates/fidelity-formats/src/macho/dispatch.rs:80-86 | Every encoded command states its own kind and size |
| `Macho.ImageReadsBack` | crates/fidelity-formats/src/macho/dispatch.rs:79-117 | Every encoded image walks to the commands it was written from |
| `MachoDispatch.ReadLayout` | crates/fidelity-formats/src/macho/dispatch.rs:71-125 | The loop answers the layout of the command list, and nothing for a malformed, oversized or overfull one |
| `MachoDispatch.ReadSections` | crates/fidelity-formats/src/macho/dispatch.rs:100-115 | One segment adds exactly its pointer sections, in order, unless they pass 128 |
| `MachoDispatch.LayoutReadsBack` | crates/fidelity-formats/src/macho/dispatch.rs:71-125 | For every list of commands within the bounds the layout is exactly its non-lazy pointer sections in order, bound exactly when a chained-fixups command is present; over 128 sections there is none |
| `MachoDispatch.LayoutIsBounded` | crates/fidelity-formats/src/macho/dispatch.rs:71-125 | On arbitrary bytes a layout holds at most 128 sections and comes only from sizes that sum to the buffer |
| `MachoImage.ReadSignature` | crates/fidelity-formats/src/macho/image.rs:48-102 | The loop answers the fit of the one linkedit segment and the one signature command, and nothing when either is absent, repeated or malformed |
| `MachoImage.FitIff` | crates/fidelity-formats/src/macho/image.rs:104-125 | The checked arithmetic answers exactly when the range lies inside the slid segment over the integers and no intermediate sum leaves 64 bits |
| `MachoImage.SignatureLiesInLinkedit` | crates/fidelity-formats/src/macho/image.rs:48-125 | On arbitrary bytes any answered range lies inside the slid file range of the only __LINKEDIT segment |
| `MachoImage.SignatureReadsBack` | crates/fidelity-formats/src/macho/image.rs:48-125 | For every encoded list of commands the answer is the fit of the two ranges that the list states once each |
| `Smbios.SystemInformation` | crates/fidelity-formats/src/smbios/system.rs:50-81 | The loop equals the walk over structures, and each cursor that it passes is the end of the structure before, at least six bytes on and inside the table |
| `Smbios.ReadRunEnd` | crates/fidelity-formats/src/smbios/system.rs:87-95 | The inner loop equals the run search |
| `Smbios.RunEndIsFirst` | crates/fidelity-formats/src/smbios/system.rs:87-95 | A run of strings ends behind the first two zero bytes, and there is none exactly when no two zeros follow |
| `Smbios.TextReadsBack` | crates/fidelity-formats/src/smbios/system.rs:101-110 | A number names the string that was written under it; zero reads as empty text, and so does one when no string was written |
| `Smbios.TableReadsBack` | crates/fidelity-formats/src/smbios/system.rs:50-110 | For every table of encoded structures the walk answers the strings numbered by the first type 1 structure in front of an end marker (sections 6.1.3 and 7.2 of DMTF DSP0134) |
| `Smbios.NumberOneWithoutStrings` | crates/fidelity-formats/src/smbios/system.rs:101-110 | A structure without strings answers empty text under the numbers zero and one, and nothing under a larger one |
| `Text.Utf8IsValid` | crates/fidelity-formats/src/smbios/system.rs:107-109 | The text decoder accepts the encoding of every text |
| `Text.ValidIsUtf8` | crates/fidelity-formats/src/smbios/system.rs:107-109 | The text decoder accepts nothing else |
| `Elf.ReadDynamicTable` | crates/fidelity-formats/src/elf/mod.rs:83-118 | The loop answers from the entries in front of the first end marker, and nothing without one, with an incomplete entry before it, or with a field missing |
| `Elf.EntriesAreUnique` | crates/fidelity-formats/src/elf/mod.rs:83-118 | The bytes determine those entries, so they determine the answer |
| `Elf.DynamicReadsBack` | crates/fidelity-formats/src/elf/mod.rs:83-118 | For every written array within the bound the last entry of each kind in front of the end marker wins, whatever follows |
| `Elf.ReadJumpSlots` | crates/fidelity-formats/src/elf/mod.rs:122-142 | The loop keeps the first offsets of the asked kind up to the limit and says exactly whether there were more |
| `Elf.SlotsReadBack` | crates/fidelity-formats/src/elf/mod.rs:122-142 | For every written list of relocations within the bound the kept offsets are the first ones of the asked kind |
| `Targets.ReadAppleTargets` | crates/probe/fidelity-probe-apple/src/sys/dispatch.rs:92-130 | The counting loop answers the first MAX_TARGETS + 1 targets of all sections, and nothing exactly when there is none or a section that it reaches is refused |
| `Targets.ReadSection` | crates/probe/fidelity-probe-apple/src/sys/dispatch.rs:93-118 | One section gives as many of its targets as there is room for, unless its address, size, alignment or mapping is refused |
| `Targets.AppleTruncationIsExact` | crates/probe/fidelity-probe-apple/src/sys/dispatch.rs:92-122 | The truncation flag of an Apple snapshot is set exactly when the sections hold more targets than a snapshot keeps |
| `Targets.ElfTruncationIsExact` | crates/probe/fidelity-probe-android/src/sys/dispatch.rs:125-136 | So is that of an ELF snapshot |
| `Targets.WindowsNeverStatesTruncation` | crates/probe/fidelity-probe-windows/src/sys/dispatch.rs:80-88 | The reader asks for no more slots than a snapshot keeps, so the flag of a Windows snapshot is never set |
| `Targets.WindowsFlagIsRightIff` | crates/probe/fidelity-probe-windows/src/sys/dispatch.rs:80-88 | That flag is right exactly when the image holds no more slots than a snapshot keeps |
| `Targets.WindowsMissesTheExtraSlot` | crates/probe/fidelity-probe-windows/src/sys/dispatch.rs:80-88 | A concrete image with one slot more, whose snapshot says that it is complete |
| `Targets.OneMoreWouldBeExact` | crates/fidelity-core/src/fact/dispatch.rs:82-92 | With one more slot asked for, as the other readers do, the flag would be exact |
| `Bytes.ReadsIff` | crates/fidelity-formats/src/apk/signing.rs:48-59 | A little-endian number reads at an offset exactly where its encoding sits |
| `Bytes.FourBytes` | crates/fidelity-formats/src/apk/signing.rs:48-59 | The least significant byte comes first |

## Left out

- Operating-system calls, raw-pointer slices, JNI, sysctl, fs-verity and Authenticode: foreign calls, whose results are arbitrary values here.
- The loopback probe of the local agent: network I/O.
- The mappings from an observation to an outcome in the other detectors, the Android property tables and the SMBIOS vendor prefixes: finite tables that one reading settles.
- Display texts, evidence wording, serde, tracing, the Tauri plugin, fuzz targets, cost examples and platform examples: no proof content.
- Macro token handling (`split`, `assemble`) and the string-literal parser: the model starts from the bytes of the literal. The Rust token types are not part of this model.
- Weak-memory effects, real time, condition-variable fairness and `panic = "abort"`.
- Collision resistance and secrecy of SHA-256: equality with the standard, inversion and injective encodings only.
- The wipe of a dropped secret, `certificate_table`, the Mach-O entitlement and signature-blob readers, and the procfs readers: they would add easier members of the same kind.
- `Builder` options that no later step reads, `missing_required_coverage` and the sample form of the extractor: one loop each, with nothing that spans operations.
- Text in `std::env::var` that is not Unicode reads as unset in the code; the model takes a missing seed as `None` and a missing identity as empty text.
- Facade.WaitForFullScan: runs without another thread, so it says exactly which steps one call takes; what other threads may do in between is in `ProtocolTheorems.WaitReturnsAfterTheFlag`.
