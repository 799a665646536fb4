# Verified models of the delegation example

This Dafny project models the stateful core of `examples/delegation`: the durable parent inbox and its fenced owner, the
fixed-slot SQLite store with its keyset reads, the canonical JSON printer and strict reader, the launcher and worker
protocol, the pinned dependency check, and the streaming observer with its offline evidence check. `dafny verify
dfyconfig.toml` verifies all of it.

Code that changes state step by step is modelled by classes and loops; each method is proved against a pure step or
specification function, and the promises are proved about those functions over every input and every run.

| files | component |
|---|---|
| `code_units`, `json_grammar`, `json_values`, `json_scanner`, `json_reader`, `key_order`, `json_canonical`, `evidence_values` | JSON text, strict reader, canonical printer, bounded values |
| `slot_records`, `slot_steps`, `slot_plan`, `slot_store`, `slot_bytes` | task, run, notification and omission in one slot per run; refinement of plain maps |
| `capacity` | the reserve around every commit, in pages and blocks |
| `keyset_pages`, `observation_pages`, `scan_pages` | pages, cursors, traversal of changing tables; scans in key order |
| `inbox_rows`, `owner_handle`, `inbox_steps`, `inbox_world`, `inbox_runs`, `reference_database`, `parent_inbox`, `inbox_turns` | durable inbox, owner fence, retained producers |
| `launcher`, `worker`, `worker_protocol` | the two processes and their channels |
| `snapshot_grammar`, `dependency_graph` | package snapshots and the certified graph |
| `admission_observer`, `session_replay`, `qualified_turns` | claim matcher, session log, turn order |
| `releases` | single-flight and ordered release |
| `wrappers`, `collections`, `texts` | shared shapes, set and map facts, text operations |

What the outside decides is a parameter: clock readings, fresh ids and nonces, current authority of a parent, lease
checks, the fate of each guard, transaction, commit and checkpoint, message loss, timeouts, output and process exits.
Transactions are atomic, and the owner lock is exclusive and freed by release or process death. Digests are modelled by
the digested value itself, so they are injective. `delegationSubordinateId` is a constructor, so it is injective too.

In the worlds of the inbox and of the worker protocol any enabled step may come next, so some orders are allowed that
synchronous code rules out; every promise is proved for those orders as well.

Two findings of the models:

- A snapshot base without `@` makes `lastIndexOf` return -1, so name and version overlap: `1.2.3` is accepted
  (`SnapshotGrammar.BareVersionIsAccepted`). An accepted text is a printed package tree if and only if every base has an
  `@` (`SnapshotGrammar.PrintedIsMarked`).
- The two capacity checks alone do not keep the reserve whole: `Capacity.ChecksAloneDoNotSuffice` gives a write that
  passes both and after which an empty write is refused. They suffice exactly when the assigned bytes change neither the
  reserve's pages nor its blocks (`Capacity.ChecksSufficeExactly`). `Capacity.ExactGrowth` says of all assigned writes
  which ones always leave the reserve whole, and `Capacity.ReserveSuffices` that every run of those is kept.

## Model

| member | source | states |
|---|---|---|
| InboxRuns.DispatchedAtMostOnce | examples/delegation/inbox/dispatch.ts:26-69 | In every run of opens, crashes, accepts, dispatches, expiries and disposals each notification is dispatched at most once; an acknowledged one exactly once; a pending, dismissed or unknown one never |
| InboxRuns.AcceptanceAgrees | examples/delegation/inbox/acceptance.ts:28-79 | Over every run and its continuation: one row a notification and one inbox id a row, all `accepted` answers for a notification agree and name that row, identity fields and settled states never change again |
| InboxRuns.RecoveryLeavesLiveTurns | examples/delegation/inbox/state.ts:16-33 | A recovery batch started anywhere while some handle stands between its intent and its answer changes nothing: no live intent is ever retired |
| InboxRuns.OneOwnerCommits | examples/delegation/sqlite/database.ts:41-73 | Any step that changes the database runs on the only handle that holds the lock, never failed nor closed, and (unless it acquires ownership) while the persisted epoch and nonce are its own |
| InboxRuns.EpochsIncrease | examples/delegation/sqlite/database.ts:109-121 | Across all opens, crashes and contenders the acquired epochs strictly increase and none exceeds the persisted one |
| InboxRuns.FailedNeverCommits | examples/delegation/sqlite/database.ts:41-52 | A failed handle stays failed under every call and changes the database by none |
| InboxRuns.ProducersConserved | examples/delegation/sqlite/database.ts:94-99 | In every reachable state the producer count is the number of tokens not returned, at most one lease is out, and an outstanding lease is backed by a token that keeps the lock |
| InboxRuns.ReleasedAtZero | examples/delegation/sqlite/database.ts:122-139 | A step that gives up the lock does so with no token outstanding and no lease out |
| InboxRuns.DisposedStaysQuiet | examples/delegation/inbox/index.ts:36-52 | Once `dispose` answers closed, the inbox holds no token, has no turn in hand and takes none later, whatever else happens until its process ends |
| InboxRuns.QuietStays | examples/delegation/inbox/index.ts:42-52 | No single step of a closed inbox takes a token or dispatches |
| InboxRuns.RunKeeps | examples/delegation/inbox/dispatch.ts:7-93 | The whole invariant (dispatch counts, rows, answers, epochs, exclusive lock, live turns) holds after every run, and history only grows |
| InboxRuns.StepKeeps | examples/delegation/inbox/dispatch.ts:7-93 | Each of the 22 steps of one handle keeps counts, identities, live turns and fence, and a handle without the lock changes nothing |
| InboxWorld.DispatchHolds | examples/delegation/inbox/dispatch.ts:53-57 | The call of `lease.dispatch` finds its row intended and never dispatched before |
| InboxWorld.SettleHolds | examples/delegation/inbox/dispatch.ts:7-16 | Settling the turn in hand, successful or not, keeps the exactly-once count of acknowledged rows |
| InboxWorld.RecordHolds | examples/delegation/inbox/dispatch.ts:46-52 | The compare-and-set of an intent either records it on a row that was never dispatched or changes nothing |
| OwnerHandle.TransactIsAtomic | examples/delegation/sqlite/database.ts:53-73 | For every action: a failed transaction leaves the database as it was; a successful one commits exactly the action's result, on a live unfailed handle, under its own fence before and after |
| OwnerHandle.OwnerKept | examples/delegation/sqlite/database.ts:94-139 | Acquire, release, close, retain and return each keep count equal to tokens and tokens only on a locked owner |
| ReferenceDatabases.ReferenceDatabase.CheckCurrent | examples/delegation/sqlite/database.ts:41-52 | The guard refuses and fails the handle exactly as the guard step says |
| ReferenceDatabases.ReferenceDatabase.Transaction | examples/delegation/sqlite/database.ts:53-73 | The in-place transaction with its rollbacks leaves file, handle and result exactly as the atomic step says, for every action and every failure |
| ReferenceDatabases.ReferenceDatabase.AcquireOwner | examples/delegation/sqlite/database.ts:109-121 | Leaves file and handle as the acquisition step: next epoch, new nonce, or nothing |
| ReferenceDatabases.ReferenceDatabase.RetainProducer | examples/delegation/sqlite/database.ts:94-99 | One more producer under a fresh token, or a refusal |
| ReferenceDatabases.ReferenceDatabase.ReturnProducer | examples/delegation/sqlite/database.ts:94-99 | A token is given back once; a second call changes nothing |
| ReferenceDatabases.ReferenceDatabase.ReleaseOwner | examples/delegation/sqlite/database.ts:129-139 | Refused for another token or live producers; otherwise the lock goes and the handle is closed |
| ReferenceDatabases.ReferenceDatabase.CloseUnusedHandle | examples/delegation/sqlite/database.ts:122-128 | Refused once acquired or while producers live; otherwise the lock goes |
| ParentInboxes.ParentInboxContext.EnsureRecovered | examples/delegation/inbox/state.ts:16-33 | Terminates; does only recovery steps; changes only intents, only to `recovery_required`; when it first succeeds no intent is left, and it succeeds whenever the owner is able and nothing outside fails |
| ParentInboxes.PickBatch | examples/delegation/inbox/state.ts:19-21 | At most 100 ids, the smallest ones, and some whenever there are any |
| ParentInboxes.ParentInboxContext.AcceptEnvelope | examples/delegation/inbox/acceptance.ts:28-60 | Does recovery steps and, once open and in time, exactly the accept step; an `accepted` answer names the row that is now stored with this very envelope |
| ParentInboxes.ParentInboxContext.InspectKey | examples/delegation/inbox/acceptance.ts:61-79 | Answers only within the deadline before and after; absent only when there is no row and no denial, rejected only as authority denies it, accepted only with the stored id and time and for the row's own parent and revision |
| ParentInboxes.ParentInboxContext.Settle | examples/delegation/inbox/dispatch.ts:7-16 | Afterwards the row has the asked state, or the call failed; no other row is touched |
| ParentInboxes.ParentInboxContext.FinishTurn | examples/delegation/inbox/dispatch.ts:18-24 | Two attempts: either the producer is returned, or lease and token are kept and the inbox is marked |
| ParentInboxes.ParentInboxContext.DispatchOne | examples/delegation/inbox/dispatch.ts:26-69 | Is exactly the eight steps of its turn for every outcome of host, lease and transactions; touches only its own row, ends ready, and its receipt tells the row's settled state or that nothing changed |
| ParentInboxes.ParentInboxContext.SelectPending | examples/delegation/inbox/dispatch.ts:78-80 | The first pending rows of the parent by acceptance time and id, up to the limit, all of them when fewer |
| ParentInboxes.ParentInboxContext.DispatchPending | examples/delegation/inbox/dispatch.ts:71-93 | Does a sequence of the proved steps; unless a lease release failed it gives one receipt, in order, for each of the first pending rows up to the limit, none twice, each settled one still true of its row at the end; the page is no longer active |
| ParentInboxes.ParentInboxContext.BeginDispose | examples/delegation/inbox/index.ts:42-52 | Answers closed exactly when no page is active and no lease release failed |
| InboxTurns.TurnOutcome | examples/delegation/inbox/dispatch.ts:26-69 | A whole turn with an able owner ends its row in exactly the state that current authority, lease and the parent's answer decide, changes no other row, returns its producer, and calls the parent once exactly when it got that far |
| InboxTurns.ReopeningRetires | examples/delegation/inbox/state.ts:16-33 | After any crash, reopening moves the epoch on by one, retires exactly the intents of the batch without a dispatch and leaves every other row as it was |
| SlotPlan.StoreRefinesRecords | examples/delegation/sqlite/mutations.ts:11-87 | Every history of well-formed plans from the empty store succeeds, and reading all tasks, runs, operations, notifications, omissions and observations back gives exactly the plain record store's history |
| SlotPlan.ApplyRefines | examples/delegation/sqlite/mutations.ts:11-87 | A well-formed list on tables holding some records succeeds and leaves tables holding the records with each mutation applied to its map, everything else unchanged and every head slot current |
| SlotPlan.TurnsDoNotMatter | examples/delegation/sqlite/mutations.ts:19-86 | Taking the run first and the task last gives the records of the list taken in order |
| SlotPlan.PutHolds | examples/delegation/sqlite/mutations.ts:41-80 | Each operation, observation, notification or capacity mutation keeps the tables holding the records, updated |
| SlotPlan.PlansKeepOrdinals | examples/delegation/sqlite/layout.ts:7 | No history of well-formed plans gives two runs of a task one ordinal, so the table's constraint never fires |
| SlotRecords.HeldIsRead | examples/delegation/sqlite/records.ts:48-88 | Whenever the tables hold some records, every reader returns exactly those records |
| SlotRecords.HeldOperation | examples/delegation/sqlite/records.ts:69-82 | The two operation tables never disagree: one row answers for an operation id, from its own table or from the column its critical row names |
| SlotSteps.AdmitHolds | examples/delegation/sqlite/mutations.ts:23-36 | An admission inserts rows that hold the records with the new run, a new task staying pending until its head is written |
| SlotSteps.UpdateRunHolds | examples/delegation/sqlite/mutations.ts:37-40 | A run update changes the run's columns and slot and nothing any other record is read from |
| SlotSteps.PutCriticalHolds | examples/delegation/sqlite/mutations.ts:53-59 | A critical operation takes its column, and the one kept there before is no longer found under its id |
| SlotSteps.PutOrdinaryHolds | examples/delegation/sqlite/mutations.ts:60-62 | An ordinary operation is inserted or replaced under its own key only |
| SlotSteps.PutNotificationHolds | examples/delegation/sqlite/mutations.ts:69-78 | A notification and its index columns change together |
| SlotSteps.PutTaskHolds | examples/delegation/sqlite/mutations.ts:80-85 | Moving a head to a run of the same task keeps every other task readable and ends the pending state |
| SlotStore.ReferenceStore.ApplyMutations | examples/delegation/sqlite/mutations.ts:11-87 | The in-place loop with its map of collected slots succeeds exactly when every column fits and no slot is missing, and then leaves what the direct writes leave |
| SlotStore.ReferenceStore.Commit | examples/delegation/sqlite/commit.ts:44-70 | A commit applies the whole list or leaves every table as it was; it succeeds exactly when the list is empty, or has accounting, passes the capacity checks before and after the writes with its ordinary or assigned bytes, and every text fits; texts that fitted all still fit |
| SlotStore.ReferenceStore.WriteSlots | examples/delegation/sqlite/mutations.ts:86 | Writes every collected slot, and reports exactly whether all of them fit |
| SlotStore.ReferenceStore.ApplyOne | examples/delegation/sqlite/mutations.ts:41-79 | One mutation on rows and collected slots together is the direct write on the tables they stand for |
| SlotBytes.EncodeSlot | examples/delegation/sqlite/records.ts:31-37 | A text that fits is copied to the front of a fresh buffer of spaces; a longer one is refused |
| SlotBytes.SlotRoundTrip | examples/delegation/sqlite/records.ts:31-46 | A record's text survives its slot, and a written slot is never taken for an empty one |
| SlotBytes.BytesHold | examples/delegation/sqlite/records.ts:31-82 | In every store whose texts fit, reading any slot, critical column or operation row through its bytes gives exactly what the tables hold, zero blobs included |
| SlotBytes.AdmittedReadsEmpty | examples/delegation/sqlite/mutations.ts:29-30 | The zero blobs an admission inserts read as no slot and no operation, never as an error |
| SlotStore.ApplyFits | examples/delegation/sqlite/mutations.ts:11-87 | A list that applies leaves every slot outside the runs it writes, and every operation, fitting its column |
| Capacity.ReserveSuffices | examples/delegation/sqlite/capacity.ts:22-38 | While the reserve is whole, every run of bounded assigned writes, however long, passes all its checks and leaves the reserve whole |
| Capacity.OrdinaryThenAssigned | examples/delegation/sqlite/commit.ts:62-68 | After a kept ordinary commit no later run of bounded assigned writes can be refused, and the reserve is whole after it |
| Capacity.ExactGrowth | examples/delegation/sqlite/capacity.ts:22-38 | For all reserves, page growth and blocks taken: an assigned write is kept with the reserve whole afterwards on every disk where it was whole before if and only if, in whole pages and whole blocks, its checked remainder fits the old reserve and growth plus new reserve fits the old one |
| Capacity.ThreeTimesIsBounded | examples/delegation/sqlite/capacity.ts:27-28 | A write that adds and takes at most three times the bytes it gives up is within that bound |
| Capacity.ChecksSufficeExactly | examples/delegation/sqlite/commit.ts:62-68 | The two checks alone keep the reserve whole on every disk if and only if the assigned bytes change neither the reserve's count of pages nor its count of blocks |
| Capacity.ChecksAloneDoNotSuffice | examples/delegation/sqlite/capacity.ts:27-37 | An assigned write of 26 pages that gives nothing up passes both its checks on a disk of whole pages, and the next one, which takes nothing, is refused |
| KeysetPages.ReadRows | examples/delegation/sqlite/read.ts:18-36 | The page loop returns the longest prefix within limit and budget, a cursor exactly when rows are left, and refuses only when not even one record fits |
| KeysetPages.PageIsPrefix | examples/delegation/sqlite/read.ts:18-36 | A read of limit + 1 rows gives a prefix of all rows after the cursor, non-empty while there are any, within limit and byte budget |
| KeysetPages.FetchSuffices | examples/delegation/sqlite/read.ts:66-68 | Fetching only limit + 1 rows gives the page that fetching all rows would give |
| KeysetPages.TraversalIncreases | examples/delegation/sqlite/read.ts:18-36 | Following cursors over tables that change between pages returns strictly increasing keys, so nothing twice, and only rows that were there |
| KeysetPages.StayingRowIsReturned | examples/delegation/sqlite/read.ts:18-36 | A record that keeps its key in the tables throughout, however it is rewritten between pages, is returned before the cursors end |
| KeysetPages.StayingKeyIsReturnedOnce | examples/delegation/sqlite/read.ts:18-36 | A key that stays in the tables throughout is returned exactly once |
| KeysetPages.UnchangedTable | examples/delegation/sqlite/read.ts:18-36 | Over an unchanged table whose records fit, the pages end and together are exactly the rows after the start |
| ObservationPages.ReadObservations | examples/delegation/sqlite/read.ts:84-95 | Fetching, pushing the omission and sorting returns the page that reading one merged table would give |
| ObservationPages.ObservationsReturnedOnce | examples/delegation/sqlite/read.ts:84-95 | Over changing observations and omissions, an index that names one of them throughout is returned exactly once and in index order, whatever is rewritten under it |
| ObservationPages.NumericCursorReads | examples/delegation/sqlite/read.ts:37-42 | Padded cursors, with or without a run id, are read back as the number they were written from, for every safe integer |
| ObservationPages.RunCursorReads | examples/delegation/sqlite/read.ts:43-49 | A run cursor is split at the right colon although its time has colons |
| ScanPages.ScansAgree | examples/delegation/sqlite/read.ts:113-129 | The queued, recovery and notification scans by index columns find exactly the records the same filter finds among the decoded records, a claim without an owner epoch never being eligible |
| ScanPages.ScanIsExact | examples/delegation/sqlite/read.ts:124-128 | Following its cursors over an unchanged store, the queued or recovery scan returns exactly the runs it is for, loaded, in the order of creation time and id after the start |
| ScanPages.ScannedOnce | examples/delegation/sqlite/read.ts:124-128 | With any well-formed commits between its pages, a scan returns strictly increasing keys, and a run that is sought at every page exactly once although it is rewritten in between |
| ScanPages.NotificationScanIsExact | examples/delegation/sqlite/read.ts:119-123 | The notification scan returns exactly the eligible notifications in the order of their ids |
| ScanPages.TaskRunsAreExact | examples/delegation/sqlite/read.ts:62-68 | The pages of a task are exactly its runs in the order of their ordinals |
| NativeJsonReader.ParseNativeJson | examples/delegation/native/json.ts:29-89 | The cursor-moving reader with its node count and key sets terminates on every text and returns what the scanner specification gives |
| JsonScanner.ParseNativeExact | examples/delegation/native/json.ts:29-89 | A text is accepted with a value if and only if it is, to its last character, an RFC 8259 text of that value with at most 16 levels and 50,000 values and no repeated or unsafe decoded key at any depth |
| JsonScanner.ScanValueAgrees | examples/delegation/native/json.ts:46-77 | On every grammatical text the bounded scan ends where the document ends, and succeeds exactly when the limits and key rules hold |
| JsonScanner.ScanStringAgrees | examples/delegation/native/json.ts:34-45 | The scan to the closing quote accepts exactly the strings of the grammar and yields their decoded text |
| JsonGrammar.ReadTextExact | examples/delegation/native/json.ts:29-89 | Reading by the grammar of sections 2 to 7 of RFC 8259 is sound and complete: a text reads as a document if and only if it is written that way |
| JsonCanonical.RoundTrip | examples/delegation/native/json.ts:16-24 | What the canonical printer prints is parsed back to the value with sorted keys, exactly when the value is within the reader's limits, and refused otherwise |
| JsonCanonical.CanonicalInjective | examples/delegation/native/json.ts:16-24 | Two values print alike if and only if they are equal up to the order of keys |
| JsonCanonical.NormalDecidesSameValue | examples/delegation/native/json.ts:16-24 | Equality of sorted forms is equality of the values as JSON objects, independent of key order |
| JsonCanonical.QuoteDecodes | examples/delegation/native/json.ts:16-18 | The escaped form of every code-unit sequence, lone surrogates included, is good JSON and decodes to that sequence |
| JsonCanonical.CanonicalPrintsNormal | examples/delegation/native/json.ts:19-23 | The printed text is the grammar's text of the value with its keys in code-unit order |
| KeyOrder.IncreasingIsUnique | examples/delegation/native/json.ts:23 | There is one increasing arrangement of a set of keys, so the order of insertion cannot show in the print |
| EvidenceValues.VisitExact | examples/delegation/native/evidence-values.ts:13-33 | The bounded visitor accepts exactly the values within its node, depth, string and key bounds, and its counters are those totals |
| EvidenceValues.Visitor.Visit | examples/delegation/native/evidence-values.ts:13-33 | The visitor's counters in place give the outcome of the visiting specification |
| EvidenceValues.AssertBoundedNativeEvidence | examples/delegation/native/evidence-values.ts:8-36 | Accepts exactly the bounded values |
| EvidenceValues.AcceptedRoundTrips | examples/delegation/native/evidence-values.ts:8-36 | Every accepted value is printed to text that the strict reader accepts and maps back to the same value |
| WorkerProtocol.ClosedIsTruthful | examples/delegation/native/process.ts:221-245 | In every interleaving of messages, losses, cancels, output, timeouts and exits, the launcher reports closed only if no job was sent and none entered, or the worker's operation settled, its cleanup succeeded, nothing is held and it exited 0 |
| WorkerProtocol.OneJobOnly | examples/delegation/native/worker.ts:116-122 | The worker enters at most one job, and at most 64 cleanups are asked for |
| WorkerProtocol.AnswersAreOwn | examples/delegation/native/process.ts:185-191 | In every run a request resolves only by the worker's answer to that very request, or as pending once the worker is gone, and to closed only with the cleanup closed |
| WorkerProtocol.FirstAnswerDecides | examples/delegation/native/process.ts:170-198 | Whatever sequence of messages arrives, late, malformed or repeated, a waiting request takes exactly the first answer to its own id |
| WorkerProtocol.CleanExitReleases | examples/delegation/native/worker.ts:132-140 | A worker that exits 0 holds nothing, even when the launcher was gone long before |
| WorkerProtocol.RunKeeps | examples/delegation/native/process.ts:151-239 | What the launcher knows was told by the worker and is still so, after every run |
| WorkerProtocol.ClosingIsReached | examples/delegation/native/process.ts:213-239 | From every reachable state with a connected live worker, an open launcher and a request still allowed, some continuation comes to be reported closed if and only if the job was never sent, is still on its way or was entered |
| WorkerProtocol.LostForGood | examples/delegation/native/process.ts:221-222 | A launch whose job was sent and lost before the worker entered it is never reported closed by any continuation |
| Workers.EntersAtMostOnce | examples/delegation/native/worker.ts:97-130 | Whatever message arrives, well-formed or not, the worker's invariant holds and it has entered at most one job |
| Workers.ServeTells | examples/delegation/native/worker.ts:104-115 | A cleanup answer of closed is sent only after the operation settled and the cleanup succeeded |
| Workers.MaintainKeeps | examples/delegation/native/worker.ts:132-140 | Maintenance after a lost channel keeps the worker's invariant |
| Workers.NativeWorker.OnMessage | examples/delegation/native/worker.ts:97-130 | The handler changes the worker's variables and replies as the step says |
| Workers.NativeWorker.FinishExecution | examples/delegation/native/worker.ts:70-95 | The end of an execution sets the cleanup state, reports it, and disconnects only when closed |
| Workers.NativeWorker.AnswerCleanup | examples/delegation/native/worker.ts:63-68 | A waiting request is answered once, with the outcome of the shared cleanup |
| Launchers.NativeLauncher.OnMessage | examples/delegation/native/process.ts:170-198 | Each message changes the launcher's flags as the step says; anything unexpected fails the protocol and cancels |
| Launchers.NativeLauncher.OnCancel | examples/delegation/native/process.ts:156-162 | Cancels once: asks a worker that has its job, kills one that has not |
| Launchers.NativeLauncher.StartJob | examples/delegation/native/process.ts:213-219 | Sends the job only once ready, open and not canceled; otherwise cancels |
| Launchers.NativeLauncher.RequestCleanup | examples/delegation/native/process.ts:223-233 | A fresh id for every request, never a 65th, and no request of a launcher already closed |
| Launchers.NativeLauncher.OnClose | examples/delegation/native/process.ts:199-208 | Records the exit and resolves a waiting cleanup as pending |
| DependencyGraphs.AssertDependencyGraphIdentity | examples/delegation/native/dependency-identity.ts:58-171 | Passes if and only if the pins are well formed and a certificate exists: contexts from the root, closed under resolved edges, each with a manifest whose fields are valid and that matches its pinned identity, dependency sets and peer context, covering exactly the pinned graph, none unreachable |
| DependencyGraphs.DependencyCheck.Visit | examples/delegation/native/dependency-identity.ts:137-164 | Terminates within the visited bound; what it visits is certified and closed, and it fails only where no certificate of at most 512 contexts exists; its depth check never fires |
| DependencyGraphs.DependencyCheck.VisitTargets | examples/delegation/native/dependency-identity.ts:161-163 | The loop over resolved dependencies visits every target, in any order |
| DependencyGraphs.CertificateIsUnique | examples/delegation/native/dependency-identity.ts:135-166 | There is at most one certificate |
| DependencyGraphs.PeersAreDependencies | examples/delegation/native/dependency-identity.ts:76-91 | The peers of a manifest are the names of both its peer fields, each is required or optional, and nothing is both |
| DependencyGraphs.EdgesAreDefined | examples/delegation/native/dependency-identity.ts:157-163 | Every resolved dependency of a certified context has a pinned reference, so no `undefined` is ever printed or visited |
| SnapshotGrammar.PrintedSnapshotReads | examples/delegation/native/dependency-identity.ts:33-56 | Every printed package tree of bounded depth and length with distinct sibling names is read back as its root identity, to the end |
| SnapshotGrammar.AcceptedIsPrinted | examples/delegation/native/dependency-identity.ts:33-56 | Among texts whose every base has an `@`, the accepted ones are exactly the printed trees |
| SnapshotGrammar.PrintedIsMarked | examples/delegation/native/dependency-identity.ts:41-43 | An accepted text is a printed tree if and only if each of its bases has an `@` |
| SnapshotGrammar.BareVersionIsAccepted | examples/delegation/native/dependency-identity.ts:42-43 | The text `1.2.3` is accepted as name `1.2.` and version `1.2.3`, although no package tree prints it |
| SnapshotGrammar.ReadSnapshot | examples/delegation/native/dependency-identity.ts:33-56 | The reader with its moving cursor gives what the grammar gives, on every text |
| SnapshotGrammar.SnapshotReader.Part | examples/delegation/native/dependency-identity.ts:37-52 | One part from the cursor on: its identity, and the cursor where the part ends |
| AdmissionObservers.MatcherIsExact | examples/delegation/native/host.ts:204-211 | The matcher accepts a text if and only if it is the five tokens in order with blanks anywhere around them |
| AdmissionObservers.MatchInPieces | examples/delegation/native/host.ts:204-211 | Where the text is cut into deltas makes no difference |
| AdmissionObservers.AdmissionObserver.OnText | examples/delegation/native/host.ts:197-211 | Counters stay the saturated totals of everything said, and the matcher has seen all of it |
| AdmissionObservers.AdmissionObserver.OnItem | examples/delegation/native/host.ts:190-196 | Items are kept by id with every named category they ever showed, and a 65th is refused |
| AdmissionObservers.AdmissionObserver.CountItems | examples/delegation/native/host.ts:262-267 | Each category counts exactly its tool items, and the counts never exceed the items |
| AdmissionObservers.AdmissionObserver.Finish | examples/delegation/native/host.ts:258-270 | Whatever was observed, the summary passes the offline check; it says `admitted_true` exactly when the whole text is the claim, and `none` exactly when nothing was said |
| AdmissionObservers.ClaimLength | examples/delegation/native/evidence.ts:106 | A claim has at least 17 characters |
| SessionReplay.ReplaySessions | examples/delegation/native/evidence.ts:340-357 | The replay accepts a log if and only if times are in order, every session opens, is open and closes once in one role, at most two are live at any point, and two comparisons occur; it returns every session's span |
| QualifiedTurns.AssertModeTimes | examples/delegation/native/evidence.ts:261-363 | Accepts a mode if and only if its six turns qualify in order, its log is replayable, every turn lies in its session of the log, and one comparison closed before and one opened after the child |
| QualifiedTurns.ExactlySixTurns | examples/delegation/native/evidence.ts:269-273 | A qualified mode has exactly six turns |
| QualifiedTurns.OneProviderAtATime | examples/delegation/native/evidence.ts:282-285 | The providers of two purposes never run at the same instant |
| QualifiedTurns.NeverThree | examples/delegation/native/evidence.ts:343-355 | No three sessions are strictly open at one instant |
| QualifiedTurns.NoComparisonDuringChild | examples/delegation/native/evidence.ts:340-363 | In an accepted mode no comparison session is strictly open at an instant at which the child's provider runs |
| Releases.SingleFlight | examples/delegation/native/launch.ts:69-78 | Under any overlapping calls and failures the action runs at most once at a time and succeeds at most once |
| Releases.NativeRelease.Release | examples/delegation/native/launch.ts:69-78 | A call starts the action only when it neither succeeded nor is under way |
| Releases.NativeRelease.Settle | examples/delegation/native/launch.ts:73-74 | Success is final, failure allows another attempt |
| Releases.ExecutableGoesLast | examples/delegation/native/run.ts:136-142 | Under any failures, retries and overlapping callers the executable's release is not started before preparation, host and every allocation are released |
| Releases.RetrySucceeds | examples/delegation/native/run.ts:136-143 | However often it failed before, a release asked again succeeds, with everything released, once each part it awaits does |
| Releases.EachPartOnce | examples/delegation/native/run.ts:131-143 | Every part succeeds at most once, never runs twice at a time, and a successful release has released everything |

## Left out

- JSON numbers are integers: fractions, exponents, overflow to infinity and negative zero are not part of this model.
- Values passed to the bounded check are plain JSON data; accessors, symbols, prototypes and sparse arrays are not part of this model.
- EvidenceValues.AcceptedRoundTrips: objects have distinct keys, which every JavaScript object has.
- The planner `planDelegationStoreCommit` and all `parse*` functions of other packages are not part of this model; `SlotPlan.WellFormed` states what the store needs of a plan.
- SlotPlan.ApplyRefines: constraint failures of lists that are not well formed are not modelled; SQLite would abort such a transaction.
- Policy ceilings and their targets are insert-only tables with no slot; they would only add easy members.
- SlotStore.ReferenceStore.Commit: the texts' sizes and the disk the writes leave are parameters, since the canonical encoder of the other package and SQLite's page allocation are not part of this model; of the accounting only the reserved bytes are kept.
- SlotBytes.SlotRoundTrip: the JSON reader after the slot is modelled only by the trailing spaces it skips.
- SlotBytes.BytesHold: that a record's text parses back to the record is a premise, since its encoder and parsers are in another package.
- SQLite pragmas, write-ahead-log checkpoints beyond their failure, schema checks, migration and backup are not part of this model.
- Capacity.ReserveSuffices: other writers to the filesystem count as blocks the write takes.
- KeysetPages.StayingRowIsReturned: keys of a table are distinct and in order, as the primary keys and unique constraints make them.
- ObservationPages.ObservationsReturnedOnce: an omission has an index no retained observation has, as the planner assigns them.
- The operations read joins two tables; here its rows are one table in key order, and `SlotRecords.HeldOperation` says no id is in both.
- ScanPages.ScanIsExact: ids are compared as SQLite's binary collation compares their texts, which are ASCII.
- Cursor prefixes that bind a cursor to its store and query are not part of this model.
- InboxRuns.DispatchedAtMostOnce: counts calls of `lease.dispatch` by this code; what a host does inside one call is outside.
- ParentInboxes.ParentInboxContext.DispatchOne: models a turn nothing interrupts; interruptions at every await are covered by the steps of the inbox world.
- ParentInboxes.ParentInboxContext.DispatchPending: models a page nothing interrupts; interruptions at every await are covered by the steps of the inbox world.
- Receipts name their record by its key, not by its inbox id, which is unique to it.
- WorkerProtocol.ClosedIsTruthful: a worker exits 0 only when nothing keeps its process alive, as Node's event loop has it.
- The payload of a result is only valid or not; its field checks are not part of this model.
- DependencyGraphs.AssertDependencyGraphIdentity: installed files do not change during one check, and paths are compared as resolved.
- AdmissionObservers.AdmissionObserver.OnText: the UTF-8 length of a delta is a parameter no smaller than its characters.
- The approval, tool, delivery and configuration facts of a qualified report are field comparisons; only turns and sessions are modelled.
- The rest of the native host, `registry.ts`, `grok.ts`, `mapping-probe.ts`, file identity checks, hashing and process spawning are foreign calls.
- The teaching examples and test fixtures are thin callers and are not part of this model.
