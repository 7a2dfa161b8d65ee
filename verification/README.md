# V91 protocols in Dafny

A Dafny 4.11 model of the stateful protocols of the V91 control plane: the interop listener, the lease
manager, the two hash-chain ledgers, the shared work queue, the heartbeat registry, the autoscaler, the
stewardship gate with its report, the receipt store and the anomaly detector. `dafny verify dfyconfig.toml`
checks all of it.

## How it is built

Each component has a value-level state and a step function, and its main results are about every run of
those steps, with I/O failures and crashes between any two of them. Where the source changes objects or
files in place there is also a class whose methods follow the source's control flow; each method is proved
to do what the step functions say, so the results about runs are about it too. What the functions in these
results compute is said by lemmas of their own, member by member and with the numbers written out.

| files | component |
|---|---|
| `Text`, `JsonText`, `Digest`, `HostValues`, `Wrappers` | strings, JSON values and their canonical text, the hash, Python's view of parsed values |
| `Ledger`, `LedgerHistory`, `LedgerWriter` | `controller/ledger.py` |
| `Measurement`, `MeasurementProtocol` | `controller/measurement_core.py` |
| `LeaseHistory`, `LeaseLock` | `controller/lease_lock.py` |
| `WorkQueue`, `WorkQueueSafety`, `QueueWorker` | `controller/worker.py` |
| `Listener`, `ListenerSafety`, `ListenerProcess` | `controller/v91_listener.py` |
| `PeerSync` | `controller/peer_sync.py` |
| `RuntimeControl` | `controller/runtime_control.py` |
| `Enforcement`, `StewardshipReport` | `controller/enforcement.py`, `controller/stewardship_report.py` |
| `PeerStore` | `controller/peer_store.py` |
| `Anomaly` | `controller/anomaly.py` |

## Assumptions

- SHA-256 (FIPS 180-4) and HMAC (RFC 2104) are unknown functions to 64 hexadecimal characters. Where a
  result needs it, they are collision-free on the finite set of texts that occur in the runs compared, and
  no such text hashes to 64 zeros; both are hypotheses of the lemma, not axioms.
- Bytes and the UTF-8 text they encode are not told apart. JSON values are already parsed; a dict is its
  members in key order, a finite float is the text of its repr. The quote-scanner facts about canonical
  text are proved from the serialiser (string literals of section 7 of RFC 8259).
- Clocks, I/O outcomes, parsed files, directory listings, uuids and measurements are parameters. A line
  append or a transaction happens completely or not at all, but an error may still follow it.
- Scores, ages, confidences and samples are exact reals.
- One listener process; producers deliver complete files under names that are not in the inbox.
- The canonical text of an event that was parsed is not malformed JSON; where the listener's ids need it,
  this too is a hypothesis of the lemma.
- A stale lock file is removed only when no live process is inside; the module `MeasurementProtocol`
  shows what happens otherwise.
- Claimed task files get names never used before (the source uses a uuid).

## Where code and documentation disagree

The model follows the code.

- `tests/test_lease_lock.py:93-94` expects a released token to be fenced at once. `is_fenced` compares
  strictly (`controller/lease_lock.py:119`), so it is fenced exactly when the lock was granted again:
  `LeaseHistory.ReleasedTokenIsFenced`. Its actions are refused anyway, by `validate_action`.
- `renew` says it extends a lease (`controller/lease_lock.py:80`), and may also shorten it (`:91-92`):
  exactly when the new expiry is before the old one, `LeaseHistory.RenewalShortens`.
- The same head does not mean the same records: `compute_hash` covers only the text of `prev_hash`, `seq`
  and `timestamp`, and the payload (`controller/ledger.py:43`). `LedgerHistory.UnhashedDifferences` gives
  three different files with one head; `HeadDeterminesWrittenRecords` says when the records do agree,
  and `LedgerWriter.EqualHeadsEqualRecords` that they do for files that appends wrote.
- An append that raises after its line was written leaves the ledger object's cache behind the file, and
  the next append breaks the chain (`controller/ledger.py:92-97`). `LedgerWriter.CacheAgreesWithFile` says
  exactly when.
- A verified file whose last hash is a JSON integer of 64 decimal digits cannot be extended: comparing the
  next `prev_hash` with it raises. `LedgerWriter.IntegerHeadStops` is such a file,
  `LedgerWriter.AppendLinks` has the exact condition.
- `summarize` opens the ledger a second time without asking whether it exists
  (`controller/stewardship_report.py:29`), while `verify_chain` calls a missing file valid
  (`controller/ledger.py:28-29`). A gate on a new path has no file until a valid evaluation's append opens
  it, and until then the report raises: `StewardshipReport.SummarizeGate` and `NothingToReport`.
- The debounce counts stored observations. A busy sample whose state write fails is forgotten, and three
  low samples around it scale down: `RuntimeControl.ForgottenObservation`.
  `RuntimeControl.DebounceExactly` says exactly when the last three successful observations were low at a
  scale-down; `DebounceWhenStored` and `BenignRunsStore` say that they were while state writes succeed.
- `retrieve` does not look at a receipt's `encryption` member, so an issued MAC fixes the content but the
  owner only when that member has its constant value: `PeerStore.MacDeterminesReceipt`, with the two
  receipts in `PeerStore.OwnerCanMove`.
- `HOLD` is documented (`controller/enforcement.py:40`) and never returned.
- `receive` turns malformed messages into INVALID, except that a non-ASCII signature of 64 characters
  raises `TypeError` from `compare_digest` (`controller/peer_sync.py:205`): the outcome `Raised`, which
  `PeerSync.PeerRegistry.Receive` has exactly then and `PeerSync.SomeMessageRaises` brings about. The
  listener has the same comparison (`controller/v91_listener.py:74`); such a file is never recorded and
  stays in the inbox: `ListenerProcess.RaisingMeaning` and `WatchInbox`.

## Model

| member | source | states |
|---|---|---|
| JsonText.NoCanonicalSuffixAfterBar | controller/ledger.py:21-22 | No canonical JSON text has a bar followed by another canonical JSON text at its end |
| JsonText.DumpsInjective | controller/v91_listener.py:288-291 | Different JSON values have different canonical texts, so an event id identifies the event |
| JsonText.CanonicalIsOneLine | controller/measurement_core.py:168 | Canonical text has no newline, so a record is one line |
| JsonText.CanonicalShape | controller/measurement_core.py:109-110 | Canonical text is JSON as `json.dumps` writes it with these separators: the literals, numbers in decimal, `"key":value` without blanks |
| JsonText.EscapesAre | controller/measurement_core.py:109-110 | Which characters are escaped and how; every other one, non-ASCII too, stands for itself |
| JsonText.LiteralReadsBack | controller/measurement_core.py:109-110 | Undoing the escapes of a string literal gives the string it was written for |
| Text.DecimalReadsBack | controller/ledger.py:21-22 | The decimal text of a number reads as that number |
| Text.StripMeaning | controller/worker.py:118-120 | Stripping takes a blank front and a blank end, leaves no space at either side, and leaves nothing exactly of a blank text |
| HostValues.PythonView | controller/ledger.py:39-43 | How true, false, null and numbers print and compare: true equals 1 and prints as True |
| Ledger.PreimageUnique | controller/ledger.py:20-22 | The hashed text decodes uniquely, although timestamps and payload strings may contain bars |
| Ledger.PreimagePlaces | controller/ledger.py:20-22 | The hashed text begins with the predecessor's hash and a bar, then the number and a bar, and ends with a bar and the canonical payload |
| Ledger.CheckRecord | controller/ledger.py:36-49 | A record adds no error exactly when it links to its predecessor; exactly when each of the four kinds of error is added, and when the loop ends |
| Ledger.VerifyChain | controller/ledger.py:25-51 | Valid exactly when every record links recursively to its predecessor; the first error names the first line at which the file stops being a chain; the count is of the records up to a malformed line or of all |
| LedgerHistory.HeadDeterminesHistory | controller/ledger.py:25-51 | Two verified files with the same last hash hash the same records in the same order |
| LedgerHistory.HistoryDeterminesHead | controller/ledger.py:25-51 | The converse: the same hashed records give the same head |
| LedgerHistory.HeadDeterminesWrittenRecords | controller/ledger.py:82-98 | For files of records as append writes them, the head determines the records themselves |
| LedgerHistory.UnhashedDifferences | controller/ledger.py:41-46 | Three different verified files with one head: what the hash does not cover |
| LedgerWriter.AppendLinks | controller/ledger.py:84-97 | Appending from an agreeing cache keeps the chain exactly when the cached head is a string |
| LedgerWriter.NewRecordHolds | controller/ledger.py:84-91 | What an appended record says, field by field, and the text its hash is of |
| Ledger.RecordInOrder | controller/ledger.py:84-93 | An appended record has its keys in ascending order |
| LedgerWriter.StaleAppendBreaks | controller/ledger.py:84-97 | Appending from a cache behind the file breaks the chain |
| LedgerWriter.CacheAgreesWithFile | controller/ledger.py:54-98 | In every run of appends, failures and reopenings: the file verifies exactly when no append wrote from a stale cache, and the cache equals a full scan exactly when it is not stale |
| LedgerWriter.PrefixesVerify | controller/ledger.py:25-51 | Every prefix of a verified file verifies |
| LedgerWriter.RunOnlyAppends | controller/ledger.py:92-95 | No operation changes or removes an earlier line |
| LedgerWriter.FileIsCreatedByAppends | controller/ledger.py:57-67 | On a new path the file exists exactly when some append opened it; opening a ledger object creates none |
| LedgerWriter.RunsWriteAsWritten | controller/ledger.py:84-93 | Every record a run writes on a new path has the shape HeadDeterminesWrittenRecords asks for |
| LedgerWriter.EqualHeadsEqualRecords | controller/ledger.py:54-98 | Two ledgers written from new paths whose files verify and end with the same hash hold the same records |
| LedgerWriter.IntegerHeadStops | controller/ledger.py:41-46 | A verified file with a number as its last hash, which every next append breaks |
| LedgerWriter.HashChainLedger.Open | controller/ledger.py:57-67 | Opens exactly the verified files, with the count and head of a full scan |
| LedgerWriter.HashChainLedger.ReadHead | controller/ledger.py:69-76 | The last hash of a verified file |
| LedgerWriter.HashChainLedger.Append | controller/ledger.py:82-98 | The new file and cache for each way the write can end; a written line holds the payload and the timestamp it was given, with the cached number and hash; agreement and the chain are kept unless an error follows the write |
| Measurement.VerifyLedger | controller/measurement_core.py:118-143 | Succeeds exactly on a valid chain, with its length and last hash |
| Measurement.CheckRecord | controller/measurement_core.py:126-138 | A record passes exactly when it extends the chain |
| Measurement.ChainMeaning | controller/measurement_core.py:126-140 | In a valid file record i is numbered i, names the hash of the record before it, and carries the hash of that hash, a line feed and its other members |
| Measurement.HeadDeterminesRecords | controller/measurement_core.py:113-143 | Valid files with the same last hash hold the same records, member for member |
| MeasurementProtocol.RunsAreSafe | controller/measurement_core.py:146-177 | For any number of processes, failures and crashes: the ledger is always chain-valid, at most one process is inside the lock, what it verified equals the file, and reported appends are in the file at increasing numbers |
| MeasurementProtocol.RunsOnlyAppend | controller/measurement_core.py:167-170 | No run changes or removes a line or forgets a reported append |
| MeasurementProtocol.RecordHolds | controller/measurement_core.py:158-168 | The record built for a snapshot holds it with its time, number and hash, its keys in ascending order |
| MeasurementProtocol.ReportedAppendsHold | controller/measurement_core.py:158-171 | In every run each reported append names the line that one of the run's writes appended, and that line holds the snapshot and time of that write under the reported number and hash |
| MeasurementProtocol.RemovingALiveLockBreaksTheChain | controller/measurement_core.py:152-153 | Why the lock has to be inspected first: removing a live one breaks the chain |
| MeasurementProtocol.LedgerDirectory.AppendSnapshot | controller/measurement_core.py:146-177 | When it reports success, and that then the last line holds the snapshot and time it was given, the reported number and hash, and extends a valid chain; otherwise one pass of the machine |
| LeaseHistory.CurrentCarriesLastToken | controller/lease_lock.py:69-73 | The stored lease always carries the last issued token |
| LeaseHistory.GrantIsNumbered | controller/lease_lock.py:69-73 | Each grant has the token one above the number of earlier grants on its lock: 1, 2, 3 and so on |
| LeaseHistory.GrantsAreNumbered | controller/lease_lock.py:69-73 | Later grants on a lock have higher tokens |
| LeaseHistory.RenewalShortens | controller/lease_lock.py:79-94 | A renewal takes time from its holder exactly when the new expiry is before the old one |
| LeaseHistory.FencedIsNeverValid | controller/lease_lock.py:107-119 | A fenced token is valid for no holder |
| LeaseHistory.InvalidForever | controller/lease_lock.py:107-115 | Once refused for a granted holder and token, validate_action refuses it after every later call sequence |
| LeaseHistory.UnissuedTokenCanBecomeValid | controller/lease_lock.py:59-74 | The condition is exact: a token not yet issued can always become valid |
| LeaseHistory.ReleasedTokenIsFenced | controller/lease_lock.py:96-119 | A released token is fenced exactly when the lock was granted again |
| LeaseHistory.AdmittedTokensNeverDecrease | controller/lease_lock.py:107-115 | Admitted actions carry non-decreasing tokens, and one token's actions come from one holder |
| LeaseHistory.IntervalsNeverOverlap | controller/lease_lock.py:59-105 | The intervals from grant to release or last expiry never overlap on a lock |
| LeaseHistory.AdmittedInsideItsInterval | controller/lease_lock.py:107-115 | Every admitted action falls inside the interval of the grant that issued its token |
| LeaseLock.LeaseLockManager.Acquire | controller/lease_lock.py:59-74 | Grants exactly a free lock, with the next token, and changes that lock only; the maps stay what the log dictates |
| LeaseLock.LeaseLockManager.CurrentLease | controller/lease_lock.py:76-77 | The lease the log dictates |
| LeaseLock.LeaseLockManager.Renew | controller/lease_lock.py:79-94 | Succeeds exactly for the valid holder and token, changes only the expiry and issues no token |
| LeaseLock.LeaseLockManager.Release | controller/lease_lock.py:96-105 | Succeeds exactly for the current holder and token, expired or not, and removes that lease only |
| LeaseLock.LeaseLockManager.ValidateAction | controller/lease_lock.py:107-115 | Admits exactly what the log makes valid |
| LeaseLock.LeaseLockManager.IsFenced | controller/lease_lock.py:117-119 | Fenced exactly when a higher token was issued |
| WorkQueue.ValidateTaskEnvelope | controller/worker.py:104-120 | Accepts exactly the valid task documents for the id, and returns the action and the stripped notes, of 1 to 500 characters |
| WorkQueue.TaskAccepted | controller/worker.py:104-120 | Every document with the six members, its own id, one of the three actions and two notes is valid |
| WorkQueue.TaskRefused | controller/worker.py:107-119 | A document with any other member, id or action, or a note that is blank or too long, is not |
| WorkQueue.TaskIdMeaning | controller/worker.py:26 | A task id is one to eighty letters, digits, underscores and hyphens, each listed |
| WorkQueue.ClaimedUnderItsId | controller/worker.py:158-177 | A file submitted as id.json is claimed under a name that begins with the id and a dot, and its task is that id |
| WorkQueueSafety.RunsPlace | controller/worker.py:158-232 | With any number of workers and crashes every submitted file is in exactly one directory and claimed at most once |
| WorkQueueSafety.RunsKeepOrder | controller/worker.py:173-232 | What every run keeps about each busy worker: its file, the phases it logged and the result it relies on |
| WorkQueueSafety.DoneIsAudited | controller/worker.py:173-209 | A file in done was valid, the log holds exactly CLAIMED, STARTED and COMPLETED for it in that order, and the result on disk is the one it reported |
| WorkQueueSafety.RunsKeepSources | controller/worker.py:158-170 | In every run a claimed file keeps the name it was submitted under, and its own name begins with that name's stem and a dot |
| WorkQueueSafety.DoneUnderItsId | controller/worker.py:173-209 | A file submitted as id.json that reached done was a valid document of that id; the result under that id is its own, and its three log lines name that id |
| WorkQueueSafety.AtMostOneDone | controller/worker.py:86-89 | For each task id at most one file ever reaches done |
| WorkQueueSafety.ResultsNeverChange | controller/worker.py:81-101 | A completely written result is never replaced, changed or removed by any later step |
| WorkQueueSafety.RunsAreExclusive | controller/runtime_control.py:271-291 | At most one worker is between creating and removing the audit lock file |
| QueueWorker.TaskWorker.ClaimOne | controller/worker.py:158-170 | Claims the first listed file still there, finds none, or raises at a rename that fails otherwise |
| QueueWorker.TaskWorker.AppendAudit | controller/runtime_control.py:271-291 | One audit append is the machine's three lock steps; it succeeds exactly without contention or failure |
| QueueWorker.TaskWorker.AtomicResult | controller/worker.py:81-101 | Creating the result is the machine's two steps; it succeeds exactly for a valid id without a result |
| QueueWorker.TaskWorker.CheckOne | controller/worker.py:184-187 | Goes on exactly with a readable, small enough, valid task |
| QueueWorker.TaskWorker.Admit | controller/worker.py:178-193 | Claim line, check and start line as a run of the machine, and when they all succeed |
| QueueWorker.TaskWorker.Attempt | controller/worker.py:178-209 | The protected part is a run of the machine; it reaches done exactly when everything succeeds |
| QueueWorker.TaskWorker.HandleFailure | controller/worker.py:210-231 | The handler is a run of the machine; the failure result and the TASK_FAILED line are written when their I/O succeeds, the file goes to failed unless the rename fails, and when it raises |
| QueueWorker.TaskWorker.ProcessOne | controller/worker.py:173-232 | A whole poll is a run of the machine; a claimed file ends in done, with its result and its three log lines, exactly when everything succeeds, else in failed with a failure line and, if it had not run, a failure result; when the poll raises |
| QueueWorker.SubmittedIsDone | controller/worker.py:173-209 | From the submitted name to the result: a valid document submitted as id.json ends in done when every step works, with its result under id and three log lines that name id |
| Listener.ComputeConfidence | controller/v91_listener.py:162-179 | The score the routing compares with the threshold; the clamps to the unit interval never bind |
| Listener.PlainIsLonger | controller/v91_listener.py:174 | The text whose length the size penalty looks at is at least as long as the canonical text |
| Listener.PlainLengthIsExact | controller/v91_listener.py:174 | The length it looks at is that of the text `json.dumps` writes by default: blanks after separators and every non-ASCII character escaped |
| Listener.LowerMeaning | controller/v91_listener.py:171 | Lowering gives a text exactly when it is the same character by character, an ASCII capital 32 below |
| ListenerSafety.RunsAreSafe | controller/v91_listener.py:264-370 | The invariant of every run: rows match audit rows, files are conserved, and what left the inbox is recorded |
| ListenerSafety.ExactlyOnce | controller/v91_listener.py:326-361 | In every run an event id has a row in exactly one table if and only if it has exactly one audit row |
| ListenerSafety.FirstVerdictStands | controller/v91_listener.py:292-298 | The first verdict never changes: nothing later changes the row, removes it or adds one in another table |
| ListenerSafety.IdsNeverClash | controller/v91_listener.py:270-291 | Equal ids mean equal content, and malformed files never share an id with events |
| ListenerSafety.NothingIsLost | controller/v91_listener.py:343-370 | In every run each arrived file is still in the inbox or its id has the row decided for a file of the same content |
| ListenerSafety.AcceptanceMeaning | controller/v91_listener.py:90-159 | A file is accepted or queued exactly when it is a correctly signed, fresh event with a valid payload |
| ListenerSafety.EnvelopeReasons | controller/v91_listener.py:96-105 | Which reason refuses an envelope: the first failing check |
| ListenerSafety.SignalReasons | controller/v91_listener.py:107-128 | The same for signature, timestamp and payload |
| ListenerSafety.SchemaReasons | controller/v91_listener.py:144-159 | The same for a payload's members |
| ListenerSafety.VerdictReasons | controller/v91_listener.py:270-319 | Which reason a quarantine row gives: malformed JSON, else the envelope's, else the payload's |
| ListenerSafety.LatenessMeaning | controller/v91_listener.py:130-134 | A correctly signed event is too old exactly more than 300 seconds after its timestamp, and too early exactly more than 60 before it |
| ListenerSafety.RoutingMeaning | controller/v91_listener.py:162-179 | For every threshold the score is 1.0 less 0.4, 0.2 and 0.3 for a risky type in any case, data of more than 4096 characters and an unknown source; the event waits, with that score in its row, exactly when it is below the threshold |
| ListenerSafety.DefaultRouting | controller/v91_listener.py:162-179 | At the default threshold exactly the five risky types, in any case, and unknown sources wait for a human; size alone never matters |
| ListenerSafety.DeletesWait | controller/v91_listener.py:170-172 | The instance "DELETE" |
| ListenerSafety.SignedTextMeaning | controller/v91_listener.py:77-87 | The signed text is that of one JSON value only: payload, protocol, timestamp and version, keys ascending |
| ListenerSafety.SignatureBinds | controller/v91_listener.py:77-87 | A signature fixes timestamp and payload: it cannot be reused with a fresh timestamp |
| ListenerSafety.AcceptedWereSigned | controller/v91_listener.py:300-341 | Every ledger or review row comes from an arrived file that was correctly signed and fresh when judged, and holds its payload |
| ListenerSafety.QuarantineKeepsText | controller/v91_listener.py:353-362 | Every quarantine row keeps the text and hash of the arrived file it is about |
| ListenerProcess.RaisingMeaning | controller/v91_listener.py:264-302 | On which files parsing or a check raises |
| ListenerProcess.RaisingIsUnrecorded | controller/v91_listener.py:375-389 | Such a file's content is never recorded |
| ListenerProcess.FileIsDrained | controller/v91_listener.py:264-350 | Without failures every other file is removed, recorded before or not |
| ListenerProcess.PassIsARun | controller/v91_listener.py:385-389 | A pass is a run of the machine, so what holds of every run holds of it |
| ListenerProcess.InteropListener.Store | controller/v91_listener.py:326-341 | One transaction: a row and its audit row, or nothing |
| ListenerProcess.InteropListener.ProcessFile | controller/v91_listener.py:264-370 | One uninterrupted process_file is a run of the machine: check, decide, commit and unlink |
| ListenerProcess.InteropListener.WatchInbox | controller/v91_listener.py:375-389 | A pass is a run, changes no other file, and without failures leaves exactly the files that raise |
| PeerSync.CreatedIsAuthentic | controller/peer_sync.py:71-113 | A created heartbeat passes schema and signature checks of every registry that binds its key to its peer, and carries what it was created with, its capabilities in order |
| PeerSync.BadIdentityIsMalformed | controller/peer_sync.py:149-186 | A well-formed message stops being one with a member more or less, or another version, peer, key or sequence type |
| PeerSync.BadContentIsMalformed | controller/peer_sync.py:149-186 | The same for timestamp, software version, capabilities, state and signature |
| PeerSync.SortedInOrder | controller/peer_sync.py:108 | Sorted capabilities are in order |
| PeerSync.SignedTextMeaning | controller/peer_sync.py:64-68 | The signed text is that of one JSON value only: the object of the members other than the signature, keys ascending |
| PeerSync.SignedTextBinds | controller/peer_sync.py:201-204 | Equal signed texts agree in each of the eight signed members |
| PeerSync.SignatureBinds | controller/peer_sync.py:201-206 | Two authentic messages with one signature are the same message, unless the code collides on them |
| PeerSync.AlteredIsRefused | controller/peer_sync.py:201-206 | Changing any member of an authentic heartbeat but not its signature makes receive INVALID, whatever it has received and whatever its clock says |
| PeerSync.PeerRegistry.Create | controller/peer_sync.py:124-138 | A registry exists exactly for a positive maximal age and a skew that is not negative, with nothing received |
| PeerSync.SomeMessageRaises | controller/peer_sync.py:201-206 | For every usable trusted key some well-formed message makes receive raise |
| PeerSync.PeerRegistry.Receive | controller/peer_sync.py:145-226 | Not INVALID exactly for an authentic, not too early message with a higher sequence, which is then stored, ALIVE exactly within the maximal age; raises exactly on a non-ASCII signature past the earlier checks; an INVALID or raised outcome changes nothing |
| PeerSync.PeerRegistry.ReceiveAndTrack | controller/peer_sync.py:245-253 | Ends in the same state and with the same result as receive |
| PeerSync.PeerRegistry.MarkUnseenStale | controller/peer_sync.py:228-243 | Exactly the expired verified peers become stale |
| PeerSync.MarkingMeaning | controller/peer_sync.py:228-243 | Which peers become stale, by the time their heartbeat was accepted; nothing else changes |
| PeerSync.RunsKeepInvariant | controller/peer_sync.py:145-253 | Over any stream, receiver times even going backwards: counted sequences strictly increase per peer, the stored one is the last, ALIVE has an accepted time, and every counted message was signed with a bound key |
| PeerSync.NoReplay | controller/peer_sync.py:213-216 | No message is counted twice in a run |
| PeerSync.FreshnessBound | controller/peer_sync.py:208-243 | After marking, a peer still alive signed a heartbeat at most two maximal ages old, and it is the highest-sequence one counted |
| RuntimeControl.DecisionMeaning | controller/runtime_control.py:233-268 | When each action is decided, by the literal thresholds, and what the next count is; the target is one above or one below the observed count and within 1..3 |
| RuntimeControl.CountRead | controller/runtime_control.py:201-212 | The count read from the state file: none, the stored one, or three, and the JSON on which the read raises |
| RuntimeControl.Controller.AppendAudit | controller/runtime_control.py:271-291 | Under its lock file the log only grows; how the append ends and whether the lock file stays |
| RuntimeControl.Controller.ScaleWorker | controller/runtime_control.py:294-298 | Calls outside 1..3 are refused before anything runs |
| RuntimeControl.Controller.Act | controller/runtime_control.py:401-434 | Action, verification and rollback against each failure of the environment |
| RuntimeControl.Controller.RunCycle | controller/runtime_control.py:324-434 | One cycle's state file, acts, status and lock file are those of the specification |
| RuntimeControl.CallsAreAuthorised | controller/runtime_control.py:363-402 | In a cycle every call follows its DECISION line, with the opt-ins given, and asks for the observed count or one above or below it |
| RuntimeControl.ProposalsAreReported | controller/runtime_control.py:363-402 | What a logged decision says, opt-in and status too, and does: nothing without an action or opt-in, else a call for one above or below the observed count |
| RuntimeControl.BlindCycles | controller/runtime_control.py:332-362 | Without a measurement a cycle logs that and does nothing else; with an unreadable or unwritable state it raises before it logs |
| RuntimeControl.LocksAreReturned | controller/runtime_control.py:271-291 | A cycle that can remove its lock files leaves none; one that was there stays |
| RuntimeControl.EndsAreObserved | controller/runtime_control.py:401-434 | ACTION_VERIFIED and ROLLED_BACK only when the last observation shows the target that was asked for or the original count, all of it running, and the last line says so |
| RuntimeControl.UnverifiedIsRolledBack | controller/runtime_control.py:415-434 | A cycle that called scale_worker and did not end verified asked last for the original count |
| RuntimeControl.RunsAreAuthorised | controller/runtime_control.py:324-434 | In every run each call is within 1..3 and authorised by the latest DECISION line before it |
| RuntimeControl.CounterIsStreak | controller/runtime_control.py:201-268 | The persisted counter is always 0, 1 or 2: the length of the low streak modulo three |
| RuntimeControl.ScaleDownExactly | controller/runtime_control.py:250-261 | A scale-down is decided exactly at every third stored observation of an unbroken low streak |
| RuntimeControl.ScaleDownNeedsThreeLow | controller/runtime_control.py:250-261 | The last three stored observations were low, with two or three replicas |
| RuntimeControl.ScaleDownsAreDisjoint | controller/runtime_control.py:250-261 | These three are disjoint from those of every earlier scale-down |
| RuntimeControl.DebounceExactly | controller/runtime_control.py:360-362 | At a scale-down the last three successful observations were low exactly unless a busy one among them was forgotten |
| RuntimeControl.DebounceWhenStored | controller/runtime_control.py:201-268 | They were low in every run that stored all successful observations |
| RuntimeControl.BenignRunsStore | controller/runtime_control.py:201-230 | All are stored while state writes succeed, even if the file disappears or becomes unreadable |
| RuntimeControl.ObservedAreDisjoint | controller/runtime_control.py:250-261 | The last three successful observations at a scale-down are disjoint from those of every earlier one, stored or not |
| RuntimeControl.StoredAreObserved | controller/runtime_control.py:360-362 | The stored observations are all successful ones exactly when none failed to be stored |
| RuntimeControl.ForgottenObservation | controller/runtime_control.py:360-362 | Without that, low, low, busy, low scales down |
| Anomaly.AnomalyDetector.Create | controller/anomaly.py:15-29 | Built exactly for a window of at least five and a positive threshold, with empty windows |
| Anomaly.AnomalyDetector.Detect | controller/anomaly.py:31-60 | The answer against the earlier values, and the new window |
| Anomaly.SquaresCompareZScores | controller/anomaly.py:49-57 | Comparing squares is comparing the z-score, for any standard deviation |
| Anomaly.ZeroVariance | controller/anomaly.py:53-54 | Variance is zero exactly when all window values are equal |
| Anomaly.VarianceByPairs | controller/anomaly.py:50-52 | n (n - 1) times the variance is the sum of the squared differences of all pairs, so it is the sample variance |
| Anomaly.BaselineIsFive | controller/anomaly.py:49-54 | With an unchanging history exactly a different value is an anomaly, from five values on |
| Anomaly.AnswerIsAffineInvariant | controller/anomaly.py:49-57 | One answer does not depend on unit or origin of the scale |
| Anomaly.RunIsAffineInvariant | controller/anomaly.py:31-60 | Over whole runs an affine change of one metric's samples leaves every answer unchanged |
| Anomaly.WindowsHoldLatest | controller/anomaly.py:25-29 | Each window is the last at most window_size accepted values of its own metric |
| Anomaly.WindowsAreEnds | controller/anomaly.py:25-29 | Each window is an end of the accepted values, all of them or window_size many |
| Enforcement.StewardshipGate.Evaluate | controller/enforcement.py:39-64 | One step of the gate's runs: the decision, the remembered state and the ledger entry, for each way the append can end |
| Enforcement.ProposalMeaning | controller/enforcement.py:30-37 | A proposal is valid exactly with its four inputs, each an int or a float in [0, 1] |
| Enforcement.VetoMeaning | controller/enforcement.py:44-46 | A human impact from 0.5 on, and nothing else, is a rejection; the texts of the decisions |
| Enforcement.EntryHolds | controller/enforcement.py:54-61 | What a gate entry says: target, the four inputs, the score by its literal weights, the decision, and not executed |
| Enforcement.EntryInOrder | controller/enforcement.py:54-61 | Its keys are in ascending order |
| Enforcement.HysteresisExact | controller/enforcement.py:44-52 | Approved exactly when some evaluation scored above 0.7 and from it on none had a human impact from 0.5 or a score below 0.5 |
| Enforcement.GateIsHysteresis | controller/enforcement.py:39-64 | A gate's whole run is active by exactly that rule, whatever its ledger did |
| Enforcement.GateRunIsLedgerRun | controller/enforcement.py:54-63 | A gate's run is a run of ledger appends |
| Enforcement.GateCreatesFile | controller/enforcement.py:26-28 | A gate's ledger file exists exactly when some valid evaluation's append opened it |
| StewardshipReport.Summarize | controller/stewardship_report.py:11-54 | The counts of a verified ledger's entries; what an invalid file gives, and the errors for an absent or unreadable one |
| StewardshipReport.ReadTotals | controller/stewardship_report.py:24-41 | The loop's totals, or the error on a payload that is not a dict |
| StewardshipReport.TotalsAreCounts | controller/stewardship_report.py:24-41 | The accumulated counter equals the number of entries of each decision |
| StewardshipReport.EntryIsCounted | controller/stewardship_report.py:31-40 | What one record adds: its decision, UNKNOWN_DECISION without one, a veto only for REJECTED_HUMAN_IMPACT, an execution only for true |
| StewardshipReport.GateEntries | controller/enforcement.py:54-63 | A gate's fresh ledger lists its recorded decisions in order |
| StewardshipReport.SummarizeGate | controller/stewardship_report.py:11-54 | On a gate's new ledger a report is given exactly when some valid evaluation's append opened the file: its decision counts, summing to the total, none executed |
| StewardshipReport.NothingToReport | controller/stewardship_report.py:29 | After no evaluation, only invalid ones or failed opens there is no file |
| PeerStore.MacDeterminesContent | controller/peer_store.py:54-62 | A receipt with an issued MAC that leads to stored content leads to the issued content, bars in ids or not |
| PeerStore.CanonicalInFull | controller/peer_store.py:54-62 | The text the MAC of an issued receipt is of |
| PeerStore.ForeignIsRefused | controller/peer_store.py:118-126 | A receipt of another store or algorithm, or with a member missing, is refused whatever its MAC |
| PeerStore.MacDeterminesReceipt | controller/peer_store.py:116-129 | It is the issued receipt exactly when its encryption member is the constant |
| PeerStore.OwnerCanMove | controller/peer_store.py:54-62 | Two receipts with different owners, one MAC and one canonical text, accepted alike |
| PeerStore.IssuedIsRetrievable | controller/peer_store.py:116-136 | An issued receipt is honoured exactly as long as the stored bytes have their digest |
| PeerStore.RunsOnlyGrow | controller/peer_store.py:83-107 | Over any run of stores and corruptions no object disappears and the count never falls |
| PeerStore.RunsReturnTheIssued | controller/peer_store.py:116-136 | In every run, whatever was corrupted, an issued MAC leads to the very bytes it was issued for |
| PeerStore.PeerObjectStore.Create | controller/peer_store.py:68-77 | A store exists exactly with opt-in, a name and a secret of 32 bytes |
| PeerStore.PeerObjectStore.Store | controller/peer_store.py:83-107 | Never replaces other data under a digest, issues the receipt with the literal members and the MAC of its text, and the object count never falls |
| PeerStore.PeerObjectStore.IsAvailable | controller/peer_store.py:109-114 | True exactly when retrieve honours the receipts this store issues for the digest |
| PeerStore.PeerObjectStore.Retrieve | controller/peer_store.py:116-136 | When it succeeds; never bytes of another digest, and for an issued MAC the very bytes it was issued for |

## Left out

- LedgerHistory.HeadDeterminesHistory: the hashed parts of the records agree, not the whole records, because `compute_hash` covers no more; `HeadDeterminesWrittenRecords` adds the condition under which they do.
- QueueWorker.TaskWorker.ProcessOne: one worker without interruption; interleaving workers and crashes are in `WorkQueueSafety`.
- ListenerProcess.InteropListener.WatchInbox: the order of the listing is any order, and files that arrive during the pass wait for the next one.
- MeasurementProtocol.LedgerDirectory.AppendSnapshot: one process without interruption; several processes and crashes are in the machine.
- PeerSync.FreshnessBound: counts only heartbeats that passed every check, as the registry keeps nothing about the others.
- Anomaly.RunIsAffineInvariant: exact arithmetic, so rounding near the threshold is not covered.
- SHA-256, HMAC, Ed25519 and AES-GCM internals, `encrypted_store.py`, `crypto_receipts.py`, `signed_manifest.py`.
- NaN and infinities in JSON, lone surrogates, invalid UTF-8 in ledger files (on which `verify_chain` raises although it says it never does), integers too large for a float.
- Reason texts, log messages, audit details, rounding of scores and percentages (`decision_percent`), `get_stats`, `measure_effect`, `parse_percent`, `collect_snapshot`, `metric`, `health_check`.
- Docker, subprocess, sqlite connections, fsync, temporary files of `write_state`: outcomes given as parameters. The table `v91_lernblock` and the human side of the review queue.
- What a task computes (`execute_task`, `workspace_file`, `sha256_file`): its result is a parameter.
- Inherited database rows: the listener's runs start from empty tables and an empty inbox.
- A clock that goes backwards for leases, and restarts of the lease manager, which forget all leases.
- Liveness beyond one listener pass: nothing says that a contended audit lock is ever free or a crashed worker's file is ever picked up again.
- Gates and validators with a single decision, `model_runner.py`, `replay_session.py`, the dashboard, rule texts, simulations and scripts.
