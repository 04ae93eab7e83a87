# medXfer: a Dafny model of what its receiver, pairing and naming code promises

medXfer sends files between devices of one local network. This project models the parts of it whose
correctness is hard to see in one function, and proves what they are for:

- **Receiving a file that survives a crash** (`StoreWorld`, `StoreSafety`, `StoreRecords`, `StoreSync`,
  `StoreLoss`, `StoreFile`, `Batch`, `GroupCommit`). A file arrives as chunks in `<name>.part`; a journal
  `<name>.part.state` names the chunks that are durable; the file gets its name once it is whole.
  `StoreWorld` cuts every operation into system calls and locked sections, interleaved with the writers, with a kill or a power loss
  between any two. `StoreFile.File` is the object whose methods make those calls; each call logs the step
  it is, so what is proved of every run holds at each point of each method.
- **Pairing** (`Pin`, `PinOnDemand`, `PinDemandRuns`, `Ble`, `BleRuns`, `Trust`, `TrustPair`, `Exchange`, `NegotiatePair`). The bound on
  guesses of a PIN shared by all connections, attempts made over Bluetooth, the negotiation of mutual
  trust and of the recognition key both sides keep.
- **The admission gate** (`Gate`, `GateRuns`): a sliding-window rate limiter that counts running
  handshakes in the quota.
- **Offers and codecs** (`Offer`, `Paging`, `LengthValue`): validation against a pairwise specification,
  cutting an offer in pages and putting it together, canonical length-value strings.
- **Names and places** (`Naming`, `Place`, `RootDir`, `Discovery`): numbered names that never meet, where a
  file goes and whether opening it there agrees, the root folder of a transfer, one entry per device.

Where the source changes an object in place, the model is a class with the same fields, whose methods
are proved against functions on values; whole runs are sequences of events over those values. `StoreFile`
logs each system call as an event of its runs; each method of `Ble` is shown to be a sequence of events
of `BleRuns`; the loop of `Exchange.Negotiate` is the function that `NegotiatePair` runs on both devices.

## What is assumed

- The disk. A successful fsync makes durable what was written before it began; a failed one leaves the
  data for a later one. Name operations persist in the order they were made: a crash leaves one of the
  name states since the last folder fsync. After a crash a journal slot reads as a record once written in
  that journal, or as invalid (its CRC); a chunk not yet synced may read as anything. A chunk is written
  again only with the same bytes (`WriteFits`).
- SHA-256, HMAC, the curve and the AEAD are functions given as parameters, or the outcome of a check is.
  Equality of inputs is all that is used.
- Any system call may fail. The parameter `io` of a method says whether calls may fail of themselves: without
  such failures its contract says exactly when it succeeds.
- The clock, the random source and the network are parameters of each event. The clock does not go back
  between the acts of one side.
- Letter case is folded by a function with the laws of `Naming.CaseFold`: a text folds piece by piece at
  ASCII bytes; digits, spaces and brackets have no case; no letter folds to a slash or to a letter of
  `.tar.gz` and its like except that letter's own upper case.

## Where the code and its comments disagree

The model follows the code. Each of these has an input that shows it, and the exact condition:

- `Offer.Chunks` counts on 32 bits, so the rule of 2^24 chunks lets some files of 2^32 chunks or more
  through: `Offer.OneSlips` is such an offer, `Offer.SlipsThrough` says which sizes pass, and
  `Offer.ChunkRuleExactly` and `Offer.ValidateAsMeant` that these are all.
- `PINOnDemand.Close` forgets a stop that no demand has seen yet: `PinOnDemand.CloseForgetsTheStop`, and
  exactly then by `PinOnDemand.StopHoldsUnlessClosedFirst`.
- A dangling symbolic link named as the journal or as the data makes `Open` report a foreign file under a
  name that `Resolve` gave, and in the second case removes the transfer's own journal:
  `Place.DanglingLinks` are the two, and `Place.ForeignExactly` and `Place.ResolveAndOpen` say that no
  other case exists.
- After a double offer an offer lasts up to 120 s as a yes, not 60: `Trust.DoubleOfferLastsLonger` for
  every such time, and never otherwise by `Trust.WrittenOnOldYesExactly`.
- `negotiate` can report no trust although it was written: `Exchange.CommitUnsent` and
  `Exchange.OfferedAgain` are two such courses, and `Exchange.UnreportedExactly` says which messages lead
  to it.
- Two devices can each end `negotiate` with the key settled and hold two keys, when one of them, slow,
  looks at what it awaits once its accept is over: `NegotiatePair.TwoKeys`; exactly when, by
  `NegotiatePair.SettledExactly`.
- After a kill between the write of records and their fsync, a session that commits nothing more closes
  without syncing its journal: what it names is safe from a kill and not from a power loss
  (`StoreLoss.LostAfterClose`).
- No folder is synced after `.part` and `.part.state` are made, only after a rename: until then a power loss
  may take a new file back to nothing, all that was committed and synced included, and not twice CommitBytes
  as the comment on the group commit has it (`StoreLoss.NamesLost`; `StoreSync.UnsyncedFolderLosesAll` for
  every run).
- What a Close leaves after a crash is told for each name state the crash may leave by
  `StoreSync.ClosedSurvivesExactly` (the journal's fsyncs) and `StoreSync.ClosedNamesExactly` (which states
  those are); `StoreSync.ReopenedHas` says that it is what Open then gives.

## Model

| member | source | states |
|---|---|---|
| `StoreSafety.InvariantJ` | pkg/store/store.go:305-339 | After any run of any number of sessions, failed and retried commits included, and one more crash, a chunk the journal is read to name is on the disk and reads with the hash the journal gives |
| `StoreSafety.StepKeepsSafe` | pkg/store/store.go:404-541 | Every system call, locked section, kill or crash keeps: every record ever written in a journal is backed by durable bytes of the data it goes with, and a final name leads to a whole file |
| `StoreSafety.CrashKeeps` | pkg/store/store.go:305-339 | A crash that loses any unsynced data, tears any unsynced slot and falls back to any earlier name state keeps the invariant |
| `StoreSafety.SyncEndKeeps` | pkg/store/store.go:514-520 | Once the fsync of the data succeeds, every record taken before it began names durable bytes, whatever the writers did meanwhile |
| `StoreSafety.WriteRecordsKeeps` | pkg/store/store.go:531-533 | A write of records, torn or not, notes only chunks already durable |
| `StoreSafety.MakePartKeeps` | pkg/store/store.go:244-254 | New data is never paired with the journal of older data, in any name state a crash may leave |
| `StoreSafety.NamedOnlyWhole` | pkg/store/store.go:630-684 | In every crash state of every run the final name has what it had before, or the whole file, each chunk durable with the bytes of the hash it was sealed with |
| `StoreSafety.SealKeeps` | pkg/store/store.go:391-402 | The hashes a complete file is sealed with are those of the bytes written, resumed chunks that were never read again included |
| `StoreRecords.NoChunkLost` | pkg/store/store.go:489-541 | In every state of every run each chunk the process has is in the journal up to its end, in the commit in flight or pending, with the hash of the bytes written |
| `StoreRecords.CloseThenOpen` | pkg/store/store.go:560-584 | Nothing pending and no commit running, leaving and opening again gives back the same chunks and hashes, after any history of failures |
| `StoreRecords.NoteNamesEveryChunk` | pkg/store/store.go:661-684 | After a failed rename whose note succeeded, the journal up to its end names every chunk of the file and the data is whole |
| `StoreRecords.CommitSyncs` | pkg/store/store.go:535-540 | A commit that succeeded leaves its journal synced to its end, and it stays so through the session |
| `StoreSync.ClosedSurvivesExactly` | pkg/store/store.go:560-584 | Where a crash after a Close leaves both names, all that the session had is to be resumed, whatever else is lost, if and only if an fsync of the journal succeeded in the session or each chunk it had when opened had a record already synced; where it leaves out a name, nothing is |
| `StoreSync.OpenGives` | pkg/store/store.go:156-256 | Whatever way Open takes, a session it gives has exactly what there was to resume |
| `StoreSync.ReopenedHas` | pkg/store/store.go:156-256 | After any run and a crash, the session opened has what the name state left by the crash gives to resume |
| `StoreSync.SyncedChunksReadAgain` | pkg/store/store.go:180-213 | With the journal synced and nothing pending, after any crash that leaves both names, Open gives every chunk the process had, with its hash |
| `StoreSync.ClosedNamesExactly` | pkg/store/store.go:654-657 | After a Close every crash leaves both names if and only if only such states were left when the session began, or the folder was synced in the session once both names led to its files |
| `StoreSync.UnsyncedFolderLosesAll` | pkg/store/store.go:244-289 | As long as no rename has the folder synced, a crash is possible after which nothing of a new file is to be resumed, after any number of sessions, commits and kills |
| `StoreLoss.LostAfterClose` | pkg/store/store.go:560-584 | A session killed before the journal's fsync, a second one that opens with the chunk and closes with nothing to commit, a power loss: the chunk is durable and its record gone |
| `StoreLoss.NamesLost` | pkg/store/store.go:560-584 | A first session that commits with every fsync and closes, a power loss that takes back the names: the file opens empty |
| `StoreRecords.StepKept` | pkg/store/store.go:404-541 | No step of any kind loses the record of a chunk the process has, nor unlinks its names, until the file is named or given up |
| `StoreFile.File.WriteChunk` | pkg/store/store.go:404-420 | A chunk of the right index and length is written, then had and pending; any other or a failed write changes neither; where no call fails of itself, exactly the fitting chunks of an open file succeed |
| `StoreFile.File.Writers` | pkg/store/store.go:404-420 | Any number of writers at work while a system call runs: what was had stays had, what was pending stays first |
| `StoreFile.File.SyncPart` | pkg/store/store.go:515-519 | The fsync of the data with writers going on; only its success lets the records be written |
| `StoreFile.File.EnsureJournal` | pkg/store/store.go:267-289 | A journal with its header exists after success and is kept if there was one; after failure the file has none; where no call fails of itself it succeeds exactly if there is one or its name is free |
| `StoreFile.WriteSlots` | pkg/store/store.go:531-533 | A write at the journal's end leaves the slots before it, and writes all the records or a beginning of them, the last one perhaps torn |
| `StoreFile.File.CommitBatch` | pkg/store/store.go:514-541 | Data synced, then records written, then journal synced: success notes every record of the batch durably, failure leaves the batch to be put back; it succeeds exactly if the data is open and the journal there or to be made, when no call fails of itself |
| `StoreFile.File.Commit` | pkg/store/store.go:489-512 | Success puts every record that was pending in the journal, synced; failure keeps them all pending, before those noted since; when no call fails of itself it succeeds if and only if nothing is pending, or the data is open and the journal there or to be made |
| `StoreFile.File.FinishBackground` | pkg/store/store.go:514-541 | The background commit taken to its end from any point of it: its batch noted and synced, or given back to pending; from which points it must succeed when no call fails of itself |
| `StoreFile.File.Settle` | pkg/store/store.go:473-487 | Waits for the background commit and gives its error, or one left before, once; nothing had is lost; it succeeds exactly when no error was left and the commit can be finished, when no call fails of itself |
| `StoreFile.File.NotePending` | pkg/store/store.go:543-558 | After a failed rename, success leaves a journal that names every chunk; the names are not touched otherwise; it succeeds exactly if the journal is there or to be made, when no call fails of itself |
| `StoreFile.File.Close` | pkg/store/store.go:560-584 | A second Close does nothing; the first fails when the background left an error, and when it succeeds with no writer at work leaves a journal from which everything had is read back; that journal is synced if and only if a commit was running, something was pending, the journal was still to be made, or it was synced before; when no call fails of itself, exactly what makes it fail |
| `StoreFile.File.Hashes` | pkg/store/store.go:391-402 | Gives the hash of every chunk exactly when no chunk is missing |
| `StoreFile.File.Publish` | pkg/store/store.go:661-684 | A rename happens only over a free name unless overwriting, and names whole data; otherwise the names are kept and the journal notes what is there; when no call fails of itself, the rename succeeds exactly over a free name or overwriting |
| `StoreFile.File.Finalize` | pkg/store/store.go:625-659 | From any point of a background commit. Success: the name leads to the whole file with the hashes had at the call; any failure: the name leads to what it did, and the file is resumable if the note succeeded; when no call fails of itself, which of the answers it gives, and a file done is so in every name state a crash may leave |
| `StoreFile.File.DropJournal` | pkg/store/store.go:686-693 | Only the journal's name goes, and only after the file has its own |
| `StoreFile.File.Discard` | pkg/store/store.go:711-723 | The partial file and its journal go, unless a removal fails of itself; the final name is not touched, and a file already named stays whole |
| `StoreFile.ReadRecords` | pkg/store/store.go:313-335 | The loop reads the records up to the first invalid or out-of-range one, the last of a chunk winning, in their order |
| `StoreFile.File.Load` | pkg/store/store.go:305-339 | The journal is cut after its last valid record and what it names is had; a header not of this transfer gives the foreign answer, a failure an error, and neither changes anything |
| `StoreFile.Recheck` | pkg/store/store.go:341-371 | The last 8 different chunks the journal declares, or all of them, are read again: exactly those that do not read with their hash are given up |
| `StoreFile.File.Verify` | pkg/store/store.go:341-371 | With honest fsyncs that check gives up no chunk the journal names |
| `StoreFile.File.Resume` | pkg/store/store.go:180-213 | A journal of this transfer with its data gives exactly the chunks it names; without its data it is removed and the file starts over |
| `StoreFile.File.Open` | pkg/store/store.go:156-256 | A session with exactly what there is to resume, or a new one; foreign if and only if the partial file does not read as this transfer's outside its own folder, and then nothing changes; a session always, otherwise, when no call fails of itself |
| `StoreFile.File.RemoveStale` | pkg/store/store.go:256-267 | Data first, then journal; the final name is not touched |
| `StoreFile.PauseAndResume` | pkg/store/store.go:560-584 | Close, then Open: the same chunks with the same hashes; both succeed when no call fails of itself |
| `Batch.Batch.Add` | pkg/store/batch.go:41-54 | A file joins exactly when it is complete and not closed, its background commit awaited, sealed with its hashes; otherwise it is left as it was |
| `Batch.Batch.SyncAll` | pkg/store/batch.go:76-84 | One syncfs makes all durable, or each file alone; every file says which, and all are when no call fails of itself |
| `Batch.Batch.Flush` | pkg/store/batch.go:62-106 | Each file's name leads to the whole file it was sealed as, or to what it did before; no file is named whose data is not durable; the batch is empty; when no call fails of itself, each file is named if its name is free or to be overwritten |
| `GroupCommit.UnjournaledBound` | pkg/store/store.go:422-512 | In every state of every interleaving the bytes written and not yet in the journal, but those a commit failed on and that wait to be tried again, stay under twice CommitBytes and three chunks for each writer; each failure adds less than CommitBytes and two chunks for each writer; at most one background commit runs |
| `GroupCommit.AgainStep` | pkg/store/store.go:489-512 | A failed commit gives back no more than it took, and after a successful one nothing that failed before is left |
| `GroupCommit.StepKeeps` | pkg/store/store.go:431-471 | The bound of each phase (no commit, started, taken) is kept by every write, note, look, wake, take and end, failed or not |
| `GroupCommit.TakeKeeps` | pkg/store/store.go:492-499 | What a commit takes is under CommitBytes and two chunks for each writer |
| `GroupCommit.EarlyCommitsPay` | pkg/store/store.go:431-442 | Before the interval passes no commit is begun for less than CommitBytes: in any interleaving those begun are never more than the bytes noted make whole CommitBytes |
| `GroupCommit.AllCommittedAtRest` | pkg/store/store.go:431-471 | When every writer looks after the interval and no commit fails, then in any interleaving, once the writers are done and no commit runs, every byte written is in the journal |
| `GroupCommit.ErrorsTold` | pkg/store/store.go:431-471 | After a failed commit its error waits or was given to a writer, in any interleaving, and no more errors are given than commits failed |
| `Pin.PinObject.Begin` | pkg/pairing/pin.go:163-175 | The new state, whether an attempt is given and on which code; over runs `PinRuns.BeginsExactly` says when |
| `Pin.PinObject.End` | pkg/pairing/pin.go:177-217 | The new state of the PIN after a success or a failure: count, destruction, new code, wait, stop; and when the redraw is due |
| `Pin.PinObject.RedrawAfterDelay` | pkg/pairing/pin.go:219-232 | A redraw that comes after a success or a close draws nothing |
| `Pin.PinObject.Close` | pkg/pairing/pin.go:234-244 | No code and no redraw remain |
| `PinRuns.GuessBound` | pkg/pairing/pin.go:166-244 | Over every interleaving of attempts, the redraw timer and Close, at most Attempts x 3 x MaxSeries attempts begin |
| `PinRuns.BeginsExactly` | pkg/pairing/pin.go:166-175 | In every run an attempt begins if and only if the PIN is not paired, closed or used up, the failures so far destroyed no code but those before the last drawn, that was drawn less than its lifetime ago, and fewer than Attempts began for each code drawn; and it is on the last code drawn |
| `PinRuns.AliveExactly` | pkg/pairing/ondemand.go:31-52 | In every run the PIN is alive if and only if nobody paired or closed it, the failures did not use it up, and the lifetime of its code, or of the one awaited, has not passed; it is stopped exactly when the failures used it up |
| `PinRuns.WaitsExactly` | pkg/pairing/pin.go:177-217 | In every run a failure waits for its new code exactly if it ends a series other than the last, and as long as the series before it make due: doubled each time, up to the limit |
| `PinRuns.EndCountsOnItsCode` | pkg/pairing/pin.go:166-217 | An attempt in progress while a code is valid is on that code, so its end is counted on the code its beginning returned |
| `PinRuns.NothingAfterSuccess` | pkg/pairing/pin.go:180-232 | After a success no code is drawn, none is valid and no attempt begins, in any continuation |
| `PinRuns.NothingAfterClose` | pkg/pairing/pin.go:219-244 | The same after Close and after the stop |
| `PinRuns.LastAttempt` | pkg/pairing/pin.go:196-200 | The failure that destroys a code is the end of the last attempt open on it, and the code took all its attempts |
| `PinOnDemand.Source.Get` | pkg/pairing/ondemand.go:69-94 | The PIN on screen while it lives, untouched; a new one when it does not; none once a stop was seen |
| `PinOnDemand.Source.Current` | pkg/pairing/ondemand.go:95-105 | The PIN on screen while it lives, none otherwise, drawing none |
| `PinOnDemand.CurrentIsWhatGetGives` | pkg/pairing/ondemand.go:69-105 | The PIN Current gives is the one a demand at that moment would be answered with, unchanged |
| `PinOnDemand.SeenStopHolds` | pkg/pairing/ondemand.go:69-112 | A stop once seen by a demand holds through demands and closes, and ends exactly at the user's Reset |
| `PinOnDemand.StopHoldsUnlessClosedFirst` | pkg/pairing/ondemand.go:69-126 | After the PIN on screen stopped, demands stay refused if and only if there is no Reset and what comes first, if anything, is a demand and no Close |
| `PinOnDemand.CloseForgetsTheStop` | pkg/pairing/ondemand.go:115-126 | A stopped PIN, Close, a demand: a new PIN with all its attempts |
| `PinDemandRuns.SeenStep` | pkg/pairing/ondemand.go:69-126 | Each event of the runs is Get, Close or Reset as the source makes it, or changes only the PIN it is on |
| `PinDemandRuns.GuessesPerPin` | pkg/pairing/ondemand.go:69-126 | However demands, closes, resets, attempts and timers on all PINs ever given mix, the attempts begun are at most Attempts x 3 x MaxSeries for each PIN given |
| `PinDemandRuns.DemandGivesExactly` | pkg/pairing/ondemand.go:69-94 | After any run what a demand is answered, told by what happened to the PIN held: none more once its failures used it up; that PIN while it lasts; otherwise a new one with all its attempts, if it can be drawn |
| `PinDemandRuns.AskingAgainAddsNoPin` | pkg/pairing/ondemand.go:69-94 | Demands while a PIN is alive give no other, whatever attempts come between them: the guesses of such a run are those of one PIN |
| `PinDemandRuns.NothingAfterStop` | pkg/pairing/ondemand.go:69-94 | After a stop no PIN is given and no attempt begins on any, in any continuation without a Reset and without a Close before a demand saw the stop |
| `Ble.Conn.Receive` | pkg/pairing/ble.go:503-528 | Any message: taken if and only if it is one awaited at that stage, of the right sizes, in time and right; an attempt in progress is confirmed once or failed once and never left; a new one is counted once; a refusal closes the connection and leaves the screen; all of it is a sequence of the events of BleRuns |
| `Ble.Conn.PinWantedBy` | pkg/pairing/ble.go:632-664 | Refused while another connection's request is on screen and young; otherwise that one is refused and this one takes its place |
| `Ble.Conn.PinTypedIn` | pkg/pairing/ble.go:666-691 | A PIN typed too late, after a refusal, malformed or of an unknown suite costs no attempt; otherwise one is begun, and ended at once if the message is then refused; it is answered exactly when nothing of it is wrong |
| `Ble.Conn.Confirm` | pkg/pairing/ble.go:693-721 | Authenticates exactly when the tags hold on a counted attempt that was not refused; the attempt is ended with that outcome |
| `Ble.Conn.Close` | pkg/pairing/ble.go:534-557 | A connection that goes fails its attempt, if any, and leaves the screen: the three events of a close in BleRuns |
| `Ble.Conn.Answer` | pkg/pairing/ble.go:732-760 | Once, after authentication, with a network exactly when this device created it |
| `Ble.Responder.RefusePin` | pkg/pairing/ble.go:441-447 | The connection on screen is refused, as the event of BleRuns for every connection |
| `BleRuns.AttemptsConserved` | pkg/pairing/ble.go:503-557 | Whatever messages, refusals and closes arrive on any connections, each connection begins at most one attempt, ends none twice, and has ended it when it authenticates or closed |
| `BleRuns.OneRequestOnScreen` | pkg/pairing/ble.go:632-721 | At most one connection not refused is between its request of a PIN and its confirmation, and it is the one the responder shows |
| `BleRuns.SharedGuessBound` | pkg/pairing/ble.go:668-721 | The bound on guesses holds for each PIN with Bluetooth and network attempts together |
| `Trust.TrustTalk.HandleMessage` | pkg/pairing/mutual.go:132-177 | The new state, the reply, the event and what is written in the list, for each message in each state, delays and failures included; over runs `Trust.HandlesExactly` says what that is |
| `Trust.HandlesExactly` | pkg/pairing/mutual.go:132-177 | After any acts, by what was done and when: the peer's offer asks the user unless his own stands, and is then answered; an accept is written and answered, a decline told, only while his offer stands, not answered yet; a commit is written only while a yes of his stands, not used yet; trust is told the first time |
| `Trust.AnswersExactly` | pkg/pairing/mutual.go:115-130 | After any acts the user's answer is sent if and only if an offer of the peer asked him less than 60 s ago and he did not answer since |
| `Trust.OfferAnsweredOnce` | pkg/pairing/mutual.go:143-164 | Once an accept or a decline was handled and until this user's next offer, no accept is answered or written, no decline told, and every offer of the peer only asks |
| `Trust.TrustTalk.Answer` | pkg/pairing/mutual.go:115-129 | A yes or a no to an offer still waiting, and nothing to one that is not |
| `Trust.TrustTalk.WriteLocked` | pkg/pairing/mutual.go:197-211 | The key kept is written; whether the peer is accepted unasked, when it was added and a name the user gave stay as they were, and so does the name when none is given; a failed write changes nothing |
| `Trust.WrittenOnlyOnOwnYes` | pkg/pairing/mutual.go:132-177 | Against any peer, its key is written only on this user's own answer or offer less than 60 s old, or for a commit on a double offer: the peer's came while this side's was less than 60 s old, and is itself less than 60 s old |
| `Trust.WrittenOnOldYesExactly` | pkg/pairing/mutual.go:132-177 | With every yes of this user 60 s old or older, a key is written if and only if a commit comes, the list can be written, and the waiting accept is that of a double offer less than 60 s old |
| `Trust.DoubleOfferLastsLonger` | pkg/pairing/mutual.go:139-142 | Every such moment occurs, an offer 118 s old with the peer's 59 s after it among them |
| `TrustPair.KeysAgree` | pkg/pairing/mutual.go:95-186 | Two honest devices over ordered channels, in every interleaving of offers, answers, repeats and double offers: once no commit is in flight, none was late and no write failed, both keep and have written the same recognition key |
| `TrustPair.KeysAgreeExactly` | pkg/pairing/mutual.go:95-102 | At any moment, with delays and failures, the keys agree if and only if the first key of the device of the smaller fingerprint, or else of the other, came in time as the first commit taken |
| `TrustPair.FirstCommitFindsAYes` | pkg/pairing/mutual.go:163-166 | A first commit always finds an accept waiting, so it is refused only by the clock |
| `TrustPair.BothSaidYes` | pkg/pairing/mutual.go:108-177 | Between honest devices neither list gains the other's key unless both users said yes |
| `Exchange.RespondPIN` | pkg/pairing/exchange.go:315-355 | On every path an attempt the PIN gave is ended on it, once, a success exactly when the confirmation holds under the code its own beginning returned, whatever other connections do meanwhile; without an attempt the reply is made on a decoy and nothing is ended; when a reply is sent, exactly |
| `Exchange.Negotiate` | pkg/pairing/exchange.go:510-569 | For any messages, the loop reports, writes and reads exactly what the course of its turns says, and stops at the first turn that ends |
| `Exchange.TurnRight` | pkg/pairing/exchange.go:529-567 | Each message keeps: the loop's note is the talk's own and goes with the peer's entry and the key kept; the loop ends by itself only with no commit awaited |
| `Exchange.TurnExactly` | pkg/pairing/exchange.go:529-567 | The loop ends exactly when no message came, the message could not be written or answered, a user said no or nothing, or trust is written and no commit awaited; what is sent is the reply, or the user's answer |
| `Exchange.ReportedIsWritten` | pkg/pairing/exchange.go:510-569 | Trust reported is trust written, and the list has the peer with the key kept unless a later write failed |
| `Exchange.UnreportedExactly` | pkg/pairing/exchange.go:510-569 | Trust is written and not reported if and only if the loop reads an accept of a live offer whose commit is written and not sent, or, with a commit still awaited, another offer not answered yes |
| `Exchange.CommitUnsent` | pkg/pairing/exchange.go:534-538 | The first of these two, message by message |
| `Exchange.OfferedAgain` | pkg/pairing/exchange.go:543-556 | The second |
| `NegotiatePair.SettledHoldOneKey` | pkg/pairing/exchange.go:510-569 | Two devices each running the loop over ordered channels, at any pace and with failures: when both end with the key settled and no accept expired, no commit is unread and both lists hold one key |
| `NegotiatePair.SettledExactly` | pkg/pairing/exchange.go:510-569 | When both end with the key settled they hold one key if and only if the device of the larger fingerprint did not stop waiting for the other's commit, or the other keeps the key of the larger one |
| `NegotiatePair.EachRunsTheLoop` | pkg/pairing/exchange.go:510-569 | What each device does in any run is the course of Negotiate over the messages it read |
| `NegotiatePair.TwoKeys` | pkg/pairing/exchange.go:540-542 | A run in which both settle and hold two keys |
| `Gate.GateObject.Admit` | pkg/securechan/gate.go:140-166 | The tables after an admission or a refusal: the rate limit with running handshakes counted in, then the places; over runs `GateRuns.AdmittedExactly` says who is admitted |
| `Gate.GateObject.RecentLocked` | pkg/securechan/gate.go:78-96 | The filter in place keeps exactly the charges less than a minute old, in order, and forgets an address without any |
| `Gate.GateObject.SweepLocked` | pkg/securechan/gate.go:98-113 | Once a minute, exactly the addresses with nothing recent and those no longer known are forgotten |
| `Gate.Admission.Charge` | pkg/securechan/gate.go:168-183 | One timestamp, once, and the handshake no longer counted as running |
| `Gate.Admission.Release` | pkg/securechan/gate.go:195-204 | One place, once |
| `GateRuns.SlidingWindow` | pkg/securechan/gate.go:140-183 | In every run, no window shorter than a minute holds more charges of an address that never authenticated than PerIPOneMinute, nor of any address than the larger quota |
| `GateRuns.AdmittedExactly` | pkg/securechan/gate.go:140-166 | In every run, with readings in the order of the locks, an address is refused if and only if its charges of the last minute and its handshakes running reach its quota, the larger one while it authenticated recently, or no place is left; whoever is under the quota and finds a place is admitted in any order of readings |
| `GateRuns.CountersExact` | pkg/securechan/gate.go:116-204 | In every run `active` is the number of unreleased admissions and stays within MaxUnauth, and `handshakes` of an address the number running |
| `GateRuns.SweepKeepsWindows` | pkg/securechan/gate.go:98-113 | Forgetting old charges never changes what a window of a minute still counts |
| `Offer.Validate` | pkg/protocol/offer.go:63-124 | Succeeds if and only if the items are numbered in order, within limits, their sizes add up within 63 bits to the total, and no two path keys are equal or one the folder of another |
| `Offer.AddFolders` | pkg/protocol/offer.go:98-100 | The backward scan for slashes visits every folder on the way to a path, and nothing else |
| `Offer.ChunkRuleExactly` | pkg/protocol/offer.go:54-61 | The 32-bit rule on chunks accepts exactly the sizes of at most 2^24 chunks and those that slip through, told by the size and the chunk size, for every size |
| `Offer.ChunksExact` | pkg/protocol/offer.go:54-61 | Under 2^32 chunks the machine's count is the exact quotient, rounded up |
| `Offer.ChunkRuleFolds` | pkg/protocol/offer.go:60 | A file of exactly 2^32 chunks counts as one of none |
| `Offer.ValidateAsMeant` | pkg/protocol/offer.go:92-94 | Validate accepts exactly the offers meant (each limit, the numbering, no two keys equal or one the beginning of another up to a slash, the exact sums, at most 2^24 chunks an item) and those in which, all else being right, every item over the rule on chunks slips through |
| `Offer.OneSlips` | pkg/protocol/offer.go:92-94 | An offer that slips through: one file of 2^55 bytes in chunks of 8 MiB |
| `Paging.Split` | pkg/protocol/offer.go:283-309 | The pages put end to end are the items; each fits the limit unless it is one item, and the next item would not have fitted; Count is set exactly when there are pages |
| `Paging.PagedOffer.AddPage` | pkg/protocol/offer.go:323-339 | Accepts exactly the non-empty pages that go on with the numbering within Count; a page refused for its numbering leaves the items before the wrong one |
| `Paging.ReadOffer` | pkg/session/offer.go:27-51 | What the loop puts together from any channel, how many messages it reads, and that it gives nothing that Validate refuses |
| `Paging.EndsWithinCount` | pkg/session/offer.go:36-48 | Whatever the peer sends, the loop reads no more pages than Count leaves room for, and what it gives continues the head by numbered items to exactly Count |
| `Paging.AssembledExactly` | pkg/session/offer.go:36-48 | The loop gives an offer if and only if the channel begins with non-empty pages of this transfer that number the head's items on to exactly Count; it has then read just these, and gives their items |
| `Paging.PagingRoundTrip` | pkg/session/offer.go:15-51 | The pages cut from a numbered offer are put together into exactly that offer, complete only at the last one, whatever follows |
| `Paging.SendAndReceive` | pkg/session/offer.go:15-51 | Sender and receiver one after the other: the receiver's answer is its own check of the very offer that was sent |
| `LengthValue.SplitUndoesCat` | pkg/pairing/ble.go:101-128 | Parsing undoes the encoding of parts shorter than 2^21 bytes |
| `LengthValue.SplitAcceptsOnlyCat` | pkg/pairing/ble.go:101-128 | The parser accepts only the string that encodes its result |
| `LengthValue.SplitLengthValues` | pkg/pairing/ble.go:101-128 | The loop of the parser computes that parse, errors included |
| `LengthValue.PrependLen` | pkg/pake/cpace.go:22-39 | The loop writes the canonical length, then the data |
| `LengthValue.LengthValueCat` | pkg/pake/cpace.go:41-49 | The loop concatenates the parts, each with its length |
| `LengthValue.LebPrefixFree` | pkg/pake/cpace.go:22-39 | No length is the beginning of another |
| `LengthValue.CatInjective` | pkg/pake/cpace.go:41-49 | Two lists of parts of any sizes have the same encoding only if they are the same |
| `LengthValue.GeneratorStringInjective` | pkg/pake/cpace.go:82-86 | Two generator strings are equal only for the same password, channel identifier and session (appendix A of draft-irtf-cfrg-cpace-21) |
| `LengthValue.FirstBlockFilled` | pkg/pake/cpace.go:82-86 | The first three fields fill the 128-byte block exactly when the first two leave room for the padding |
| `LengthValue.TranscriptInjective` | pkg/pake/cpace.go:72-76 | Two transcripts are equal only for the same shares and data |
| `LengthValue.BleRoundTrip` | pkg/pairing/ble.go:87-101 | A message decodes to itself if and only if it fits the largest attribute |
| `LengthValue.BleCanonical` | pkg/pairing/ble.go:93-101 | No two byte strings are read as one message |
| `Naming.SplitKeepsName` | pkg/engine/collision.go:9-34 | Base and extension put together are the name, whatever the extension: none, one, several, or a hidden file |
| `Naming.SplitsExactly` | pkg/engine/collision.go:9-34 | The extension is the whole of a multiple one if the name ends with one; else what the last dot begins, if any byte is before it; else nothing |
| `Naming.CandidatesApart` | pkg/engine/collision.go:36-51 | Two numbered candidates of one name never meet, letter case aside |
| `Naming.DecimalReads` | pkg/engine/collision.go:38-45 | The number in a candidate is written in decimal: read back it is the count, without a leading zero |
| `Naming.FreeName` | pkg/manifest/manifest.go:136-142 | The loop ends within one try more than there are names used, at the first candidate not used |
| `Naming.UniqueTop` | pkg/manifest/manifest.go:127-143 | The name given is the first free form of the path's own and was not used |
| `Naming.BuildOfferFiles` | pkg/transfer/files.go:19-63 | Each file is offered under the first form of its own name that no earlier one has, numbered in order; the paths always meet the no-duplicate and no-file-as-folder rules, and the offer is refused if and only if a file is unusable or a limit is passed |
| `Naming.OfferedMore` | pkg/transfer/files.go:41-56 | One more file under its first free form keeps all paths apart |
| `Discovery.LessIP` | pkg/discovery/kind.go:135-148 | Byte by byte, the order of the addresses as numbers |
| `Discovery.BetterOrders` | pkg/discovery/discoverer.go:183-195 | A strict weak order on sightings, whose ties have one address |
| `Discovery.BestOnNetwork` | pkg/discovery/discoverer.go:183-195 | A sighting is the best of its network if and only if it is in our subnets where any is, of those heard by mDNS where any was, and of those the lowest address |
| `Discovery.Merge` | pkg/discovery/discoverer.go:145-181 | One path per local network, its best sighting's, in strict order, one outside our subnets only if there is no other; the entry is the first path's sighting, with its tags if seen once and otherwise the sane tags of every sighting, none twice, at most 16 |
| `Discovery.CableFirst` | pkg/discovery/kind.go:25-36 | The address shown is on a cable if any path is, else on Wi-Fi if any is, and the lowest of its kind |
| `Discovery.OrderIndependent` | pkg/discovery/discoverer.go:145-181 | The same sightings in any order, and any order of the map, give the same paths in the same order and the same address |
| `Discovery.SameTags` | pkg/discovery/discoverer.go:145-181 | Under 16 tags, the same sightings in any order give the same tags |
| `Discovery.OnePathPerNetwork` | pkg/discovery/discoverer.go:155-163 | Two sightings on one local network never give two paths |
| `Discovery.EveryNetworkHasAPath` | pkg/discovery/discoverer.go:155-174 | No local network the device was seen on is left without its path |
| `Discovery.SortedUnique` | pkg/discovery/kind.go:125-134 | The order by kind, then address, leaves one way to list given paths |
| `Place.Root.CheckFolders` | pkg/store/place.go:77-100 | Succeeds if and only if every folder on the way is one, up to the first that is not there |
| `Place.Root.Peek` | pkg/store/place.go:108-127 | Whether there is a partial file, and whose, from the journal's header alone |
| `Place.Root.Resolve` | pkg/store/place.go:34-75 | The first of a thousand candidates that is not passed over, and what is decided there, told by the files there alone: another's partial file and a folder are passed over, and a file of the user under the policy that keeps both; a partial file of this transfer is resumed; the file of the user is replaced exactly under Overwrite and kept, done, exactly under Skip; nothing is changed |
| `Place.DecidedRight` | pkg/store/place.go:43-73 | What each policy makes of a name, from the files that are there |
| `Place.TakenIsNotForeign` | pkg/store/place.go:44-73 | A name given to receive at is not one that reads as another transfer's |
| `Place.Root.Open` | pkg/store/store.go:156-256 | What Open answers, exactly, when no call fails of itself; a foreign file is reported only where a partial file reads as one or a dangling link is in the way, and leaves every file as it was if and only if the journal was not this transfer's; nothing but the partial file, its journal and folders on the way is ever touched, and a success leaves these files, what was there to resume as it was |
| `Place.ForeignExactly` | pkg/store/store.go:156-256 | Open finds a foreign file exactly where a partial file reads as one or one of the two dangling links is in the way |
| `Place.OpensExactly` | pkg/store/store.go:156-256 | Open gives the file exactly where what is there is not in the way of this transfer and can be opened, made or taken away |
| `Place.ResolveAndOpen` | pkg/store/place.go:34-75 | The place is Resolve's; with nothing changed in between, Open finds it foreign exactly when a dangling link is in the way, and meets a path conflict only for a dangling link among the folders |
| `Place.TakenOpens` | pkg/store/place.go:43-73 | Where the partial file and its journal are files or not there, every name given to receive at opens |
| `Place.DanglingLinks` | pkg/store/store.go:204-243 | The two dangling links: Resolve gives the name, Open answers that it is foreign |
| `RootDir.Root.ResolveRoot` | pkg/store/rootdir.go:50-77 | The first candidate not passed over, told by what is there: a free name, the folder marked with this transfer's key, the first name left to who has it under Skip, or a refusal |
| `RootDir.DecidedRight` | pkg/store/rootdir.go:50-77 | What each policy makes of a name, from what is there |
| `RootDir.Root.MarkRoot` | pkg/store/rootdir.go:92-130 | After any system call of it the folder is as it was or holds this transfer's marker, and nothing else changed but the temporary folder and the folders made on the way; when no call fails of itself and no temporary folder is left, exactly when it succeeds |
| `RootDir.SameNameAgain` | pkg/store/rootdir.go:50-77 | In any such state the folder found again is the same, free or by its marker |
| `RootDir.ResolveAndMark` | pkg/store/rootdir.go:50-130 | A transfer stopped at any point while it made its folder finds the same one when begun again |
| `RootDir.TmpIsNoCandidate` | pkg/store/rootdir.go:108-110 | The temporary name, in any parent, is a candidate only as the base itself |
| `RootDir.ParentIsNoCandidate` | pkg/store/rootdir.go:96-101 | A folder made on the way is no candidate |

## Left out

- TLS, certificates, key derivation, encryption and the curve: parameters, or the outcome of a check.
- Sockets, mDNS, beacons, sweeps and interface enumeration: input and output around the decisions modelled.
- `pkg/api`, `cmd/xfer`, the command-line and phone interfaces, reports and measurements: user interface and plumbing.
- The receiver's scheduler and the sender: the environment that calls the store.
- NoSync runs: they claim no durability. `OnSync`, `Resumed` and the byte counts of a batch: measurements.
- Windows rename retries beyond four tries that may each fail, Android handles, systems without syncfs: one file system with an atomic rename.
- Runs after an fsync that lied (STO-06): `StoreFile.Recheck` says which chunks the check gives up; across sessions a chunk given up in memory keeps its record in the journal, so nothing more is stated of it.
- `Creator`, `FormatPIN`, fixed-size frames, the Bluetooth initiator: finite or single-branch.
- Addresses that are not IPv4; which 16 tags of a merged device are kept when it has more, which depends on the order of the sightings.
- Manifests of folders: on a file system that tells letter cases apart a folder may hold two names that meet, which Validate refuses.
- Suspend: Close and a removal of the data, both in StoreWorld as steps; the method itself is not written out.
- StoreFile.File.Open: the race of another process that makes the data between two calls is not modelled; Place.Root.Open has links and folders, StoreFile.File.Open crashes and records.
- TrustPair.KeysAgree: asks for no late commit and no failed write; TrustPair.KeysAgreeExactly covers every other case.
- Trust.TrustStore.Add: the list is a map whose write succeeds or changes nothing; its file is not modelled.
- Gate.GateObject.Admit: addresses are strings already cut from their port.
- Paging.Split: the length of an item's JSON is a parameter.
- Exchange.Negotiate: the deadlines of the connection are failed reads.
