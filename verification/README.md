# Verified model of the oracle chain

The repository is a parachain whose nodes run scripts for it. A user uploads a
script and asks for it to be run; off-chain workers hand the job to the node's
executor through off-chain storage; the executor runs it and stores the result;
a later worker submits the result to the chain. Beside that pipeline there is a
price oracle with a bounded price window and a staking ledger.

This project states what these parts do in Dafny and proves what they promise.
`dafny verify dfyconfig.toml` checks all of it.

## How the source is modelled

- `Bytes.dfy`, `Scale.dfy`, `Unicode.dfy`: bytes, the part of SCALE that the
  records use ("SCALE Codec", A.2.2 of the Polkadot Protocol Specification),
  UTF-8 (RFC 3629, section 3) and UTF-16 (RFC 2781, section 2). Decoders do not
  ask that all bytes are used, as `Decode::decode` does not.
- `Payloads.dfy`: the request and response records of `model/src/lib.rs`.
- `ScriptKeys.dfy`, `WasmStore.dfy`, `Outcomes.dfy`, `RepeatedRequests.dfy`,
  `ChainHistory.dfy`: the wasmstore pallet.
  The extrinsics are functions from a chain state and a call to the next state
  and the outcome; an extrinsic that fails, or panics, changes nothing.
  `WasmStorePallet.dfy` has the same extrinsics as methods of a class that
  update storage maps, each proved to be its function.
- `KeyLists.dfy`, `Pipeline.dfy`: the job pipeline of
  `pallets/wasmstore-pallet/src/lib.rs:186-275`, `:505-673` and
  `node/src/scripts_exec_manager.rs:55-249` as a state machine. Every get, set
  and compare-and-set on off-chain storage is one step, and so are sending to
  and receiving from the channel. Workers run on the chain state they were
  started with, in any number. The chain takes any call from anyone at any
  time, which covers a transaction pool that delivers, drops or repeats calls.
  The node may restart at any point; its boot sets the lists one by one while
  workers may already run. An action that is not possible in a state leaves it
  as it is, so every sequence of actions is a schedule and "every schedule"
  means every interleaving. `past` in the state records what has happened since
  genesis, restarts included; nothing is taken out of it and no step depends on it.
- `Provenance.dfy`, `ListFrames.dfy`, `JobDrain.dfy`, `JobDispatch.dfy`,
  `ResultCounts.dfy`, `ResultRecords.dfy`, `ResultReports.dfy`, `ResultLog.dfy`,
  `CallValidity.dfy`, `Races.dfy`: what holds over every schedule, and schedules
  that show what does and what does not happen. There a round drains the ids it has read when it clears the list; the
  monitor then holds them and looks them up one by one.
- `Memory.dfy`, `FieldWalk.dfy`, `OutputBytes.dfy`: the executor's two UTF-16
  readers and its output marshaller, with their loops, a typed decoder of the
  output, and what the output is in terms of memory and declared types alone.
- `PriceOracle.dfy`, `Spacing.dfy`: the price window, its average and the limit
  on unsigned submissions. `GraceLock.dfy`: the lock shared by its workers.
  `Ledger.dfy`: staking and slashing over the contracts of the balances pallet.

## What turned out not to hold

- A request is read as a response exactly when its ABI length is a nonzero
  multiple of 64 (or at least 2^30, which the size bound excludes). Then a
  worker can submit a job's code as the job's result. `Payloads.Ambiguous` is
  that condition; `Races.AmbiguousAbiSubmitsCode` builds such a schedule from
  genesis, and `Races.OnlyOutputsIffUnambiguous` shows that the condition is exact.
- Job ids are not always looked up exactly once. The monitor reads the list
  twice before it clears it and ignores a lost compare-and-set
  (`Races.JobLostBetweenReads`; `JobDrain.RoundIsExactIff` says which rounds are
  exact). A boot empties the list without reading it (`Races.JobLostAtRestart`,
  `JobDrain.BootIsExactIff`). The node may die between the clearing of an id and
  its lookup (`Races.JobDroppedAtRestart`, `JobDrain.RestartIsExactIff`). With
  one-step rounds the boots and restarts alone decide
  (`JobDrain.OneStepClearingDispatchesOnce`).
- An id that is looked up does not always start a task. A worker lists the id
  before it stores the record, and the monitor can come in between
  (`Races.DrainedBeforeStored`), or the pool can refuse the call, and then no
  record is stored (`Races.RefusedCallListsBareId`). Nothing else keeps a lookup
  from starting a task (`JobDispatch.TaskStartsUnlessInFlight`), so a drained id
  starts one unless it was dropped at a restart or looked up too early
  (`JobDispatch.DrainedIdsStartIff`). If listing and storing were one step as
  well, boots and restarts alone would decide (`JobDispatch.OneStepPostsStartOnce`).
- A stored result can be lost: a worker whose swap of the list failed still sets
  its request over it. `Races.ResultLost` builds a schedule after which the job
  waits in no list until some worker that still sees it pending lists it again;
  `ResultRecords.ResultReadableIff` says which steps store and lose a result,
  and `ResultRecords.RelistedIffListUnchanged` when the id is listed again.
- A restart also empties the result list, so that results stored before it and
  not yet reported are no longer named; `ResultLog.ListIsWholeLogIff` is exact.
- The average of a window whose sum saturates can be below every price in it
  (`PriceOracle.SaturatedAverageIsLow`); `PriceOracle.AverageWithinPrices` says exactly when.
- The comment at `pallets/wasmstore-pallet/src/lib.rs:355-356` says that a
  caller cannot call a script again while it is being processed. In the code a
  request is accepted exactly when no job, in whatever state, is for that
  caller, that name and the code and ABI the script has now
  (`RepeatedRequests.RequestAcceptedIff`). So a second request is accepted while
  the first job is processed once other code has been uploaded
  (`RepeatedRequests.AcceptedWhileProcessing`), and refused after the job has
  finished while code and ABI are the same (`WasmStore.RepeatedRequestRefused`).

## Assumptions

- The block hash is an arbitrary function to 32 bytes. Only the two lemmas of
  `RepeatedRequests.dfy` on accepted requests ask that it does not collide, on
  the jobs they compare. The Unicode table behind Rust's `Debug` is an arbitrary predicate.
- Running a script is a relation between code, ABI and output. A run that
  panics, such as one whose ABI is not UTF-8, has no output.
- Block numbers do not reach 2^32, and the chain does not reorganise.
- `MaxPrices` is positive; with zero the pallet divides by zero on the first price.
- The treasury account signs no call and starts with nothing reserved.

## Model

| member | source | states |
|---|---|---|
| Scale.CompactRoundTrip | model/src/lib.rs:13-27 | Every vector length below 2^32 written in compact form is read back, whatever follows it. |
| Scale.CompactCanonical | model/src/lib.rs:13-27 | Only the shortest form of a length is accepted. |
| Scale.CompactLayout | model/src/lib.rs:13-27 | A compact length has the least mode that fits in its two low bits and the length above them, little-endian. |
| Payloads.RequestRoundTrip | model/src/lib.rs:13-19 | Decoding an encoded request gives it back and leaves what follows. |
| Payloads.ResponseRoundTrip | model/src/lib.rs:20-27 | Decoding an encoded response gives it back and leaves what follows. |
| Payloads.ResponseTail | model/src/lib.rs:20-27 | A response ends in its state byte, the 32 bytes of the processor's key and the time, little-endian. |
| Payloads.FinishedResponseIsNoRequest | model/src/lib.rs:13-36 | No encoded finished response decodes as a request. |
| Payloads.RequestReadAsResponse | model/src/lib.rs:13-36 | An encoded request decodes as a response exactly when its ABI length is ambiguous, below 2^30 exactly when it is a nonzero multiple of 64; the result read is then the code. |
| Unicode.Utf8RoundTrip | script-executor/src/runtime.rs:361-364 | Text written as UTF-8 is read back. |
| Unicode.Utf8Canonical | script-executor/src/runtime.rs:392-403 | Only the bytes UTF-8 encoding writes are accepted: no overlong form, surrogate or value beyond the range. |
| Unicode.ScalarLayout | script-executor/src/runtime.rs:361-364 | How many bytes a character has in UTF-8 and which of its bits each carries. |
| Unicode.DecodesIffPaired | script-executor/src/runtime.rs:156-165 | UTF-16 units are text exactly when each high surrogate is followed by a low one and each low one follows a high one. |
| Unicode.PairLayout | script-executor/src/runtime.rs:156-165 | A surrogate pair carries the ten upper bits and the ten lower bits beyond 0x10000. |
| Unicode.Utf16Canonical | script-executor/src/runtime.rs:156-165 | Text decoded from UTF-16 units encodes to exactly those units. |
| Unicode.Utf16RoundTrip | script-executor/src/runtime.rs:156-165 | Every text written as UTF-16 units is read back, so decoding fails on no text. |
| ScriptKeys.QuoteRoundTrip | pallets/wasmstore-pallet/src/lib.rs:302-305 | Unescaping undoes the debug quoting of every name. |
| ScriptKeys.KeyInjective | pallets/wasmstore-pallet/src/lib.rs:302-305 | Two names with the same script key are the same name. |
| ScriptKeys.EscapeForms | pallets/wasmstore-pallet/src/lib.rs:302-305 | A printable character without an escape of its own stays itself, six have a short escape, all others are written in hexadecimal. |
| ScriptKeys.PlainKey | pallets/wasmstore-pallet/src/lib.rs:302-305 | The key of a name without special characters is its UTF-8 between quotes with the length in front, if that fits the bound. |
| Outcomes.UploadOutcome | pallets/wasmstore-pallet/src/lib.rs:282-328 | An upload succeeds exactly when it is signed, code, prefixed name, ABI and key fit and the key does not hold this code; each refusal is tied to its cause. |
| Outcomes.UploadStores | pallets/wasmstore-pallet/src/lib.rs:284-332 | A successful upload changes its own key alone, to a script of the uploader, block, code, ABI, code hash and type, named `EXE` or `SRC` and then the name in UTF-8. |
| Outcomes.TypesNeverShareAKey | pallets/wasmstore-pallet/src/lib.rs:284-305 | An executable and a source never lie under the same key. |
| Outcomes.RequestRefusals | pallets/wasmstore-pallet/src/lib.rs:341-374 | Each refusal of a request is tied to its cause, and none changes anything or panics. |
| Outcomes.ChangeOutcome | pallets/wasmstore-pallet/src/lib.rs:387-399 | A state change succeeds exactly when it is unsigned, and then moves the one job on from pending to processing to finished and no further. |
| Outcomes.SubmitOutcome | pallets/wasmstore-pallet/src/lib.rs:402-438 | A result submission succeeds exactly when it is unsigned, its key has a whole hash and the job is unknown or finished with a value within the bound; for a known job exactly that entry is put, for the first time or again; both refusals and both panics are tied to their causes and change nothing. |
| Outcomes.ValidatorOutcome | pallets/wasmstore-pallet/src/lib.rs:461-473 | Each answer of the validator is tied to its cause; a call is valid exactly when it is one of the two unsigned ones, not from a block ahead and its hash is not zero. |
| WasmStore.DispatchKeepsOk | pallets/wasmstore-pallet/src/lib.rs:278-438 | Any call keeps: scripts under the key of their own name, jobs under the hash of themselves when pending, results only for finished jobs and within the bound; jobs are never removed and only their state moves, forward. |
| WasmStore.RunKeepsOk | pallets/wasmstore-pallet/src/lib.rs:278-438 | The same over every run of calls and blocks. |
| WasmStore.ReuploadNeedsNewCode | pallets/wasmstore-pallet/src/lib.rs:302-328 | An upload that fits, under a key that is taken, is accepted exactly when the code differs. |
| WasmStore.RequestTakesSnapshot | pallets/wasmstore-pallet/src/lib.rs:341-374 | An accepted request adds one pending job named like its script, with the script's code and ABI, and changes nothing else. |
| WasmStore.SnapshotSurvives | pallets/wasmstore-pallet/src/lib.rs:341-398 | Whatever calls follow, a requested job keeps the code and ABI of the time of the request. |
| RepeatedRequests.JobRoundTrip | pallets/wasmstore-pallet/src/lib.rs:357-364 | A job's encoding, which is what is hashed, is decoded back, so different jobs are encoded differently. |
| RepeatedRequests.RequestAcceptedIff | pallets/wasmstore-pallet/src/lib.rs:341-372 | In any valid storage, a signed request is accepted exactly when the script is stored, the name fits and no job in any state is for that caller, name and the script's code and ABI of now; the hash need only not collide on the new job. |
| WasmStore.RepeatedRequestRefused | pallets/wasmstore-pallet/src/lib.rs:355-372 | One half of the above over every run: the same request is refused ever after while the script's code and ABI are the same. |
| RepeatedRequests.AcceptedWhileProcessing | pallets/wasmstore-pallet/src/lib.rs:355-372 | From genesis: upload, request, one state change, upload of other code; the repeated request is accepted while the first job is being processed, unless the hashes of the two jobs collide. |
| WasmStorePallet.Pallet.UploadWasm | pallets/wasmstore-pallet/src/lib.rs:282-338 | The method's effect and outcome are those of the upload transition, and the storage invariant is kept. |
| WasmStorePallet.Pallet.RequestScriptExecution | pallets/wasmstore-pallet/src/lib.rs:341-383 | The method's effect and outcome are those of the request transition; the invariant is kept and jobs only grow. |
| WasmStorePallet.Pallet.ChangeJobState | pallets/wasmstore-pallet/src/lib.rs:387-399 | The method's effect and outcome are those of the state-change transition; the invariant is kept and jobs only advance. |
| WasmStorePallet.Pallet.SubmitResultUnsigned | pallets/wasmstore-pallet/src/lib.rs:402-438 | The method's effect and outcome, panics included, are those of the submission transition, and the invariant is kept. |
| ChainHistory.EverythingWasCalledFor | pallets/wasmstore-pallet/src/lib.rs:278-438 | Over every run from genesis: each script is that of the last accepted upload under its name; each job had an accepted request of its caller, with the code and ABI of the accepted upload before it that is the last one under that name; each result is that of the last accepted submission for its job and processor, which came when the job was finished. |
| ChainHistory.StateCountsDeliveries | pallets/wasmstore-pallet/src/lib.rs:387-399 | A job has advanced once for each state change delivered to it, up to Finish. |
| ChainHistory.BlockCountsBlocks | pallets/wasmstore-pallet/src/lib.rs:278-438 | The block number a script is stored with counts the blocks; calls do not move it. |
| KeyLists.ParseListOf | node/src/scripts_exec_manager.rs:241-249 | Cutting four bytes and splitting by 32 gives back the ids that were appended, in order. |
| KeyLists.ChunksJoin | node/src/scripts_exec_manager.rs:241-249 | The pieces of any list make up its bytes, all of 32 bytes but the last. |
| Provenance.TaskRunsItsJob | node/src/scripts_exec_manager.rs:159-175 | A task that decodes a stored record as a request gets the code and ABI the chain holds for that key. |
| Provenance.ReportIsOk | pallets/wasmstore-pallet/src/lib.rs:250-262 | What a worker submits for a stored record is an output of its job, or the job's code when the ABI length is ambiguous. |
| Provenance.StepKeeps | node/src/scripts_exec_manager.rs:73-224 | Every step of every actor keeps the store invariant. |
| Provenance.StoreNeverMisparses | node/src/scripts_exec_manager.rs:145-249 | In every schedule both lists are "init" and whole ids of known jobs, every 32-byte key holds a record of that very job, and no reader finds a list too short. |
| Provenance.SubmittedResultsAreOutputs | pallets/wasmstore-pallet/src/lib.rs:186-275 | In every schedule each result a worker submitted for a job is an output of running the code and ABI the chain holds for it, under this node's key, if the ABI length is not ambiguous; otherwise it may also be the code. |
| ResultReports.OutputReachesChain | pallets/wasmstore-pallet/src/lib.rs:186-275 | For every upload, output within the bound and run time, a schedule from genesis, through request, two state changes, the node's run and a worker's report, at whose end the chain stores that very output and time under the job and this node's key. |
| ResultReports.WorkerTakesUpListedIds | pallets/wasmstore-pallet/src/lib.rs:246-250 | In every reachable state a worker that stops at a finished job, or has stored its request for a pending one, next holds exactly the ids its result list names, in order, or ends if that is just "init". |
| ResultReports.WorkerReportsAll | pallets/wasmstore-pallet/src/lib.rs:248-270 | Run alone with a pool that accepts, it submits exactly one call for each of them whose record decodes as a response, with that record's id, result, address and time, in order, and ends with nothing else changed. |
| ResultReports.RefusalEndsReports | pallets/wasmstore-pallet/src/lib.rs:256-261 | A refused submission ends the run: nothing more is submitted. |
| ResultReports.IdleWorkerEnds | pallets/wasmstore-pallet/src/lib.rs:193-202 | Where no job is pending or finished a worker reads both lists, ends and changes nothing. |
| ResultReports.MissingListEndsRun | pallets/wasmstore-pallet/src/lib.rs:190-191 | A run that misses one of the lists ends at once and changes nothing. |
| JobDrain.JobListHoldsWaitingIds | pallets/wasmstore-pallet/src/lib.rs:203-211 | In every schedule, restarts included, the job list is exactly what was appended since it was last emptied, and every drained id was appended. |
| JobDrain.RoundIsExactIff | node/src/scripts_exec_manager.rs:145-152 | In every reachable state a monitor round keeps appended = looked up ++ in the monitor's hands ++ listed, over the whole history, exactly when the list was the same at both reads and at the clearing, or was empty at the first read and changed between the second read and the clearing. |
| JobDrain.BootIsExactIff | node/src/scripts_exec_manager.rs:120-122 | In every reachable state a boot keeps that equation exactly when the job list is absent or empty before its unconditional write. |
| JobDrain.RestartIsExactIff | node/src/scripts_exec_manager.rs:120-159 | In every reachable state a restart keeps that equation exactly when the monitor holds no id that it has cleared and not yet looked up; with the boot's first write, exactly when the list is also absent or empty. |
| JobDrain.ExactRunsDispatchOnce | node/src/scripts_exec_manager.rs:120-183 | If all rounds, boots and restarts were exact, all ids ever appended = ids looked up ++ ids in the monitor's hands ++ ids in the list. |
| JobDrain.OneStepClearingDispatchesOnce | node/src/scripts_exec_manager.rs:120-183 | When nothing comes between read, second read and clearing, the same holds in a schedule if and only if all its boots were exact and no restart dropped an id. |
| JobDrain.OneRunDispatchesOnce | node/src/scripts_exec_manager.rs:120-183 | With one-step rounds and no restart it holds in every schedule. |
| JobDrain.DrainedIdsAreHandedOn | node/src/scripts_exec_manager.rs:145-183 | In every schedule the drained ids are, with multiplicity, those looked up, those dropped when the node died and those in the monitor's hands; tasks are started only for ids looked up. |
| JobDispatch.TaskStartsUnlessInFlight | node/src/scripts_exec_manager.rs:154-182 | In every schedule in which the pool refuses no state change for a job, looking its id up starts a task on the job's own record exactly when the record is there, and it is missing only while a worker stands between listing the id and storing the record. |
| JobDispatch.DrainedIdsStartIff | node/src/scripts_exec_manager.rs:145-182 | In every such schedule each time the id is drained a task starts for it, it is dropped at a restart or it is still in the monitor's hands, if and only if it was never looked up while its record was missing and a worker was about to store it. |
| JobDispatch.OneStepPostsStartOnce | pallets/wasmstore-pallet/src/lib.rs:210-211 | With one-step rounds, listing and storing in one step and a pool that refuses no state change, all ids ever appended = ids of started tasks ++ ids in the monitor's hands ++ ids in the list, if and only if all boots were exact and no restart dropped an id. |
| ResultCounts.ResultsComeFromTasks | node/src/scripts_exec_manager.rs:154-182 | In every schedule the results received for a job, those in the channel and the tasks at work on it are together at most the tasks started for it, and those at most the lookups of its id. |
| ResultCounts.TaskOutcome | node/src/scripts_exec_manager.rs:159-177 | In every reachable state a task that has run holds its result if its record is its job's request and what it returned is an output of the code and ABI on chain, and has ended otherwise. |
| ResultCounts.ChannelIsBounded | node/src/scripts_exec_manager.rs:135 | In every schedule the channel holds at most 20 results. |
| ResultCounts.SendOutcome | node/src/scripts_exec_manager.rs:164-167 | A task sends when fewer than 20 results are in the channel, and waits until then. |
| ResultRecords.ResultReadableIff | node/src/scripts_exec_manager.rs:88-95 | For every step from a reachable state: afterwards a finished response lies under a job's id exactly when the step is the listener's write and the record it read is still there, or a response lay there before and the step is no worker's write of that job's request. |
| ResultRecords.RelistedIffListUnchanged | pallets/wasmstore-pallet/src/lib.rs:210-211 | In every reachable state a worker's two writes leave no response under its job's id, and list the id again exactly when the list is still as the worker read it. |
| CallValidity.SubmittedCallsAreValid | pallets/wasmstore-pallet/src/lib.rs:458-473 | In every schedule each call a worker has submitted so far is for a known job and is valid on the present chain, except that the zero hash is a bad proof; none is a future one and none makes the check panic. |
| ResultLog.ResultListIsReceiveOrder | node/src/scripts_exec_manager.rs:73-123 | In every schedule the result list is "init" and the ids of all results received since it was last emptied, in receive order, the last one excepted while its append is pending. |
| ResultLog.ListIsWholeLogIff | node/src/scripts_exec_manager.rs:73-123 | The list names all results received since genesis exactly when no boot came after the first of them. |
| ResultLog.AppendNeverFails | node/src/scripts_exec_manager.rs:96-101 | In every schedule the listener's compare-and-set on the list meets the value it expects and stores the whole log since the list was last emptied. |
| Races.RefusedCallListsBareId | pallets/wasmstore-pallet/src/lib.rs:618-645 | When the pool refuses the state change the id is listed, and only the default request is stored, under the empty key. |
| Races.AmbiguousAbiSubmitsCode | pallets/wasmstore-pallet/src/lib.rs:207-261 | For every script with an ambiguous ABI length and some output, a schedule from genesis in which a worker submits the job's code as its result. |
| Races.OnlyOutputsIffUnambiguous | pallets/wasmstore-pallet/src/lib.rs:186-275 | For a script that has an output and never outputs its own code, workers submit only outputs in every schedule exactly when its ABI length is not ambiguous. |
| Races.JobLostBetweenReads | node/src/scripts_exec_manager.rs:145-152 | For every job, a schedule in which its id is appended, then neither drained nor listed. |
| Races.JobLostAtRestart | node/src/scripts_exec_manager.rs:120-122 | For every job, a schedule in which its id is appended and then wiped by a restart, neither drained nor listed, though every round was exact. |
| Races.Reboots | node/src/scripts_exec_manager.rs:120-132 | When the node dies and boots, chain and store survive but for two empty lists and the node's key; nothing under way does. |
| Races.JobDroppedAtRestart | node/src/scripts_exec_manager.rs:150-159 | For every job, a schedule in which its record is stored, its id is drained by an exact round and the node dies before looking it up: no list, task or worker is left that would run it. |
| Races.ResultLost | pallets/wasmstore-pallet/src/lib.rs:210-211 | For every job with an output, a schedule in which its result is stored and listed and a late worker then sets the request over it without listing the job again. |
| Races.DrainedBeforeStored | pallets/wasmstore-pallet/src/lib.rs:210-211 | For every job, a schedule in which its id is drained and looked up before its record is stored: the record is there in the end, and no task, listed id or worker is left that would run it. |
| Memory.ReadUrl | script-executor/src/runtime.rs:226-242 | The loop returns one character for each little-endian unit in memory from the address to a zero unit or the end of memory, a question mark for a surrogate, and stops the run for the one address that overflows. |
| Memory.ReadersAgreeIff | script-executor/src/runtime.rs:151-166 | The two readers return the same text exactly when all 2048 bytes are in memory, the text ends within 1024 units and no unit is a surrogate. |
| FieldWalk.ReadElements | script-executor/src/runtime.rs:332-350 | The pointer loop equals dropping null slots and then dereferencing in order, or an error if a slot or a target is out of bounds. |
| FieldWalk.EmitField | script-executor/src/runtime.rs:277-373 | One round appends the SCALE form of the value read at the field's address, or nothing for a field that only moves the offset, or fails as the read does; what is read is given by the next row. |
| OutputBytes.FieldMeans | script-executor/src/runtime.rs:277-373 | For every declared type and memory, a field adds certain bytes exactly when they are: four or eight bytes copied from memory for a number; for a string the SCALE string of the units at its pointer, up to a zero unit or 1024 units, if 2048 bytes are in memory and surrogates are paired, else the empty one; for an array of a declared class the number of its slots that are not null and the four bytes each leads to; nothing for other types, whose four bytes are read, and for other arrays, which are not read. |
| OutputBytes.KindMeans | script-executor/src/runtime.rs:277-373 | Which type names the walk treats in which way, and that fields are 8 bytes apart for 64-bit numbers, 0 for arrays of no declared class and 4 for all else. |
| OutputBytes.KeptSlots | script-executor/src/runtime.rs:332-350 | The slots that are kept are exactly those below the capacity whose pointer is not null, in order. |
| FieldWalk.WalkOutput | script-executor/src/runtime.rs:267-381 | The walk succeeds exactly when every field can be read at the sum of earlier widths, emits the encoded values in order, and otherwise fails with the first failing field's fault. |
| OutputBytes.WalkMeans | script-executor/src/runtime.rs:264-373 | The walk succeeds with certain bytes exactly when these are what the fields of the declared types add one after the other, each at the sum of the sizes before it. |
| FieldWalk.OutputRoundTrip | script-executor/src/runtime.rs:267-403 | For every schema and memory on which the walk succeeds, decoding under the emitting part of the schema gives back exactly the values read and uses every byte. |
| FieldWalk.AllCanonical | script-executor/src/runtime.rs:386-403 | The decoder accepts nothing but the encoding of values of the schema's types, followed by what it leaves. |
| OutputBytes.MarshalOutput | script-executor/src/runtime.rs:261-381 | From the sign-extended pointer and the declared classes: it succeeds exactly when some bytes are what the field types of `Output` add, in terms of memory and type names alone, and returns those, which decode back; no `Output` class gives no bytes. |
| FieldWalk.StructReadsBack | script-executor/src/runtime.rs:386-403 | A schema that emits a string, an array and two words is read back by the struct decoder. |
| PriceOracle.WindowClosedForm | pallets/ocw-pallet/src/lib.rs:735-741 | The window is the history while it fits; later slot j is the last overflowing price congruent to j, or the j-th price if none. |
| PriceOracle.AveragePrice | pallets/ocw-pallet/src/lib.rs:751-758 | There is an average exactly when there are prices; times their number it is at most min(sum, 2^32-1), and with one more it is above. |
| PriceOracle.SumPermutes | pallets/ocw-pallet/src/lib.rs:756 | The sum does not depend on the order of the prices. |
| PriceOracle.SumConcat | pallets/ocw-pallet/src/lib.rs:756 | The sum of a window in two parts is that of the parts. |
| PriceOracle.AverageWithinPrices | pallets/ocw-pallet/src/lib.rs:735-758 | The average is at most the largest price, and at least a common lower bound exactly when that bound times the count fits a u32, as when the sum fits. |
| PriceOracle.SaturatedAverageIsLow | pallets/ocw-pallet/src/lib.rs:751-758 | Two prices of 2^32-1 average to 2^31-1. |
| PriceOracle.ValidatorOutcome | pallets/ocw-pallet/src/lib.rs:414-437 | Each answer of the validator is tied to its cause, and a valid price has the configured priority plus its distance from the average, cut to 64 bits. |
| PriceOracle.SubmitOutcome | pallets/ocw-pallet/src/lib.rs:343-380 | Exactly the signed calls and the unsigned ones that are due are accepted; each adds its price, and only an unsigned one moves the next block for unsigned prices, to the interval after the current one. |
| PriceOracle.RunKeeps | pallets/ocw-pallet/src/lib.rs:351-380 | Every run keeps the trace invariant and never lowers the next block for unsigned prices. |
| PriceOracle.UnsignedPricesAreSpaced | pallets/ocw-pallet/src/lib.rs:351-380 | In every run unsigned prices are accepted at least the interval apart, so a span of n blocks has at most ceil(n / interval), and the window is that of the accepted history. |
| Spacing.CeilDivIs | pallets/ocw-pallet/src/lib.rs:351-380 | The bound in the rows on spacing is the least number of intervals that reach the span. |
| PriceOracle.Pallet.AddData | pallets/ocw-pallet/src/lib.rs:735-748 | The window becomes the old one with the price added, the index is in range and the average is there. |
| PriceOracle.Pallet.SubmitSigned | pallets/ocw-pallet/src/lib.rs:343-349 | A signed price adds to the window and leaves the cool-down alone. |
| PriceOracle.Pallet.SubmitUnsigned | pallets/ocw-pallet/src/lib.rs:351-364 | An unsigned price adds to the window and starts the cool-down at the current block. |
| GraceLock.SendsAreApart | pallets/ocw-pallet/src/lib.rs:476-539 | For any number of interleaved workers and any stored entry, runs that may send are at least the grace period apart, so a span of n blocks has at most ceil(n / grace). |
| GraceLock.MaySendIff | pallets/ocw-pallet/src/lib.rs:490-539 | In every reachable state a worker goes on exactly when the entry it read is missing, does not decode or names a block at least the grace period before its own, and then may send exactly when that entry is still there; the entry then names its block, which also chooses the transaction. |
| GraceLock.LoneWorkerSendsIff | pallets/ocw-pallet/src/lib.rs:490-539 | A worker that runs alone sends exactly when the entry is missing, does not decode or is old enough. |
| Ledger.CallConserves | pallets/ocw-pallet/src/lib.rs:254-329 | One call keeps free plus reserved; the treasury gains what the target's reserve loses. |
| Ledger.StakeOutcome | pallets/ocw-pallet/src/lib.rs:254-277 | Each answer is tied to its cause; a stake moves the amount from free to reserved and is recorded, or changes nothing if the reserve is refused. |
| Ledger.UnStakeOutcome | pallets/ocw-pallet/src/lib.rs:279-295 | Exactly stakers succeed; all that was reserved becomes free and the one stake is forgotten. |
| Ledger.SlashOutcome | pallets/ocw-pallet/src/lib.rs:312-329 | Each answer is tied to its cause; the amount, or what there is, leaves the target's reserve and reaches the treasury, or is burned if that is empty and the payment below the minimum. |
| Ledger.BuildOutcome | pallets/ocw-pallet/src/lib.rs:123-133 | Genesis changes the treasury's free balance alone, to the larger of itself and the minimum. |
| Ledger.GenesisRunConserves | pallets/ocw-pallet/src/lib.rs:123-133 | Over every run from genesis the total is constant, nothing is burned, the treasury holds the minimum and gains exactly what was taken. |
| Ledger.RunBalances | pallets/ocw-pallet/src/lib.rs:254-329 | From any ledger and whoever calls, the accounts' total plus what was burned is constant and what is burned only grows. |
| Ledger.TopUpIsNeeded | pallets/ocw-pallet/src/lib.rs:123-133 | With an empty treasury, a stake below the minimum that is slashed is destroyed without the genesis top-up and kept with it. |
| Ledger.Pallet.constructor | pallets/ocw-pallet/src/lib.rs:123-133 | Genesis tops the treasury up to the minimum balance and no further. |
| Ledger.Pallet.StakeAmount | pallets/ocw-pallet/src/lib.rs:254-277 | The method is the stake transition; a refused reserve changes nothing and still succeeds. |
| Ledger.Pallet.Withdraw | pallets/ocw-pallet/src/lib.rs:279-295 | The method is the unstake transition; it frees the whole reserve and forgets the stake. |
| Ledger.Pallet.SlashTarget | pallets/ocw-pallet/src/lib.rs:312-329 | The method is the slash transition; the treasury gains the amount or the target's whole reserve, whichever is less. |

## Left out

- Fetching over HTTP, API keys and JSON parsing: I/O and libraries that are not part of this model.
- The ABI's JSON: the walk starts from class names and field type names.
- The wasm engine, imports and globals: a run is a relation, memory is its bytes at the end of the run.
- Hashing and signature checks: an arbitrary hash and a flag.
- The order in which the job queue is iterated: a worker may stop at any job that is pending or finished.
- What the node prints, events, weights and the unused `params` argument of a request.
- `cal_output_size`, whose widths disagree with the walk and which nothing uses.
- Liveness: a finished job can stop every worker from reaching a pending one, so no progress claim holds.
- The sequential form of the actors' loops: their storage operations are separate steps of a state machine, because other actors come in between.
- Chain reorganisation, which would let a worker start from a state the chain has left.
- Overflow of block numbers and balances, and dust in the balances pallet.
- A lower bound on what is staked: the guards at `pallets/ocw-pallet/src/lib.rs:257`, `:316` and `:318` are modelled as written although they read inverted, and `total_stake` is not tied to the reserve.
- Nominators, API URLs, collator listing, the pallet template, runtime wiring, XCM and the command line.
