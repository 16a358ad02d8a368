/**
 The wasmstore pallet's storage and extrinsics, as functions from a chain
 state and a call to the next chain state and what the call returns. A call
 that fails leaves the storage as it was.
 */
module WasmStore {
  import opened Bytes
  import opened Scale
  import opened Unicode
  import opened Payloads
  import opened ScriptKeys

  /** Runtime constants, the block hash function and the Unicode printability table. */
  datatype Config = Config(
    hash: Bytes -> Bytes32,
    printable: Scalar -> bool,
    maxScriptSize: U32,
    maxScriptKeyLen: U32,
    maxStringSize: U32,
    maxResultSize: U32)

  datatype ScriptType = Executable | Source

  datatype Script = Script(
    publisher: Bytes32, block: nat, code: Blob, abi: Blob, hash: Bytes32, name: Blob, typ: ScriptType, refCount: nat)

  datatype Job = Job(caller: Bytes32, scriptName: Blob, code: Blob, abi: Blob, state: JobState)

  datatype ResultEntry = ResultEntry(data: Blob, extTime: U32)

  datatype Chain = Chain(
    block: nat,
    scripts: map<Bytes, Script>,
    jobs: map<Bytes32, Job>,
    results: map<(Bytes32, Bytes32), ResultEntry>)

  datatype Origin = Signed(who: Bytes32) | Unsigned | Root

  datatype Error = BadOrigin | SizeTooBig | ValAlreadyExist | NoValExist | InvalidOperation

  datatype Outcome = Done | Rejected(error: Error) | Panicked

  datatype Call =
    | UploadWasm(name: Text, typ: ScriptType, code: Bytes, abi: Bytes)
    | RequestExecution(scriptName: Text)
    | ChangeJobState(block: nat, job: Bytes32)
    | SubmitResult(block: nat, key: Bytes, value: Bytes, processor: Bytes32, extTime: U32)

  const GENESIS := Chain(0, map[], map[], map[])

  // ---------- Extrinsics ----------

  function PrefixedName(typ: ScriptType, name: Text): Text {
    (match typ case Executable => [69, 88, 69] case Source => [83, 82, 67]) + name
  }

  function KeyOf(c: Config, name: Text): Option<Bytes> {
    ScriptKey(c.printable, c.maxScriptKeyLen, name)
  }

  /** The bounds an upload is checked against: code, prefixed name, ABI, key. */
  predicate UploadFits(c: Config, name: Text, code: Bytes, abi: Bytes) {
    |code| <= c.maxScriptSize && |EncodeUtf8(name)| <= c.maxStringSize
    && |abi| <= c.maxScriptSize && KeyOf(c, name).Some?
  }

  function Upload(c: Config, ch: Chain, origin: Origin, name: Text, typ: ScriptType, code: Bytes, abi: Bytes)
    : (Chain, Outcome)
  {
    if !origin.Signed? then (ch, Rejected(BadOrigin))
    else
      var full := PrefixedName(typ, name);
      if !UploadFits(c, full, code, abi) then (ch, Rejected(SizeTooBig))
      else
        var key := KeyOf(c, full).value;
        if key in ch.scripts && ch.scripts[key].name == EncodeUtf8(full) && ch.scripts[key].code == code then
          (ch, Rejected(ValAlreadyExist))
        else
          var script := Script(origin.who, ch.block, code, abi, c.hash(code), EncodeUtf8(full), typ, 0);
          (ch.(scripts := ch.scripts[key := script]), Done)
  }

  function EncodeJob(j: Job): Bytes {
    j.caller + EncodeVec(j.scriptName) + EncodeVec(j.code) + EncodeVec(j.abi) + [StateByte(j.state)]
  }

  function JobKey(c: Config, j: Job): Bytes32 {
    c.hash(EncodeJob(j))
  }

  function NewJob(who: Bytes32, name: Text, script: Script): Job
    requires |EncodeUtf8(name)| < 0x1_0000_0000
  {
    Job(who, EncodeUtf8(name), script.code, script.abi, Pending)
  }

  function RequestJob(c: Config, ch: Chain, origin: Origin, name: Text): (Chain, Outcome) {
    if !origin.Signed? then (ch, Rejected(BadOrigin))
    else if KeyOf(c, name).None? then (ch, Rejected(SizeTooBig))
    else
      var key := KeyOf(c, name).value;
      if key !in ch.scripts then (ch, Rejected(NoValExist))
      else if |EncodeUtf8(name)| > c.maxStringSize then (ch, Rejected(SizeTooBig))
      else
        var job := NewJob(origin.who, name, ch.scripts[key]);
        if JobKey(c, job) in ch.jobs then (ch, Rejected(ValAlreadyExist))
        else (ch.(jobs := ch.jobs[JobKey(c, job) := job]), Done)
  }

  function NextState(s: JobState): JobState {
    match s
    case Pending => Processing
    case Processing => Finish
    case _ => s
  }

  function ChangeState(ch: Chain, origin: Origin, key: Bytes32): (Chain, Outcome) {
    if !origin.Unsigned? then (ch, Rejected(BadOrigin))
    else if key !in ch.jobs then (ch, Done)
    else
      var job := ch.jobs[key];
      (ch.(jobs := ch.jobs[key := job.(state := NextState(job.state))]), Done)
  }

  /** A longer key is cut to its first 32 bytes; a shorter one fails to decode and panics. */
  function Submit(c: Config, ch: Chain, origin: Origin, key: Bytes, value: Bytes, processor: Bytes32, extTime: U32)
    : (Chain, Outcome)
  {
    if !origin.Unsigned? then (ch, Rejected(BadOrigin))
    else if |key| < 32 then (ch, Panicked)
    else
      var job: Bytes32 := key[..32];
      if job !in ch.jobs then (ch, Done)
      else if ch.jobs[job].state != Finish then (ch, Rejected(InvalidOperation))
      else if |value| > c.maxResultSize then
        (ch, if (job, processor) in ch.results then Panicked else Rejected(SizeTooBig))
      else (ch.(results := ch.results[(job, processor) := ResultEntry(value, extTime)]), Done)
  }

  function Dispatch(c: Config, ch: Chain, origin: Origin, call: Call): (Chain, Outcome) {
    match call
    case UploadWasm(name, typ, code, abi) => Upload(c, ch, origin, name, typ, code, abi)
    case RequestExecution(name) => RequestJob(c, ch, origin, name)
    case ChangeJobState(_, job) => ChangeState(ch, origin, job)
    case SubmitResult(_, key, value, processor, time) => Submit(c, ch, origin, key, value, processor, time)
  }

  datatype Validity = Valid | Future | BadProof | NotAccepted | ValidatorPanicked

  function ValidateKey(ch: Chain, block: nat, key: Bytes32): Validity {
    if ch.block < block then Future
    else if key == seq(32, _ => 0) then BadProof
    else Valid
  }

  function ValidateUnsigned(ch: Chain, call: Call): Validity {
    match call
    case ChangeJobState(block, job) => ValidateKey(ch, block, job)
    case SubmitResult(block, key, _, _, _) =>
      if |key| < 32 then ValidatorPanicked else ValidateKey(ch, block, key[..32])
    case _ => NotAccepted
  }

  // ---------- What every call keeps ----------

  /** Each script is stored under the key built from its own name. */
  ghost predicate ScriptsOk(c: Config, scripts: map<Bytes, Script>) {
    forall k :: k in scripts ==>
      && NameOfKey(k).Some? && KeyOf(c, NameOfKey(k).value) == Some(k)
      && scripts[k].name == EncodeUtf8(NameOfKey(k).value)
      && |scripts[k].code| <= c.maxScriptSize && |scripts[k].abi| <= c.maxScriptSize
  }

  /** A job is stored under the hash it had when it was pending, and it has been requested. */
  ghost predicate JobOk(c: Config, key: Bytes32, job: Job) {
    && key == JobKey(c, job.(state := Pending))
    && job.state != Idling
    && |job.code| <= c.maxScriptSize && |job.abi| <= c.maxScriptSize
  }

  ghost predicate JobsOk(c: Config, jobs: map<Bytes32, Job>) {
    forall k :: k in jobs ==> JobOk(c, k, jobs[k])
  }

  /** Results are kept only for finished jobs, within the size bound. */
  ghost predicate ResultsOk(c: Config, ch: Chain) {
    forall e :: e in ch.results ==>
      e.0 in ch.jobs && ch.jobs[e.0].state == Finish && |ch.results[e].data| <= c.maxResultSize
  }

  ghost predicate ChainOk(c: Config, ch: Chain) {
    ScriptsOk(c, ch.scripts) && JobsOk(c, ch.jobs) && ResultsOk(c, ch)
  }

  /** The same job, at the same or a later state. */
  ghost predicate Advanced(before: Job, after: Job) {
    after == before.(state := after.state) && StateByte(before.state) <= StateByte(after.state)
  }

  /** Jobs are never removed and never lose the code and ABI they were requested with. */
  ghost predicate JobsGrow(before: map<Bytes32, Job>, after: map<Bytes32, Job>) {
    forall k :: k in before ==> k in after && Advanced(before[k], after[k])
  }

  lemma GenesisOk(c: Config)
    ensures ChainOk(c, GENESIS)
  {
  }

  lemma UploadKeepsOk(c: Config, ch: Chain, origin: Origin, name: Text, typ: ScriptType, code: Bytes, abi: Bytes)
    requires ChainOk(c, ch)
    ensures ChainOk(c, Upload(c, ch, origin, name, typ, code, abi).0)
    ensures Upload(c, ch, origin, name, typ, code, abi).0.jobs == ch.jobs
  {
    hide EncodeUtf8, NameOfKey, KeyOf, PrefixedName, ScriptsOk, JobsOk;
    var full := PrefixedName(typ, name);
    if UploadFits(c, full, code, abi) {
      KeyNamesBack(c, full);
      var after := Upload(c, ch, origin, name, typ, code, abi).0;
      if after != ch {
        PutScriptKeepsOk(c, ch.scripts, full, after.scripts[KeyOf(c, full).value]);
      }
    }
  }

  lemma KeyNamesBack(c: Config, name: Text)
    requires KeyOf(c, name).Some?
    ensures NameOfKey(KeyOf(c, name).value) == Some(name)
  {
    KeyRoundTrip(c.printable, c.maxScriptKeyLen, name);
  }

  lemma PutScriptKeepsOk(c: Config, scripts: map<Bytes, Script>, name: Text, script: Script)
    requires ScriptsOk(c, scripts) && KeyOf(c, name).Some? && NameOfKey(KeyOf(c, name).value) == Some(name)
    requires script.name == EncodeUtf8(name)
    requires |script.code| <= c.maxScriptSize && |script.abi| <= c.maxScriptSize
    ensures ScriptsOk(c, scripts[KeyOf(c, name).value := script])
  {
    hide EncodeUtf8, NameOfKey, KeyOf;
  }

  lemma RequestKeepsOk(c: Config, ch: Chain, origin: Origin, name: Text)
    requires ChainOk(c, ch)
    ensures ChainOk(c, RequestJob(c, ch, origin, name).0)
    ensures JobsGrow(ch.jobs, RequestJob(c, ch, origin, name).0.jobs)
  {
    hide EncodeUtf8, NameOfKey, JobKey, KeyOf, ResultsOk, JobsOk, JobsGrow;
    if RequestJob(c, ch, origin, name).1.Done? {
      var script := ch.scripts[KeyOf(c, name).value];
      AddJobKeepsOk(c, ch, NewJob(origin.who, name, script));
    } else {
      AddNothing(ch.jobs);
    }
  }

  lemma AddNothing(jobs: map<Bytes32, Job>)
    ensures JobsGrow(jobs, jobs)
  {
  }

  lemma AddJobKeepsOk(c: Config, ch: Chain, job: Job)
    requires JobsOk(c, ch.jobs) && ResultsOk(c, ch)
    requires job.state == Pending && |job.code| <= c.maxScriptSize && |job.abi| <= c.maxScriptSize
    requires JobKey(c, job) !in ch.jobs
    ensures var after := ch.(jobs := ch.jobs[JobKey(c, job) := job]);
            JobsOk(c, after.jobs) && ResultsOk(c, after) && JobsGrow(ch.jobs, after.jobs)
  {
    hide JobKey;
    assert job.(state := Pending) == job;
  }

  lemma ChangeStateKeepsOk(c: Config, ch: Chain, origin: Origin, key: Bytes32)
    requires ChainOk(c, ch)
    ensures ChainOk(c, ChangeState(ch, origin, key).0)
    ensures JobsGrow(ch.jobs, ChangeState(ch, origin, key).0.jobs)
  {
    hide EncodeUtf8, NameOfKey, JobKey;
    if key in ch.jobs {
      var job := ch.jobs[key];
      assert job.(state := NextState(job.state)).(state := Pending) == job.(state := Pending);
    }
  }

  lemma SubmitKeepsOk(
    c: Config, ch: Chain, origin: Origin, key: Bytes, value: Bytes, processor: Bytes32, extTime: U32)
    requires ChainOk(c, ch)
    ensures ChainOk(c, Submit(c, ch, origin, key, value, processor, extTime).0)
    ensures Submit(c, ch, origin, key, value, processor, extTime).0.jobs == ch.jobs
  {
    hide EncodeUtf8, NameOfKey, JobKey;
  }

  lemma DispatchKeepsOk(c: Config, ch: Chain, origin: Origin, call: Call)
    requires ChainOk(c, ch)
    ensures ChainOk(c, Dispatch(c, ch, origin, call).0)
    ensures JobsGrow(ch.jobs, Dispatch(c, ch, origin, call).0.jobs)
  {
    hide ChainOk, Upload, RequestJob, ChangeState, Submit;
    match call
    case UploadWasm(name, typ, code, abi) => UploadKeepsOk(c, ch, origin, name, typ, code, abi);
    case RequestExecution(name) => RequestKeepsOk(c, ch, origin, name);
    case ChangeJobState(_, job) => ChangeStateKeepsOk(c, ch, origin, job);
    case SubmitResult(_, key, value, processor, time) => SubmitKeepsOk(c, ch, origin, key, value, processor, time);
  }

  /** A call that fails, or that panics, leaves the storage as it was. */
  lemma FailureChangesNothing(c: Config, ch: Chain, origin: Origin, call: Call)
    requires !Dispatch(c, ch, origin, call).1.Done?
    ensures Dispatch(c, ch, origin, call).0 == ch
  {
    hide EncodeUtf8, JobKey, KeyOf;
  }

  lemma JobsGrowTrans(a: map<Bytes32, Job>, b: map<Bytes32, Job>, d: map<Bytes32, Job>)
    requires JobsGrow(a, b) && JobsGrow(b, d)
    ensures JobsGrow(a, d)
  {
  }

  // ---------- Over whole runs ----------

  /** One thing that happens to the chain: a call in the current block, or the next block. */
  datatype Event = Include(origin: Origin, call: Call) | NextBlock

  function Advance(c: Config, ch: Chain, e: Event): Chain {
    match e
    case Include(origin, call) => Dispatch(c, ch, origin, call).0
    case NextBlock => ch.(block := ch.block + 1)
  }

  function Run(c: Config, ch: Chain, events: seq<Event>): Chain
    decreases |events|
  {
    if events == [] then ch else Run(c, Advance(c, ch, events[0]), events[1..])
  }

  lemma AdvanceKeepsOk(c: Config, ch: Chain, e: Event)
    requires ChainOk(c, ch)
    ensures ChainOk(c, Advance(c, ch, e))
    ensures JobsGrow(ch.jobs, Advance(c, ch, e).jobs)
  {
    hide Dispatch;
    if e.Include? {
      DispatchKeepsOk(c, ch, e.origin, e.call);
    }
  }

  /** From genesis and in any order of calls, the three storages keep their invariants. */
  lemma {:induction false} RunKeepsOk(c: Config, ch: Chain, events: seq<Event>)
    requires ChainOk(c, ch)
    ensures ChainOk(c, Run(c, ch, events))
    ensures JobsGrow(ch.jobs, Run(c, ch, events).jobs)
    decreases |events|
  {
    if events == [] {
    } else {
      AdvanceKeepsOk(c, ch, events[0]);
      RunKeepsOk(c, Advance(c, ch, events[0]), events[1..]);
    }
  }

  // ---------- What the script keys undo ----------

  /**
   An upload that fits, under a key that is taken, is accepted exactly when the
   code differs: the stored name is always the uploaded one, so a new ABI alone
   never replaces a script.
   */
  lemma ReuploadNeedsNewCode(
    c: Config, ch: Chain, who: Bytes32, name: Text, typ: ScriptType, code: Bytes, abi: Bytes)
    requires ChainOk(c, ch)
    requires UploadFits(c, PrefixedName(typ, name), code, abi)
    requires KeyOf(c, PrefixedName(typ, name)).value in ch.scripts
    ensures Upload(c, ch, Signed(who), name, typ, code, abi).1.Done?
            <==> code != ch.scripts[KeyOf(c, PrefixedName(typ, name)).value].code
  {
    KeyRoundTrip(c.printable, c.maxScriptKeyLen, PrefixedName(typ, name));
  }

  /** An accepted request is for a stored script of that very name, and copies its code and ABI. */
  lemma RequestTakesSnapshot(c: Config, ch: Chain, who: Bytes32, name: Text)
    requires ChainOk(c, ch)
    requires RequestJob(c, ch, Signed(who), name).1.Done?
    ensures KeyOf(c, name).Some? && KeyOf(c, name).value in ch.scripts
    ensures var key := KeyOf(c, name).value;
            var script := ch.scripts[key];
            var job := Job(who, script.name, script.code, script.abi, Pending);
            && NameOfKey(key) == Some(name) && script.name == EncodeUtf8(name)
            && RequestJob(c, ch, Signed(who), name).0 == ch.(jobs := ch.jobs[JobKey(c, job) := job])
  {
    hide EncodeUtf8, NameOfKey, JobKey;
    KeyRoundTrip(c.printable, c.maxScriptKeyLen, name);
  }

  /** Whatever happens in between, the job requested first still has its code and ABI at the end. */
  lemma SnapshotSurvives(c: Config, ch: Chain, who: Bytes32, name: Text, events: seq<Event>)
    requires ChainOk(c, ch)
    requires RequestJob(c, ch, Signed(who), name).1.Done?
    ensures var script := ch.scripts[KeyOf(c, name).value];
            var job := NewJob(who, name, script);
            var last := Run(c, RequestJob(c, ch, Signed(who), name).0, events);
            && JobKey(c, job) in last.jobs
            && last.jobs[JobKey(c, job)] == job.(state := last.jobs[JobKey(c, job)].state)
  {
    DispatchKeepsOk(c, ch, Signed(who), RequestExecution(name));
    RunKeepsOk(c, RequestJob(c, ch, Signed(who), name).0, events);
  }

  /** The same request is refused for ever after, however far its job has come, while the script is the same. */
  lemma RepeatedRequestRefused(c: Config, ch: Chain, who: Bytes32, name: Text, events: seq<Event>)
    requires ChainOk(c, ch)
    requires RequestJob(c, ch, Signed(who), name).1.Done?
    ensures var last := Run(c, RequestJob(c, ch, Signed(who), name).0, events);
            var key := KeyOf(c, name).value;
            key in last.scripts && last.scripts[key].code == ch.scripts[key].code
              && last.scripts[key].abi == ch.scripts[key].abi
            ==> RequestJob(c, last, Signed(who), name) == (last, Rejected(ValAlreadyExist))
  {
    SnapshotSurvives(c, ch, who, name, events);
  }
}
