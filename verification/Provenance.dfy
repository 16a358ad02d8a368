/**
 The store invariant over every schedule, and what follows for the results
 that workers submit: each is an output of running exactly the code and ABI
 the chain holds for that job, unless that job's ABI length is ambiguous.
 */
module Provenance {
  import opened Bytes
  import opened Payloads
  import opened KeyLists
  import opened Pipeline
  import WS = WasmStore

  type Jobs = map<Bytes32, WS.Job>

  // ---------- Facts about single values, relative to the jobs on chain ----------

  ghost predicate IdKnown(jobs: Jobs, id: Bytes) {
    |id| == 32 && id in jobs
  }

  ghost predicate IdsKnown(jobs: Jobs, ids: seq<Bytes>) {
    forall k :: 0 <= k < |ids| ==> IdKnown(jobs, ids[k])
  }

  /** "init" followed by whole ids of known jobs. */
  ghost predicate ListOk(jobs: Jobs, list: Bytes) {
    |list| >= 4 && IdsKnown(jobs, ParseList(list)) && list == ListOf(ParseList(list))
  }

  ghost predicate OutputOf(p: Params, jobs: Jobs, id: Bytes, out: Blob) {
    IdKnown(jobs, id) && p.runs(jobs[id].code, jobs[id].abi, out)
  }

  ghost predicate IsJobRequest(jobs: Jobs, id: Bytes, raw: Bytes) {
    IdKnown(jobs, id) && raw == EncodeRequest(JobRequest(id, jobs[id]))
  }

  ghost predicate IsJobResponse(p: Params, jobs: Jobs, id: Bytes, raw: Bytes) {
    && ParseResponse(raw).Parsed?
    && var r := ParseResponse(raw).value;
       && raw == EncodeResponse(r)
       && r.jobId == id && r.state == Finish && r.address == p.Processor()
       && OutputOf(p, jobs, id, r.result)
  }

  /** What a 32-byte key may hold. */
  ghost predicate RecordOk(p: Params, jobs: Jobs, id: Bytes, raw: Bytes) {
    IsJobRequest(jobs, id, raw) || IsJobResponse(p, jobs, id, raw)
  }

  ghost predicate ResultOk(p: Params, jobs: Jobs, r: JobResult) {
    OutputOf(p, jobs, r.jobId, r.result)
  }

  ghost predicate PayloadOk(jobs: Jobs, payload: Request) {
    || payload == DEFAULT_REQUEST
    || (IdKnown(jobs, payload.jobId) && payload == JobRequest(payload.jobId, jobs[payload.jobId]))
  }

  /** A submitted result is an output of its job; only an ambiguous ABI lets the job's code through instead. */
  ghost predicate CallOk(p: Params, jobs: Jobs, call: WS.Call) {
    match call
    case ChangeJobState(_, job) => job in jobs
    case SubmitResult(_, key, value, processor, _) =>
      && IdKnown(jobs, key)
      && ((|value| < 0x1_0000_0000 && OutputOf(p, jobs, key, value) && processor == p.Processor())
          || (Ambiguous(jobs[key].abi) && value == jobs[key].code))
    case _ => false
  }

  // ---------- The invariant ----------

  ghost predicate EntryOk(p: Params, jobs: Jobs, key: Bytes, raw: Bytes) {
    && (|key| == 32 ==> RecordOk(p, jobs, key, raw))
    && (key == JOB_LIST_KEY || key == RESULT_LIST_KEY ==> ListOk(jobs, raw))
  }

  ghost predicate StoreOk(p: Params, jobs: Jobs, db: Db) {
    forall key :: key in db ==> EntryOk(p, jobs, key, db[key])
  }

  ghost predicate WorkerOk(p: Params, jobs: Jobs, k: Worker) {
    match k
    case Started(snapshot) => WS.JobsGrow(snapshot.jobs, jobs)
    case HasJobList(snapshot, jobList) => WS.JobsGrow(snapshot.jobs, jobs) && ListOk(jobs, jobList)
    case HasBothLists(snapshot, jobList, resultList) =>
      WS.JobsGrow(snapshot.jobs, jobs) && ListOk(jobs, jobList) && ListOk(jobs, resultList)
    case Listing(_, jobList, job, payload, resultList) =>
      ListOk(jobs, jobList) && IdKnown(jobs, job) && PayloadOk(jobs, payload) && ListOk(jobs, resultList)
    case Storing(_, payload, resultList) => PayloadOk(jobs, payload) && ListOk(jobs, resultList)
    case Collecting(_, todo) => IdsKnown(jobs, todo)
    case Reporting(_, key, raw, todo) => RecordOk(p, jobs, key, raw) && IdsKnown(jobs, todo)
  }

  ghost predicate MonitorOk(jobs: Jobs, m: Monitor) {
    match m
    case Idle => true
    case Rereading(seen, ids) => IdsKnown(jobs, ids)
    case Clearing(seen, ids, current) => IdsKnown(jobs, ids)
    case Dispatching(todo) => IdsKnown(jobs, todo)
    case Crashed => false
  }

  ghost predicate TaskOk(p: Params, jobs: Jobs, t: Task) {
    match t
    case Running(key, raw) => RecordOk(p, jobs, key, raw)
    case Sending(r) => ResultOk(p, jobs, r)
  }

  ghost predicate ListenerOk(p: Params, jobs: Jobs, l: Listener) {
    match l
    case Waiting => true
    case Received(r) => ResultOk(p, jobs, r)
    case Replacing(r, _) => ResultOk(p, jobs, r)
    case Stored(r) => ResultOk(p, jobs, r)
    case Extending(r, newList) => ResultOk(p, jobs, r) && ListOk(jobs, newList)
    case Appending(r, newList, _) => ResultOk(p, jobs, r) && ListOk(jobs, newList)
  }

  ghost predicate WorkersOk(p: Params, jobs: Jobs, workers: map<nat, Worker>) {
    forall w :: w in workers ==> WorkerOk(p, jobs, workers[w])
  }

  ghost predicate TasksOk(p: Params, jobs: Jobs, tasks: map<nat, Task>) {
    forall t :: t in tasks ==> TaskOk(p, jobs, tasks[t])
  }

  ghost predicate ChannelOk(p: Params, jobs: Jobs, channel: seq<JobResult>) {
    forall k :: 0 <= k < |channel| ==> ResultOk(p, jobs, channel[k])
  }

  ghost predicate CallsOk(p: Params, jobs: Jobs, calls: seq<WS.Call>) {
    forall k :: 0 <= k < |calls| ==> CallOk(p, jobs, calls[k])
  }

  /** Before the boot sequence has set a list, a worker finds an older one or none. */
  ghost predicate ListsPresent(s: State) {
    && (s.boot != SetJobList ==> JOB_LIST_KEY in s.db)
    && (s.boot == SetIdentity || s.boot == Up ==> RESULT_LIST_KEY in s.db)
  }

  ghost predicate Inv(p: Params, s: State) {
    && WS.ChainOk(p.pallet, s.chain)
    && StoreOk(p, s.chain.jobs, s.db)
    && ListsPresent(s)
    && WorkersOk(p, s.chain.jobs, s.workers)
    && MonitorOk(s.chain.jobs, s.monitor)
    && TasksOk(p, s.chain.jobs, s.tasks)
    && ChannelOk(p, s.chain.jobs, s.channel)
    && ListenerOk(p, s.chain.jobs, s.listener)
    && CallsOk(p, s.chain.jobs, s.past.submitted)
  }

  // ---------- Lists ----------

  lemma InitOk(jobs: Jobs)
    ensures ListOk(jobs, INIT)
  {
    ParseListOf([]);
    assert ListOf([]) == INIT;
  }

  lemma AppendOk(jobs: Jobs, list: Bytes, id: Bytes)
    requires ListOk(jobs, list) && IdKnown(jobs, id)
    ensures ListOk(jobs, list + id)
  {
    var ids := ParseList(list);
    ListOfAppend(ids, id);
    ParseListOf(ids + [id]);
  }

  // ---------- New jobs and later states break nothing ----------

  lemma RecordStays(p: Params, a: Jobs, b: Jobs, id: Bytes, raw: Bytes)
    requires WS.JobsGrow(a, b) && RecordOk(p, a, id, raw)
    ensures RecordOk(p, b, id, raw)
  {
    hide EncodeRequest, ParseResponse, EncodeResponse;
    assert WS.Advanced(a[id], b[id]);
  }

  lemma ListStays(a: Jobs, b: Jobs, list: Bytes)
    requires WS.JobsGrow(a, b) && ListOk(a, list)
    ensures ListOk(b, list)
  {
    hide ParseList, ListOf;
  }

  lemma StoreStays(p: Params, a: Jobs, b: Jobs, db: Db)
    requires WS.JobsGrow(a, b) && StoreOk(p, a, db)
    ensures StoreOk(p, b, db)
  {
    hide RecordOk, ListOk, WS.JobsGrow;
    forall key | key in db ensures EntryOk(p, b, key, db[key]) {
      assert EntryOk(p, a, key, db[key]);
      if |key| == 32 {
        RecordStays(p, a, b, key, db[key]);
      }
      if key == JOB_LIST_KEY || key == RESULT_LIST_KEY {
        ListStays(a, b, db[key]);
      }
    }
  }

  lemma OutputStays(p: Params, a: Jobs, b: Jobs, id: Bytes, out: Blob)
    requires WS.JobsGrow(a, b) && OutputOf(p, a, id, out)
    ensures OutputOf(p, b, id, out)
  {
    assert WS.Advanced(a[id], b[id]);
  }

  lemma PayloadStays(a: Jobs, b: Jobs, payload: Request)
    requires WS.JobsGrow(a, b) && PayloadOk(a, payload)
    ensures PayloadOk(b, payload)
  {
    if payload != DEFAULT_REQUEST {
      assert WS.Advanced(a[payload.jobId], b[payload.jobId]);
    }
  }

  lemma WorkerStays(p: Params, a: Jobs, b: Jobs, k: Worker)
    requires WS.JobsGrow(a, b) && WorkerOk(p, a, k)
    ensures WorkerOk(p, b, k)
  {
    hide RecordOk, ListOk, PayloadOk, WS.JobsGrow;
    match k
    case Started(snapshot) => WS.JobsGrowTrans(snapshot.jobs, a, b);
    case HasJobList(snapshot, jobList) =>
      WS.JobsGrowTrans(snapshot.jobs, a, b);
      ListStays(a, b, jobList);
    case HasBothLists(snapshot, jobList, resultList) =>
      WS.JobsGrowTrans(snapshot.jobs, a, b);
      ListStays(a, b, jobList);
      ListStays(a, b, resultList);
    case Listing(_, jobList, job, payload, resultList) =>
      ListStays(a, b, jobList);
      PayloadStays(a, b, payload);
      ListStays(a, b, resultList);
      IdsStay(a, b, [job]);
    case Storing(_, payload, resultList) =>
      PayloadStays(a, b, payload);
      ListStays(a, b, resultList);
    case Collecting(_, todo) => IdsStay(a, b, todo);
    case Reporting(_, key, raw, todo) =>
      RecordStays(p, a, b, key, raw);
      IdsStay(a, b, todo);
  }

  lemma IdsStay(a: Jobs, b: Jobs, ids: seq<Bytes>)
    requires WS.JobsGrow(a, b)
    ensures IdsKnown(a, ids) ==> IdsKnown(b, ids)
    ensures forall id :: IdKnown(a, id) ==> IdKnown(b, id)
  {
  }

  lemma ListenerStays(p: Params, a: Jobs, b: Jobs, l: Listener)
    requires WS.JobsGrow(a, b) && ListenerOk(p, a, l)
    ensures ListenerOk(p, b, l)
  {
    hide OutputOf, ListOk, WS.JobsGrow;
    if !l.Waiting? {
      OutputStays(p, a, b, l.r.jobId, l.r.result);
    }
    if l.Extending? || l.Appending? {
      ListStays(a, b, l.newList);
    }
  }

  lemma CallStays(p: Params, a: Jobs, b: Jobs, call: WS.Call)
    requires WS.JobsGrow(a, b) && CallOk(p, a, call)
    ensures CallOk(p, b, call)
  {
    match call
    case ChangeJobState(_, job) =>
    case SubmitResult(_, key, value, _, _) => assert WS.Advanced(a[key], b[key]);
  }

  lemma ChainStepKeeps(p: Params, s: State, e: WS.Event)
    requires Inv(p, s)
    ensures Inv(p, s.(chain := WS.Advance(p.pallet, s.chain, e)))
  {
    hide WS.Advance, WS.ChainOk, WS.JobsGrow, StoreOk, WorkerOk, ListenerOk, OutputOf, RecordOk, CallOk, IdsKnown;
    WS.AdvanceKeepsOk(p.pallet, s.chain, e);
    var a, b := s.chain.jobs, WS.Advance(p.pallet, s.chain, e).jobs;
    StoreStays(p, a, b, s.db);
    forall w | w in s.workers ensures WorkerOk(p, b, s.workers[w]) {
      WorkerStays(p, a, b, s.workers[w]);
    }
    forall t | t in s.tasks ensures TaskOk(p, b, s.tasks[t]) {
      assert TaskOk(p, a, s.tasks[t]);
      match s.tasks[t]
      case Running(key, raw) => RecordStays(p, a, b, key, raw);
      case Sending(r) => OutputStays(p, a, b, r.jobId, r.result);
    }
    forall k | 0 <= k < |s.channel| ensures ResultOk(p, b, s.channel[k]) {
      OutputStays(p, a, b, s.channel[k].jobId, s.channel[k].result);
    }
    forall k | 0 <= k < |s.past.submitted| ensures CallOk(p, b, s.past.submitted[k]) {
      CallStays(p, a, b, s.past.submitted[k]);
    }
    ListenerStays(p, a, b, s.listener);
    match s.monitor
    case Rereading(_, ids) => IdsStay(a, b, ids);
    case Clearing(_, ids, _) => IdsStay(a, b, ids);
    case Dispatching(todo) => IdsStay(a, b, todo);
    case _ =>
  }

  // ---------- Boot ----------

  lemma BootKeeps(p: Params, s: State)
    requires Inv(p, s)
    ensures Inv(p, Booted(p, s))
  {
    hide WS.ChainOk, WorkersOk, MonitorOk, TasksOk, ChannelOk, ListenerOk, CallsOk, RecordOk, ListOk;
    InitOk(s.chain.jobs);
  }

  // ---------- Workers ----------

  lemma SetWorkerKeeps(p: Params, s: State, w: nat, next: Option<Worker>)
    requires Inv(p, s) && (next.Some? ==> WorkerOk(p, s.chain.jobs, next.value))
    ensures Inv(p, SetWorker(s, w, next))
  {
    hide WS.ChainOk, StoreOk, WorkerOk, MonitorOk, TasksOk, ChannelOk, ListenerOk, CallsOk;
  }

  lemma SubmittedKeeps(p: Params, s: State, call: WS.Call)
    requires Inv(p, s) && CallOk(p, s.chain.jobs, call)
    ensures Inv(p, Submitted(s, call))
  {
    hide WS.ChainOk, StoreOk, WorkersOk, MonitorOk, TasksOk, ChannelOk, ListenerOk, CallOk;
  }

  /** A write that keeps its own entry in order keeps the store in order. */
  lemma WriteKeeps(p: Params, s: State, db: Db)
    requires Inv(p, s)
    requires s.db.Keys <= db.Keys
    requires forall key :: key in db ==> (key in s.db && db[key] == s.db[key]) || EntryOk(p, s.chain.jobs, key, db[key])
    ensures Inv(p, s.(db := db))
  {
    hide WS.ChainOk, WorkersOk, MonitorOk, TasksOk, ChannelOk, ListenerOk, CallsOk, EntryOk;
    assert StoreOk(p, s.chain.jobs, db);
  }

  lemma AfterJobOk(p: Params, jobs: Jobs, block: nat, resultList: Bytes)
    requires ListOk(jobs, resultList)
    ensures AfterJob(block, resultList).Some? ==> WorkerOk(p, jobs, AfterJob(block, resultList).value)
  {
  }

  /** A snapshot's job still has the code and ABI that the chain holds now. */
  lemma SnapshotRequest(jobs: Jobs, snapshot: Jobs, job: Bytes32)
    requires WS.JobsGrow(snapshot, jobs) && job in snapshot
    ensures IdKnown(jobs, job) && JobRequest(job, snapshot[job]) == JobRequest(job, jobs[job])
  {
    assert WS.Advanced(snapshot[job], jobs[job]);
  }

  lemma ListingOk(p: Params, jobs: Jobs, k: Worker, job: Bytes32, payload: Request)
    requires k.HasBothLists? && WorkerOk(p, jobs, k) && IdKnown(jobs, job) && PayloadOk(jobs, payload)
    ensures WorkerOk(p, jobs, Listing(k.snapshot.block, k.jobList, job, payload, k.resultList))
  {
  }

  lemma HandleJobKeeps(p: Params, s: State, w: nat, job: Bytes32, poolAccepts: bool)
    requires Inv(p, s) && w in s.workers && s.workers[w].HasBothLists?
    requires job in s.workers[w].snapshot.jobs && Stops(s.workers[w].snapshot.jobs[job].state)
    ensures Inv(p, HandledJob(s, w, s.workers[w], job, poolAccepts))
  {
    var k := s.workers[w];
    WorkerKnown(p, s, w);
    AfterJobOk(p, s.chain.jobs, k.snapshot.block, k.resultList);
    SnapshotRequest(s.chain.jobs, k.snapshot.jobs, job);
    hide Inv, ListOk, WorkerOk, WS.JobsGrow;
    if k.snapshot.jobs[job].state == Finish {
      SetWorkerKeeps(p, s, w, AfterJob(k.snapshot.block, k.resultList));
    } else {
      var payload := if poolAccepts then JobRequest(job, k.snapshot.jobs[job]) else DEFAULT_REQUEST;
      var call := WS.ChangeJobState(k.snapshot.block, job);
      if poolAccepts {
        SubmittedKeeps(p, s, call);
      }
      ListingOk(p, s.chain.jobs, k, job, payload);
      var s1 := if poolAccepts then Submitted(s, call) else s;
      SetWorkerKeeps(p, s1, w, Some(Listing(k.snapshot.block, k.jobList, job, payload, k.resultList)));
    }
  }

  lemma SwapJobListKeeps(p: Params, s: State, w: nat)
    requires Inv(p, s) && w in s.workers && s.workers[w].Listing?
    ensures Inv(p, SwappedJobList(s, w, s.workers[w]))
  {
    var k := s.workers[w];
    var next := Storing(k.block, k.payload, k.resultList);
    assert WorkerOk(p, s.chain.jobs, k);
    assert WorkerOk(p, s.chain.jobs, next);
    AppendOk(s.chain.jobs, k.jobList, k.job);
    assert EntryOk(p, s.chain.jobs, JOB_LIST_KEY, k.jobList + k.job);
    hide EntryOk, ListOk, WorkerOk, Inv;
    var s1 := s.(db := CompareAndSet(s.db, JOB_LIST_KEY, k.jobList, k.jobList + k.job));
    WriteKeeps(p, s, s1.db);
    var won := JOB_LIST_KEY in s.db && s.db[JOB_LIST_KEY] == k.jobList;
    var s2 := if won then s1.(past := s1.past.(appended := s1.past.appended + [k.job])) else s1;
    PastKeeps(p, s1, s2.past);
    SetWorkerKeeps(p, s2, w, Some(next));
  }

  /** The rest of the history plays no part in the invariant. */
  lemma PastKeeps(p: Params, s: State, past: History)
    requires Inv(p, s) && past.submitted == s.past.submitted
    ensures Inv(p, s.(past := past))
  {
    hide WS.ChainOk, StoreOk, WorkersOk, MonitorOk, TasksOk, ChannelOk, ListenerOk, CallsOk;
  }

  lemma PayloadIsEntry(p: Params, jobs: Jobs, payload: Request)
    requires PayloadOk(jobs, payload)
    ensures EntryOk(p, jobs, payload.jobId, EncodeRequest(payload))
  {
  }

  lemma StorePayloadKeeps(p: Params, s: State, w: nat)
    requires Inv(p, s) && w in s.workers && s.workers[w].Storing?
    ensures Inv(p, StoredPayload(s, w, s.workers[w]))
  {
    var k := s.workers[w];
    assert WorkerOk(p, s.chain.jobs, k);
    PayloadIsEntry(p, s.chain.jobs, k.payload);
    AfterJobOk(p, s.chain.jobs, k.block, k.resultList);
    hide EntryOk, ListOk, WorkerOk, Inv;
    var s1 := s.(db := s.db[k.payload.jobId := EncodeRequest(k.payload)]);
    WriteKeeps(p, s, s1.db);
    SetWorkerKeeps(p, s1, w, AfterJob(k.block, k.resultList));
  }

  lemma LoadResultKeeps(p: Params, s: State, w: nat)
    requires Inv(p, s) && w in s.workers && s.workers[w].Collecting?
    ensures Inv(p, LoadedResult(s, w, s.workers[w]))
  {
    var k := s.workers[w];
    assert WorkerOk(p, s.chain.jobs, k);
    hide RecordOk, ListOk, Inv;
    if k.todo == [] {
      SetWorkerKeeps(p, s, w, None);
    } else if k.todo[0] !in s.db {
      SetWorkerKeeps(p, s, w, Some(Collecting(k.block, k.todo[1..])));
    } else {
      KnownEntry(p, s, k.todo[0]);
      SetWorkerKeeps(p, s, w, Some(Reporting(k.block, k.todo[0], s.db[k.todo[0]], k.todo[1..])));
    }
  }

  lemma KnownEntry(p: Params, s: State, id: Bytes)
    requires Inv(p, s) && IdKnown(s.chain.jobs, id) && id in s.db
    ensures RecordOk(p, s.chain.jobs, id, s.db[id])
  {
    hide WS.ChainOk, WorkersOk, MonitorOk, TasksOk, ChannelOk, ListenerOk, CallsOk, RecordOk, ListOk;
    assert EntryOk(p, s.chain.jobs, id, s.db[id]);
  }

  /** What a worker submits for a record is in order: the two records are told apart as far as they can be. */
  lemma ReportIsOk(p: Params, jobs: Jobs, block: nat, key: Bytes, raw: Bytes)
    requires RecordOk(p, jobs, key, raw) && ParseResponse(raw).Parsed?
    ensures var r := ParseResponse(raw).value;
            CallOk(p, jobs, WS.SubmitResult(block, r.jobId, r.result, r.address, r.exeTime))
  {
    hide ParseResponse, EncodeRequest, EncodeResponse;
    if IsJobRequest(jobs, key, raw) {
      RequestReadAsResponse(JobRequest(key, jobs[key]));
    }
  }

  lemma ReportResultKeeps(p: Params, s: State, w: nat, poolAccepts: bool)
    requires Inv(p, s) && w in s.workers && s.workers[w].Reporting?
    ensures Inv(p, ReportedResult(s, w, s.workers[w], poolAccepts))
  {
    var k := s.workers[w];
    assert WorkerOk(p, s.chain.jobs, k);
    hide RecordOk, ParseResponse, Inv, CallOk;
    var next := Some(Collecting(k.block, k.todo));
    if ParseResponse(k.raw).Failed? {
      SetWorkerKeeps(p, s, w, next);
    } else if !poolAccepts {
      SetWorkerKeeps(p, s, w, None);
    } else {
      ReportIsOk(p, s.chain.jobs, k.block, k.key, k.raw);
      var r := ParseResponse(k.raw).value;
      var call := WS.SubmitResult(k.block, r.jobId, r.result, r.address, r.exeTime);
      SubmittedKeeps(p, s, call);
      SetWorkerKeeps(p, Submitted(s, call), w, next);
    }
  }

  lemma ReadListsKeeps(p: Params, s: State, w: nat, move: WorkerMove)
    requires Inv(p, s) && (move.Start? || move.ReadJobList? || move.ReadResultList? || move.NothingToDo?)
    ensures Inv(p, WorkerStepped(s, w, move))
  {
    var jobs := s.chain.jobs;
    assert WS.JobsGrow(jobs, jobs);
    assert forall key :: key in s.db && (key == JOB_LIST_KEY || key == RESULT_LIST_KEY) ==>
        EntryOk(p, jobs, key, s.db[key]);
    hide Inv, ListOk, RecordOk, WS.JobsGrow;
    if w !in s.workers {
      SetWorkerKeeps(p, s, w, Some(Started(s.chain)));
    } else {
      var k := s.workers[w];
      WorkerKnown(p, s, w);
      SetWorkerKeeps(p, s, w, None);
      if move.ReadJobList? && k.Started? && JOB_LIST_KEY in s.db {
        SetWorkerKeeps(p, s, w, Some(HasJobList(k.snapshot, s.db[JOB_LIST_KEY])));
      } else if move.ReadResultList? && k.HasJobList? && RESULT_LIST_KEY in s.db {
        SetWorkerKeeps(p, s, w, Some(HasBothLists(k.snapshot, k.jobList, s.db[RESULT_LIST_KEY])));
      }
    }
  }

  lemma WorkerKnown(p: Params, s: State, w: nat)
    requires Inv(p, s) && w in s.workers
    ensures WorkerOk(p, s.chain.jobs, s.workers[w])
  {
  }

  lemma WorkerStepKeeps(p: Params, s: State, w: nat, move: WorkerMove)
    requires Inv(p, s)
    ensures Inv(p, WorkerStepped(s, w, move))
  {
    hide Inv, HandledJob, SwappedJobList, StoredPayload, LoadedResult, ReportedResult;
    match move
    case HandleJob(job, poolAccepts) =>
      if w in s.workers && s.workers[w].HasBothLists? && job in s.workers[w].snapshot.jobs
         && Stops(s.workers[w].snapshot.jobs[job].state) {
        HandleJobKeeps(p, s, w, job, poolAccepts);
      }
    case SwapJobList => if w in s.workers && s.workers[w].Listing? { SwapJobListKeeps(p, s, w); }
    case StorePayload => if w in s.workers && s.workers[w].Storing? { StorePayloadKeeps(p, s, w); }
    case LoadResult => if w in s.workers && s.workers[w].Collecting? { LoadResultKeeps(p, s, w); }
    case ReportResult(poolAccepts) =>
      if w in s.workers && s.workers[w].Reporting? { ReportResultKeeps(p, s, w, poolAccepts); }
    case _ => ReadListsKeeps(p, s, w, move);
  }

  // ---------- The monitor and its tasks ----------

  lemma SetMonitorKeeps(p: Params, s: State, m: Monitor)
    requires Inv(p, s) && MonitorOk(s.chain.jobs, m)
    ensures Inv(p, s.(monitor := m))
  {
    hide WS.ChainOk, StoreOk, WorkersOk, MonitorOk, TasksOk, ChannelOk, ListenerOk, CallsOk;
  }

  lemma SetTasksKeeps(p: Params, s: State, tasks: map<nat, Task>)
    requires Inv(p, s) && TasksOk(p, s.chain.jobs, tasks)
    ensures Inv(p, s.(tasks := tasks))
  {
    hide WS.ChainOk, StoreOk, WorkersOk, MonitorOk, TasksOk, ChannelOk, ListenerOk, CallsOk;
  }

  lemma MonitorReadKeeps(p: Params, s: State)
    requires Inv(p, s)
    ensures Inv(p, MonitorRead(s))
  {
    if JOB_LIST_KEY in s.db {
      assert EntryOk(p, s.chain.jobs, JOB_LIST_KEY, s.db[JOB_LIST_KEY]);
      hide Inv, ParseList, RecordOk;
      SetMonitorKeeps(p, s, Rereading(s.db[JOB_LIST_KEY], ParseList(s.db[JOB_LIST_KEY])));
    }
  }

  lemma MonitorClearKeeps(p: Params, s: State)
    requires Inv(p, s) && s.monitor.Clearing?
    ensures Inv(p, MonitorClear(s))
  {
    var m := s.monitor;
    InitOk(s.chain.jobs);
    assert EntryOk(p, s.chain.jobs, JOB_LIST_KEY, INIT);
    assert MonitorOk(s.chain.jobs, Dispatching(m.ids));
    hide Inv, EntryOk, MonitorOk;
    var s1 := s.(db := WriteBack(s.db, JOB_LIST_KEY, m.current, INIT));
    WriteKeeps(p, s, s1.db);
    var s2 := s1.(monitor := Dispatching(m.ids));
    SetMonitorKeeps(p, s1, Dispatching(m.ids));
    PastKeeps(p, s2, MonitorClear(s).past);
  }

  lemma MonitorDispatchKeeps(p: Params, s: State, t: nat)
    requires Inv(p, s) && s.monitor.Dispatching?
    ensures Inv(p, MonitorDispatch(s, t))
  {
    var todo := s.monitor.todo;
    assert MonitorOk(s.chain.jobs, s.monitor) && TasksOk(p, s.chain.jobs, s.tasks);
    hide Inv, RecordOk;
    if todo == [] {
      SetMonitorKeeps(p, s, Idle);
    } else if t !in s.tasks {
      SetMonitorKeeps(p, s, Dispatching(todo[1..]));
      var s1 := s.(monitor := Dispatching(todo[1..]));
      PastKeeps(p, s1, MonitorDispatch(s, t).past);
      if todo[0] in s.db {
        KnownEntry(p, s, todo[0]);
        SetTasksKeeps(p, s1.(past := MonitorDispatch(s, t).past), s.tasks[t := Running(todo[0], s.db[todo[0]])]);
      }
    }
  }

  lemma MonitorStepKeeps(p: Params, s: State, move: MonitorMove)
    requires Inv(p, s)
    ensures Inv(p, MonitorStepped(s, move))
  {
    assert MonitorOk(s.chain.jobs, s.monitor);
    hide Inv, MonitorRead, MonitorClear, MonitorDispatch;
    match move
    case Read => MonitorReadKeeps(p, s);
    case Reread =>
      if s.monitor.Rereading? {
        SetMonitorKeeps(p, s, Clearing(s.monitor.seen, s.monitor.ids, Get(s.db, JOB_LIST_KEY)));
      }
    case Clear => if s.monitor.Clearing? { MonitorClearKeeps(p, s); }
    case DispatchTo(t) => if s.monitor.Dispatching? { MonitorDispatchKeeps(p, s, t); }
  }

  /** A task only ever runs a job's own code and ABI. */
  lemma TaskRunsItsJob(p: Params, jobs: Jobs, key: Bytes, raw: Bytes)
    requires RecordOk(p, jobs, key, raw) && ParseRequest(raw).Parsed?
    ensures IdKnown(jobs, key) && ParseRequest(raw).value == JobRequest(key, jobs[key])
  {
    hide ParseRequest, EncodeRequest, EncodeResponse;
    if IsJobRequest(jobs, key, raw) {
      ReadBack(JobRequest(key, jobs[key]));
    } else {
      FinishedResponseIsNoRequest(ParseResponse(raw).value);
    }
  }

  lemma TaskStepKeeps(p: Params, s: State, t: nat, move: TaskMove)
    requires Inv(p, s)
    ensures Inv(p, TaskStepped(p, s, t, move))
  {
    hide WS.ChainOk, StoreOk, WorkersOk, MonitorOk, ListenerOk, CallsOk, ParseRequest, RecordOk;
    if t in s.tasks {
      assert TaskOk(p, s.chain.jobs, s.tasks[t]);
      match s.tasks[t]
      case Running(key, raw) =>
        if ParseRequest(raw).Parsed? {
          TaskRunsItsJob(p, s.chain.jobs, key, raw);
        }
      case Sending(r) =>
    }
  }

  // ---------- The listener ----------

  lemma SetListenerKeeps(p: Params, s: State, l: Listener)
    requires Inv(p, s) && ListenerOk(p, s.chain.jobs, l)
    ensures Inv(p, s.(listener := l))
  {
    hide WS.ChainOk, StoreOk, WorkersOk, MonitorOk, TasksOk, ChannelOk, ListenerOk, CallsOk;
  }

  lemma ResponseIsEntry(p: Params, jobs: Jobs, r: JobResult)
    requires ResultOk(p, jobs, r)
    ensures EntryOk(p, jobs, r.jobId, EncodeResponse(ResponseOf(p, r)))
  {
    hide ParseResponse, EncodeResponse;
    var response := ResponseOf(p, r);
    ResponseRoundTrip(response, []);
    assert EncodeResponse(response) + [] == EncodeResponse(response);
    assert IsJobResponse(p, jobs, r.jobId, EncodeResponse(response));
  }

  lemma ReceiveKeeps(p: Params, s: State)
    requires Inv(p, s) && s.channel != []
    ensures Inv(p, s.(channel := s.channel[1..], listener := Received(s.channel[0]),
                      past := s.past.(handled := s.past.handled + [s.channel[0].jobId])))
  {
    hide WS.ChainOk, StoreOk, WorkersOk, MonitorOk, TasksOk, CallsOk, ResultOk;
  }

  lemma ReplaceKeeps(p: Params, s: State)
    requires Inv(p, s) && s.listener.Replacing?
    ensures Inv(p, ListenerStepped(p, s))
  {
    var r := s.listener.r;
    assert ResultOk(p, s.chain.jobs, r) && ListenerOk(p, s.chain.jobs, Stored(r));
    ResponseIsEntry(p, s.chain.jobs, r);
    hide Inv, ListenerOk, EntryOk, EncodeResponse;
    var s1 := s.(db := WriteBack(s.db, r.jobId, s.listener.current, EncodeResponse(ResponseOf(p, r))));
    WriteKeeps(p, s, s1.db);
    SetListenerKeeps(p, s1, Stored(r));
  }

  lemma ReadResultListKeeps(p: Params, s: State)
    requires Inv(p, s) && s.listener.Stored?
    ensures Inv(p, ListenerStepped(p, s))
  {
    var jobs := s.chain.jobs;
    var r := s.listener.r;
    assert ResultOk(p, jobs, r) && IdKnown(jobs, r.jobId);
    if RESULT_LIST_KEY in s.db {
      assert EntryOk(p, jobs, RESULT_LIST_KEY, s.db[RESULT_LIST_KEY]);
      hide Inv, ListOk, OutputOf;
      AppendOk(jobs, s.db[RESULT_LIST_KEY], r.jobId);
      SetListenerKeeps(p, s, Extending(r, s.db[RESULT_LIST_KEY] + r.jobId));
    } else {
      SetListenerKeeps(p, s, Waiting);
    }
  }

  lemma AppendResultKeeps(p: Params, s: State)
    requires Inv(p, s) && s.listener.Appending?
    ensures Inv(p, ListenerStepped(p, s))
  {
    var l := s.listener;
    assert ListenerOk(p, s.chain.jobs, l) && EntryOk(p, s.chain.jobs, RESULT_LIST_KEY, l.newList);
    hide Inv, EntryOk, ListOk, OutputOf;
    var s1 := s.(db := WriteBack(s.db, RESULT_LIST_KEY, l.current, l.newList));
    WriteKeeps(p, s, s1.db);
    SetListenerKeeps(p, s1, Waiting);
  }

  lemma ListenerStepKeeps(p: Params, s: State)
    requires Inv(p, s)
    ensures Inv(p, ListenerStepped(p, s))
  {
    assert ListenerOk(p, s.chain.jobs, s.listener);
    hide Inv, OutputOf, ListOk;
    if s.boot == Up {
      match s.listener
      case Waiting => if s.channel != [] { ReceiveKeeps(p, s); }
      case Received(r) => SetListenerKeeps(p, s, Replacing(r, Get(s.db, r.jobId)));
      case Replacing(_, _) => ReplaceKeeps(p, s);
      case Stored(_) => ReadResultListKeeps(p, s);
      case Extending(r, newList) => SetListenerKeeps(p, s, Appending(r, newList, Get(s.db, RESULT_LIST_KEY)));
      case Appending(_, _, _) => AppendResultKeeps(p, s);
    }
  }

  // ---------- Every schedule ----------

  lemma StepKeeps(p: Params, s: State, a: Action)
    requires Inv(p, s)
    ensures Inv(p, Step(p, s, a))
  {
    match a
    case ChainStep(e) => ChainStepKeeps(p, s, e);
    case Restart =>
      hide WS.ChainOk, StoreOk, CallsOk;
    case BootStep => BootKeeps(p, s);
    case WorkerStep(w, move) => WorkerStepKeeps(p, s, w, move);
    case MonitorStep(move) => MonitorStepKeeps(p, s, move);
    case TaskStep(t, move) => TaskStepKeeps(p, s, t, move);
    case ListenerStep => ListenerStepKeeps(p, s);
  }

  lemma InitialOk(p: Params)
    ensures Inv(p, INITIAL)
  {
    WS.GenesisOk(p.pallet);
  }

  lemma {:induction false} ExecKeeps(p: Params, s: State, schedule: seq<Action>)
    requires Inv(p, s)
    ensures Inv(p, Exec(p, s, schedule))
    decreases |schedule|
  {
    hide Inv, Step;
    if schedule == [] {
    } else {
      StepKeeps(p, s, schedule[0]);
      ExecKeeps(p, Step(p, s, schedule[0]), schedule[1..]);
    }
  }

  /**
   In every reachable state both lists are "init" and whole ids of known jobs,
   a 32-byte key holds a record of the job with that id, and neither reader of
   a list has ever found it too short.
   */
  lemma StoreNeverMisparses(p: Params, schedule: seq<Action>)
    ensures var s := Exec(p, INITIAL, schedule);
            && StoreOk(p, s.chain.jobs, s.db)
            && ListsPresent(s)
            && !s.monitor.Crashed?
  {
    InitialOk(p);
    ExecKeeps(p, INITIAL, schedule);
  }

  /**
   Every result a worker has submitted, for the job with id `key`, is an output
   of running the code and ABI that the chain holds for that job, under this
   node's key, provided the job's ABI length is not ambiguous.
   */
  lemma SubmittedResultsAreOutputs(p: Params, schedule: seq<Action>, k: nat)
    requires k < |Exec(p, INITIAL, schedule).past.submitted|
    requires Exec(p, INITIAL, schedule).past.submitted[k].SubmitResult?
    ensures var s := Exec(p, INITIAL, schedule);
            var call := s.past.submitted[k];
            && IdKnown(s.chain.jobs, call.key)
            && var job := s.chain.jobs[call.key];
               && (!Ambiguous(job.abi) ==>
                     |call.value| < 0x1_0000_0000 && p.runs(job.code, job.abi, call.value)
                     && call.processor == p.Processor())
               && (Ambiguous(job.abi) ==>
                     call.value == job.code
                     || (|call.value| < 0x1_0000_0000 && p.runs(job.code, job.abi, call.value)))
  {
    InitialOk(p);
    ExecKeeps(p, INITIAL, schedule);
    assert CallOk(p, Exec(p, INITIAL, schedule).chain.jobs, Exec(p, INITIAL, schedule).past.submitted[k]);
  }
}
