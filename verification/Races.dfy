/**
 Schedules that show what the pipeline does not promise: a job's code can be
 submitted as its result when the ABI length is ambiguous, and a job id can be
 lost between the monitor's two reads of the list, at a restart while it is
 listed or in the monitor's hands, or because the monitor looks for its record
 before the worker has stored it. A stored result can be lost as well.
 */
module Races {
  import opened Bytes
  import opened Unicode
  import opened Payloads
  import opened KeyLists
  import opened Pipeline
  import Provenance
  import WS = WasmStore

  /** Appends one action to a schedule that leads from `s` to `cur`. */
  lemma Then(p: Params, s: State, schedule: seq<Action>, a: Action)
    returns (longer: seq<Action>, next: State)
    ensures longer == schedule + [a]
    ensures next == Step(p, Exec(p, s, schedule), a) == Exec(p, s, longer)
  {
    hide Step;
    longer := schedule + [a];
    next := Step(p, Exec(p, s, schedule), a);
    ExecConcat(p, s, schedule, [a]);
    assert [a][1..] == [];
    assert Exec(p, Exec(p, s, schedule), [a]) == Exec(p, next, []);
  }

  // ---------- A worker posts a job ----------

  /** The state is up, with both lists in place and the job pending. */
  ghost predicate Ready(s: State, job: Bytes32) {
    && s.boot == Up
    && JOB_LIST_KEY in s.db && RESULT_LIST_KEY in s.db && |s.db[RESULT_LIST_KEY]| >= 4
    && job in s.chain.jobs && s.chain.jobs[job].state == Pending
  }

  function Posted(s: State, w: nat, job: Bytes32): State
    requires JOB_LIST_KEY in s.db && RESULT_LIST_KEY in s.db && job in s.chain.jobs
  {
    SetWorker(
      s.(db := s.db[JOB_LIST_KEY := s.db[JOB_LIST_KEY] + job][job := EncodeRequest(JobRequest(job, s.chain.jobs[job]))],
         past := s.past.(submitted := s.past.submitted + [WS.ChangeJobState(s.chain.block, job)],
                         appended := s.past.appended + [job])),
      w, AfterJob(s.chain.block, s.db[RESULT_LIST_KEY]))
  }

  lemma WorkerReads(p: Params, s: State, w: nat) returns (schedule: seq<Action>)
    requires JOB_LIST_KEY in s.db && RESULT_LIST_KEY in s.db && w !in s.workers
    ensures Exec(p, s, schedule)
            == s.(workers := s.workers[w := HasBothLists(s.chain, s.db[JOB_LIST_KEY], s.db[RESULT_LIST_KEY])])
  {
    hide Exec, HandledJob, SwappedJobList, StoredPayload, LoadedResult, ReportedResult;
    var cur;
    StartHere(p, s);
    schedule, cur := Then(p, s, [], WorkerStep(w, Start));
    assert cur == s.(workers := s.workers[w := Started(s.chain)]);
    schedule, cur := Then(p, s, schedule, WorkerStep(w, ReadJobList));
    assert cur.workers == s.workers[w := HasJobList(s.chain, s.db[JOB_LIST_KEY])];
    schedule, cur := Then(p, s, schedule, WorkerStep(w, ReadResultList));
    assert cur.workers == s.workers[w := HasBothLists(s.chain, s.db[JOB_LIST_KEY], s.db[RESULT_LIST_KEY])];
  }

  lemma StartHere(p: Params, s: State)
    ensures Exec(p, s, []) == s
  {
  }

  lemma WorkerWrites(p: Params, s: State, w: nat, k: Worker, job: Bytes32, poolAccepts: bool)
    requires w in s.workers && s.workers[w] == k && k.HasBothLists? && job in k.snapshot.jobs
    requires k.snapshot.jobs[job].state == Pending
    requires JOB_LIST_KEY in s.db && s.db[JOB_LIST_KEY] == k.jobList
    ensures var s1 := Step(p, s, WorkerStep(w, HandleJob(job, poolAccepts)));
            var s2 := Step(p, s1, WorkerStep(w, SwapJobList));
            var payload := if poolAccepts then JobRequest(job, k.snapshot.jobs[job]) else DEFAULT_REQUEST;
            var past := s.past.(appended := s.past.appended + [job]);
            s2 == s.(db := s.db[JOB_LIST_KEY := k.jobList + job],
                     workers := s.workers[w := Storing(k.snapshot.block, payload, k.resultList)],
                     past := if poolAccepts then
                         past.(submitted := past.submitted + [WS.ChangeJobState(k.snapshot.block, job)])
                       else past)
  {
    var s1 := Step(p, s, WorkerStep(w, HandleJob(job, poolAccepts)));
    var payload := if poolAccepts then JobRequest(job, k.snapshot.jobs[job]) else DEFAULT_REQUEST;
    assert s1.workers == s.workers[w := Listing(k.snapshot.block, k.jobList, job, payload, k.resultList)];
    var s2 := Step(p, s1, WorkerStep(w, SwapJobList));
    assert s2.workers == s.workers[w := Storing(k.snapshot.block, payload, k.resultList)];
  }

  /** A worker's run up to and with the append to the list. */
  lemma WorkerLists(p: Params, s: State, w: nat, job: Bytes32) returns (schedule: seq<Action>)
    requires Ready(s, job) && w !in s.workers
    ensures Exec(p, s, schedule)
            == s.(db := s.db[JOB_LIST_KEY := s.db[JOB_LIST_KEY] + job],
                  workers := s.workers[w := Storing(s.chain.block, JobRequest(job, s.chain.jobs[job]),
                                                    s.db[RESULT_LIST_KEY])],
                  past := s.past.(submitted := s.past.submitted + [WS.ChangeJobState(s.chain.block, job)],
                                  appended := s.past.appended + [job]))
  {
    hide Exec, Step;
    var cur;
    schedule := WorkerReads(p, s, w);
    var read := Exec(p, s, schedule);
    WorkerWrites(p, read, w, read.workers[w], job, true);
    schedule, cur := Then(p, s, schedule, WorkerStep(w, HandleJob(job, true)));
    schedule, cur := Then(p, s, schedule, WorkerStep(w, SwapJobList));
  }

  lemma WorkerPosts(p: Params, s: State, w: nat, job: Bytes32) returns (schedule: seq<Action>)
    requires Ready(s, job) && w !in s.workers
    ensures Exec(p, s, schedule) == Posted(s, w, job)
  {
    hide Exec, EncodeRequest, AfterJob, Step;
    var cur;
    schedule := WorkerLists(p, s, w, job);
    var swapped := Exec(p, s, schedule);
    WorkerStores(p, swapped, w);
    schedule, cur := Then(p, s, schedule, WorkerStep(w, StorePayload));
    assert cur.workers == Posted(s, w, job).workers;
  }

  lemma WorkerStores(p: Params, s: State, w: nat)
    requires w in s.workers && s.workers[w].Storing?
    ensures Step(p, s, WorkerStep(w, StorePayload)) == StoredPayload(s, w, s.workers[w])
  {
  }

  /**
   When the pool refuses the state change, the job's id is listed all the same,
   but nothing is stored under it: the default request goes under the empty key.
   */
  lemma RefusedCallListsBareId(p: Params, s: State, w: nat, job: Bytes32) returns (schedule: seq<Action>)
    requires Ready(s, job) && w !in s.workers
    ensures Exec(p, s, schedule).db == s.db[JOB_LIST_KEY := s.db[JOB_LIST_KEY] + job][[] := [0, 0, 0, 0]]
  {
    hide Exec, AfterJob, Step;
    var cur;
    schedule := WorkerReads(p, s, w);
    var read := Exec(p, s, schedule);
    WorkerWrites(p, read, w, read.workers[w], job, false);
    schedule, cur := Then(p, s, schedule, WorkerStep(w, HandleJob(job, false)));
    schedule, cur := Then(p, s, schedule, WorkerStep(w, SwapJobList));
    WorkerStores(p, cur, w);
    schedule, cur := Then(p, s, schedule, WorkerStep(w, StorePayload));
    assert EncodeRequest(DEFAULT_REQUEST) == [0, 0, 0, 0];
  }

  // ---------- The node runs a job and stores its result ----------

  /** One job is listed and stored, and the node's actors are at rest. */
  ghost predicate OneWaits(s: State, job: Bytes32, request: Request) {
    && s.boot == Up && s.monitor == Idle && s.listener == Waiting && s.channel == [] && s.tasks == map[]
    && JOB_LIST_KEY in s.db && s.db[JOB_LIST_KEY] == ListOf([job])
    && job in s.db && s.db[job] == EncodeRequest(request) && request.jobId == job
    && RESULT_LIST_KEY in s.db
  }

  /** One round on a list that holds one id. */
  lemma MonitorClears(p: Params, s: State, job: Bytes32) returns (schedule: seq<Action>)
    requires s.boot == Up && s.monitor == Idle && JOB_LIST_KEY in s.db && s.db[JOB_LIST_KEY] == ListOf([job])
    ensures Exec(p, s, schedule)
            == s.(db := s.db[JOB_LIST_KEY := INIT], monitor := Dispatching([job]),
                  past := s.past.(cleared := |s.past.appended|, drained := s.past.drained + [job]))
  {
    assert AllIds([job]);
    ParseListOf([job]);
    hide Exec, ListOf, ParseList;
    var cur;
    StartHere(p, s);
    schedule, cur := Then(p, s, [], MonitorStep(Read));
    schedule, cur := Then(p, s, schedule, MonitorStep(Reread));
    schedule, cur := Then(p, s, schedule, MonitorStep(Clear));
    assert cur.db == s.db[JOB_LIST_KEY := INIT];
  }

  /** The monitor reads the list, clears it and starts a task for its one id. */
  lemma MonitorTakes(p: Params, s: State, job: Bytes32, request: Request) returns (schedule: seq<Action>)
    requires OneWaits(s, job, request)
    ensures var s' := Exec(p, s, schedule);
            && s'.db == s.db[JOB_LIST_KEY := INIT]
            && s'.tasks == map[0 := Running(job, EncodeRequest(request))]
            && s'.past.submitted == s.past.submitted && s'.past.appended == s.past.appended
            && s'.past.handled == s.past.handled
            && s' == s.(db := s'.db, tasks := s'.tasks, past := s'.past)
  {
    hide Exec, ListOf, EncodeRequest;
    var cur;
    schedule := MonitorClears(p, s, job);
    assert |job| != |JOB_LIST_KEY|;
    schedule, cur := Then(p, s, schedule, MonitorStep(DispatchTo(0)));
    assert cur.monitor == Dispatching([]);
    schedule, cur := Then(p, s, schedule, MonitorStep(DispatchTo(0)));
  }

  /** An executor task runs the job and hands its output to the channel. */
  lemma TaskRuns(p: Params, s: State, job: Bytes32, request: Request, out: Blob, time: U32)
    returns (schedule: seq<Action>)
    requires s.tasks == map[0 := Running(job, EncodeRequest(request))] && s.channel == []
    requires p.runs(request.content, request.abi, out) && request.jobId == job
    ensures Exec(p, s, schedule) == s.(tasks := map[], channel := [JobResult(job, out, time)])
  {
    hide Exec, EncodeRequest, TaskStepped;
    var cur;
    StartHere(p, s);
    TaskRunStep(p, s, job, request, out, time);
    schedule, cur := Then(p, s, [], TaskStep(0, Run(Some(out), time)));
    var ran := s.(tasks := map[0 := Sending(JobResult(job, out, time))]);
    assert cur == ran;
    assert TaskStepped(p, ran, 0, Send) == s.(tasks := map[], channel := [JobResult(job, out, time)]) by {
      TaskSendStep(p, ran);
    }
    schedule, cur := Then(p, s, schedule, TaskStep(0, Send));
  }

  lemma TaskRunStep(p: Params, s: State, job: Bytes32, request: Request, out: Blob, time: U32)
    requires s.tasks == map[0 := Running(job, EncodeRequest(request))]
    requires p.runs(request.content, request.abi, out) && request.jobId == job
    ensures TaskStepped(p, s, 0, Run(Some(out), time)) == s.(tasks := map[0 := Sending(JobResult(job, out, time))])
  {
    ReadBack(request);
    hide EncodeRequest, ParseRequest;
    assert s.tasks[0 := Sending(JobResult(job, out, time))] == map[0 := Sending(JobResult(job, out, time))];
  }

  lemma TaskSendStep(p: Params, s: State)
    requires 0 in s.tasks && s.tasks == map[0 := s.tasks[0]] && s.tasks[0].Sending? && s.channel == []
    ensures TaskStepped(p, s, 0, Send) == s.(tasks := map[], channel := [s.tasks[0].result])
  {
    assert s.tasks - {0} == map[];
  }

  function StoredResult(p: Params, db: Db, r: JobResult): Db
    requires RESULT_LIST_KEY in db
  {
    db[r.jobId := EncodeResponse(ResponseOf(p, r))][RESULT_LIST_KEY := db[RESULT_LIST_KEY] + r.jobId]
  }

  /** The listener stores the result and lists its id. */
  lemma ListenerStores(p: Params, s: State, r: JobResult) returns (schedule: seq<Action>)
    requires s.boot == Up && s.listener == Waiting && s.channel == [r] && |r.jobId| == 32
    requires RESULT_LIST_KEY in s.db && r.jobId in s.db
    ensures Exec(p, s, schedule) == s.(
              db := StoredResult(p, s.db, r), channel := [],
              past := s.past.(handled := s.past.handled + [r.jobId]))
  {
    hide Exec;
    var a := ListenerWrites(p, s, r);
    var stored := Exec(p, s, a);
    assert |r.jobId| != |RESULT_LIST_KEY|;
    var b := ListenerLists(p, stored, r);
    ExecConcat(p, s, a, b);
    schedule := a + b;
  }

  lemma ListenerWrites(p: Params, s: State, r: JobResult) returns (schedule: seq<Action>)
    requires s.boot == Up && s.listener == Waiting && s.channel == [r] && r.jobId in s.db
    ensures Exec(p, s, schedule) == s.(
              db := s.db[r.jobId := EncodeResponse(ResponseOf(p, r))], channel := [], listener := Stored(r),
              past := s.past.(handled := s.past.handled + [r.jobId]))
  {
    hide Exec, EncodeResponse;
    var cur;
    StartHere(p, s);
    schedule, cur := Then(p, s, [], ListenerStep);
    schedule, cur := Then(p, s, schedule, ListenerStep);
    schedule, cur := Then(p, s, schedule, ListenerStep);
  }

  lemma ListenerLists(p: Params, s: State, r: JobResult) returns (schedule: seq<Action>)
    requires s.boot == Up && s.listener == Stored(r) && RESULT_LIST_KEY in s.db
    ensures Exec(p, s, schedule) == s.(
              db := s.db[RESULT_LIST_KEY := s.db[RESULT_LIST_KEY] + r.jobId], listener := Waiting)
  {
    hide Exec, EncodeResponse;
    var cur;
    StartHere(p, s);
    schedule, cur := Then(p, s, [], ListenerStep);
    schedule, cur := Then(p, s, schedule, ListenerStep);
    schedule, cur := Then(p, s, schedule, ListenerStep);
  }

  /** Monitor, task and listener together. */
  lemma NodeRuns(p: Params, s: State, job: Bytes32, request: Request, out: Blob, time: U32)
    returns (schedule: seq<Action>)
    requires OneWaits(s, job, request) && p.runs(request.content, request.abi, out)
    ensures var s' := Exec(p, s, schedule);
            && s'.db == StoredResult(p, s.db[JOB_LIST_KEY := INIT], JobResult(job, out, time))
            && s'.past.submitted == s.past.submitted && s'.past.appended == s.past.appended
            && s'.past.handled == s.past.handled + [job]
            && s' == s.(db := s'.db, past := s'.past)
  {
    var a := MonitorTakes(p, s, job, request);
    var s1 := Exec(p, s, a);
    var b := TaskRuns(p, s1, job, request, out, time);
    var s2 := Exec(p, s1, b);
    var c := ListenerStores(p, s2, JobResult(job, out, time));
    ExecConcat(p, s, a, b);
    ExecConcat(p, s, a + b, c);
    schedule := a + b + c;
    hide Exec, EncodeRequest, StoredResult;
    assert Exec(p, s, schedule) == Exec(p, s2, c);
  }

  // ---------- A worker reports what it finds ----------

  lemma WorkerReports(p: Params, s: State, w: nat, block: nat, job: Bytes32) returns (schedule: seq<Action>)
    requires w in s.workers && s.workers[w] == Collecting(block, [job])
    requires job in s.db && ParseResponse(s.db[job]).Parsed?
    ensures var r := ParseResponse(s.db[job]).value;
            Exec(p, s, schedule).past.submitted
            == s.past.submitted + [WS.SubmitResult(block, r.jobId, r.result, r.address, r.exeTime)]
    ensures Exec(p, s, schedule).chain == s.chain
  {
    hide Exec, ParseResponse, HandledJob, SwappedJobList, StoredPayload;
    var cur;
    StartHere(p, s);
    schedule, cur := Then(p, s, [], WorkerStep(w, LoadResult));
    schedule, cur := Then(p, s, schedule, WorkerStep(w, ReportResult(true)));
  }

  // ---------- From genesis ----------

  datatype Upload = Upload(who: Bytes32, name: Text, typ: WS.ScriptType, code: Blob, abi: Blob)

  /** The upload and the request for it are both accepted from genesis. */
  ghost predicate Accepted(p: Params, u: Upload) {
    && WS.Upload(p.pallet, WS.GENESIS, WS.Signed(u.who), u.name, u.typ, u.code, u.abi).1.Done?
    && |EncodeUtf8(WS.PrefixedName(u.typ, u.name))| < 0x1_0000_0000
  }

  function JobOf(u: Upload): WS.Job
    requires |EncodeUtf8(WS.PrefixedName(u.typ, u.name))| < 0x1_0000_0000
  {
    WS.Job(u.who, EncodeUtf8(WS.PrefixedName(u.typ, u.name)), u.code, u.abi, Pending)
  }

  lemma ChainHasJob(p: Params, u: Upload)
    requires Accepted(p, u)
    ensures var uploaded := WS.Upload(p.pallet, WS.GENESIS, WS.Signed(u.who), u.name, u.typ, u.code, u.abi).0;
            var requested := WS.RequestJob(p.pallet, uploaded, WS.Signed(u.who), WS.PrefixedName(u.typ, u.name)).0;
            requested.jobs == map[WS.JobKey(p.pallet, JobOf(u)) := JobOf(u)]
  {
    hide EncodeUtf8, WS.JobKey;
  }

  /** The node boots with one pending job on the chain. */
  lemma BootsWithJob(p: Params, u: Upload) returns (schedule: seq<Action>)
    requires Accepted(p, u)
    ensures var s := Exec(p, INITIAL, schedule);
            var job := WS.JobKey(p.pallet, JobOf(u));
            && Ready(s, job) && s.chain.jobs == map[job := JobOf(u)]
            && s.db[JOB_LIST_KEY] == INIT && s.db[RESULT_LIST_KEY] == INIT
            && job !in s.db
            && s == INITIAL.(chain := s.chain, db := s.db, boot := Up)
  {
    ChainHasJob(p, u);
    hide Exec, WS.Upload, WS.RequestJob, WS.JobKey;
    var cur;
    StartHere(p, INITIAL);
    var signed := WS.Signed(u.who);
    schedule, cur := Then(p, INITIAL, [], ChainStep(WS.Include(signed, WS.UploadWasm(u.name, u.typ, u.code, u.abi))));
    schedule, cur := Then(p, INITIAL, schedule,
                          ChainStep(WS.Include(signed, WS.RequestExecution(WS.PrefixedName(u.typ, u.name)))));
    var chain := cur.chain;
    assert cur == INITIAL.(chain := chain);
    schedule, cur := Then(p, INITIAL, schedule, BootStep);
    schedule, cur := Then(p, INITIAL, schedule, BootStep);
    assert cur.db == map[JOB_LIST_KEY := INIT, RESULT_LIST_KEY := INIT];
    schedule, cur := Then(p, INITIAL, schedule, BootStep);
  }

  /**
   A job whose ABI length is ambiguous: after its result has been stored and
   listed, a second worker that still sees it pending stores the request over
   it, reads that back as a response and submits the job's code as its result.
   */
  lemma AmbiguousAbiSubmitsCode(p: Params, u: Upload, out: Blob) returns (schedule: seq<Action>)
    requires Accepted(p, u) && Ambiguous(u.abi) && p.runs(u.code, u.abi, out)
    ensures var s := Exec(p, INITIAL, schedule);
            var job := WS.JobKey(p.pallet, JobOf(u));
            && job in s.chain.jobs && s.chain.jobs[job] == JobOf(u)
            && exists k, block, address, time ::
                 0 <= k < |s.past.submitted|
                 && s.past.submitted[k] == WS.SubmitResult(block, job, u.code, address, time)
  {
    hide Exec, WS.JobKey, EncodeRequest, ParseResponse, StoredResult, ListOf, ParseList, JobOf, WS.PrefixedName;
    var job := WS.JobKey(p.pallet, JobOf(u));
    assert JobOf(u).code == u.code && JobOf(u).abi == u.abi && JobOf(u).state == Pending by { JobOfFields(u); }
    var request := JobRequest(job, JobOf(u));
    var a := BootsWithJob(p, u);
    var s0 := Exec(p, INITIAL, a);
    var b := WorkerPosts(p, s0, 0, job);
    var s1 := Exec(p, s0, b);
    FirstPost(s0, job, request);
    var c := NodeRuns(p, s1, job, request, out, 0);
    var s2 := Exec(p, s1, c);
    SecondReady(p, s1, s2, job, out, 0);
    var d := WorkerPosts(p, s2, 1, job);
    var s3 := Exec(p, s2, d);
    SecondPost(s2, job, request);
    RequestReadAsResponse(request);
    var e := WorkerReports(p, s3, 1, s2.chain.block, job);
    Joined(p, INITIAL, a, b, c, d, e);
    schedule := a + b + c + d + e;
    var s4 := Exec(p, s3, e);
    var r := ParseResponse(EncodeRequest(request)).value;
    assert s4.past.submitted[|s3.past.submitted|]
        == WS.SubmitResult(s2.chain.block, job, u.code, r.address, r.exeTime);
  }

  lemma JobOfFields(u: Upload)
    requires |EncodeUtf8(WS.PrefixedName(u.typ, u.name))| < 0x1_0000_0000
    ensures JobOf(u).code == u.code && JobOf(u).abi == u.abi && JobOf(u).state == Pending
  {
  }

  lemma Joined(
    p: Params, s: State, a: seq<Action>, b: seq<Action>, c: seq<Action>, d: seq<Action>, e: seq<Action>)
    ensures Exec(p, s, a + b + c + d + e) == Exec(p, Exec(p, Exec(p, Exec(p, Exec(p, s, a), b), c), d), e)
  {
    hide Exec;
    ExecConcat(p, s, a, b);
    ExecConcat(p, s, a + b, c);
    ExecConcat(p, s, a + b + c, d);
    ExecConcat(p, s, a + b + c + d, e);
  }

  /** After the first post the list is "init" and the job, and the worker has ended. */
  lemma FirstPost(s: State, job: Bytes32, request: Request)
    requires Ready(s, job) && s.workers == map[] && s.monitor == Idle && s.listener == Waiting
    requires s.channel == [] && s.tasks == map[]
    requires s.db[JOB_LIST_KEY] == INIT && s.db[RESULT_LIST_KEY] == INIT
    requires request == JobRequest(job, s.chain.jobs[job])
    ensures OneWaits(Posted(s, 0, job), job, request)
    ensures Posted(s, 0, job).workers == map[] && Posted(s, 0, job).db[RESULT_LIST_KEY] == INIT
  {
    ListOfAppend([], job);
    assert [] + [job] == [job] && ListOf([]) == INIT;
    assert |job| != |JOB_LIST_KEY| && |job| != |RESULT_LIST_KEY| && |JOB_LIST_KEY| != |RESULT_LIST_KEY|;
    hide ListOf, EncodeRequest;
  }

  /** The chain has not moved, so the job is still pending for the next worker. */
  lemma SecondReady(p: Params, s1: State, s2: State, job: Bytes32, out: Blob, time: U32)
    requires s1.boot == Up && job in s1.chain.jobs && s1.chain.jobs[job].state == Pending
    requires RESULT_LIST_KEY in s1.db && s1.db[RESULT_LIST_KEY] == INIT && s1.workers == map[]
    requires s2.db == StoredResult(p, s1.db[JOB_LIST_KEY := INIT], JobResult(job, out, time))
    requires s2 == s1.(db := s2.db, past := s2.past)
    ensures Ready(s2, job) && s2.db[RESULT_LIST_KEY] == ListOf([job]) && s2.workers == map[]
  {
    ListOfAppend([], job);
    assert [] + [job] == [job] && ListOf([]) == INIT;
    assert |job| != |JOB_LIST_KEY| && |job| != |RESULT_LIST_KEY| && |JOB_LIST_KEY| != |RESULT_LIST_KEY|;
    hide ListOf, EncodeResponse;
  }

  lemma SecondPost(s: State, job: Bytes32, request: Request)
    requires Ready(s, job) && s.db[RESULT_LIST_KEY] == ListOf([job])
    requires request == JobRequest(job, s.chain.jobs[job])
    ensures var s' := Posted(s, 1, job);
            && 1 in s'.workers && s'.workers[1] == Collecting(s.chain.block, [job])
            && job in s'.db && s'.db[job] == EncodeRequest(request)
  {
    assert AllIds([job]);
    ParseListOf([job]);
    assert |ListOf([job])| == |ListOf([])| + 32 by { ListOfAppend([], job); assert [] + [job] == [job]; }
    assert ListOf([]) == INIT;
    assert |job| != |JOB_LIST_KEY|;
    hide ListOf, ParseList, EncodeRequest;
  }

  /** In every schedule, whatever workers submit for the uploaded script's job is an output of running it. */
  ghost predicate SubmitsOnlyOutputs(p: Params, u: Upload)
    requires |EncodeUtf8(WS.PrefixedName(u.typ, u.name))| < 0x1_0000_0000
  {
    forall schedule, k :: 0 <= k < |SubmittedIn(p, schedule)| ==>
      CallIsOutput(p, Exec(p, INITIAL, schedule).chain, u, SubmittedIn(p, schedule)[k])
  }

  function SubmittedIn(p: Params, schedule: seq<Action>): seq<WS.Call> {
    Exec(p, INITIAL, schedule).past.submitted
  }

  ghost predicate CallIsOutput(p: Params, chain: WS.Chain, u: Upload, call: WS.Call)
    requires |EncodeUtf8(WS.PrefixedName(u.typ, u.name))| < 0x1_0000_0000
  {
    var job := WS.JobKey(p.pallet, JobOf(u));
    call.SubmitResult? && call.key == job
    && job in chain.jobs && chain.jobs[job].code == u.code && chain.jobs[job].abi == u.abi
    ==> |call.value| < 0x1_0000_0000 && p.runs(u.code, u.abi, call.value)
  }

  /**
   For a script that has some output but never outputs its own code, workers
   submit only outputs in every schedule exactly when its ABI length is not ambiguous.
   */
  lemma OnlyOutputsIffUnambiguous(p: Params, u: Upload, out: Blob)
    requires Accepted(p, u) && p.runs(u.code, u.abi, out) && !p.runs(u.code, u.abi, u.code)
    ensures SubmitsOnlyOutputs(p, u) <==> !Ambiguous(u.abi)
  {
    if Ambiguous(u.abi) {
      var schedule := AmbiguousAbiSubmitsCode(p, u, out);
      var s := Exec(p, INITIAL, schedule);
      var job := WS.JobKey(p.pallet, JobOf(u));
      var k, block, address, time :| 0 <= k < |s.past.submitted|
        && s.past.submitted[k] == WS.SubmitResult(block, job, u.code, address, time);
      assert !CallIsOutput(p, s.chain, u, SubmittedIn(p, schedule)[k]);
    } else {
      forall schedule, k | 0 <= k < |SubmittedIn(p, schedule)|
        ensures CallIsOutput(p, Exec(p, INITIAL, schedule).chain, u, SubmittedIn(p, schedule)[k])
      {
        if SubmittedIn(p, schedule)[k].SubmitResult? {
          Provenance.SubmittedResultsAreOutputs(p, schedule, k);
        }
      }
    }
  }

  /**
   A job listed between the monitor's two reads is cleared away unread: it was
   appended, and it is neither drained nor in the list.
   */
  lemma JobLostBetweenReads(p: Params, u: Upload) returns (schedule: seq<Action>)
    requires Accepted(p, u)
    ensures var s := Exec(p, INITIAL, schedule);
            && s.past.appended == [WS.JobKey(p.pallet, JobOf(u))] && s.past.drained == []
            && JOB_LIST_KEY in s.db && s.db[JOB_LIST_KEY] == INIT && s.monitor == Idle
  {
    hide Exec, WS.JobKey, EncodeRequest, JobOf, WS.PrefixedName, AfterJob, Step;
    var job := WS.JobKey(p.pallet, JobOf(u));
    var a := BootsWithJob(p, u);
    var s0 := Exec(p, INITIAL, a);
    StartHere(p, s0);
    ReadsNothing(p, s0);
    var b, s1 := Then(p, s0, [], MonitorStep(Read));
    var c := WorkerPosts(p, s1, 0, job);
    var s2 := Exec(p, s1, c);
    var d := ClearsUnread(p, s2);
    StartHere(p, Exec(p, s2, d));
    Joined(p, INITIAL, a, b, c, d, []);
    schedule := a + b + c + d + [];
  }

  lemma ReadsNothing(p: Params, s: State)
    requires s.boot == Up && s.monitor == Idle && JOB_LIST_KEY in s.db && s.db[JOB_LIST_KEY] == INIT
    ensures Step(p, s, MonitorStep(Read)) == s.(monitor := Rereading(INIT, []))
  {
    ParseListOf([]);
    assert ListOf([]) == INIT;
    assert s.past.drained + [] == s.past.drained;
  }

  lemma ClearsUnread(p: Params, s: State) returns (schedule: seq<Action>)
    requires s.boot == Up && s.monitor == Rereading(INIT, []) && JOB_LIST_KEY in s.db
    ensures var s' := Exec(p, s, schedule);
            && s'.monitor == Idle && s'.db == s.db[JOB_LIST_KEY := INIT]
            && s'.past.appended == s.past.appended && s'.past.drained == s.past.drained
  {
    hide Exec;
    var cur;
    StartHere(p, s);
    schedule, cur := Then(p, s, [], MonitorStep(Reread));
    schedule, cur := Then(p, s, schedule, MonitorStep(Clear));
    assert cur.monitor == Dispatching([]) && cur.db == s.db[JOB_LIST_KEY := INIT];
    schedule, cur := Then(p, s, schedule, MonitorStep(DispatchTo(0)));
  }

  /** A job listed but not yet drained when the node restarts is wiped by the boot, though no round was inexact. */
  lemma JobLostAtRestart(p: Params, u: Upload) returns (schedule: seq<Action>)
    requires Accepted(p, u)
    ensures var s := Exec(p, INITIAL, schedule);
            && s.past.appended == [WS.JobKey(p.pallet, JobOf(u))] && s.past.drained == []
            && JOB_LIST_KEY in s.db && s.db[JOB_LIST_KEY] == INIT && s.boot == Up && s.monitor == Idle
            && s.past.roundsExact && s.past.dropped == [] && !s.past.bootsExact
  {
    hide Exec, WS.JobKey, EncodeRequest, JobOf, WS.PrefixedName, AfterJob, Step;
    var job := WS.JobKey(p.pallet, JobOf(u));
    var a := BootsWithJob(p, u);
    var s0 := Exec(p, INITIAL, a);
    var b := WorkerPosts(p, s0, 0, job);
    var s1 := Exec(p, s0, b);
    assert |INIT + job| == |INIT| + 32 && s1.db[JOB_LIST_KEY] == INIT + job;
    var c := Reboots(p, s1);
    ExecConcat(p, INITIAL, a, b);
    ExecConcat(p, INITIAL, a + b, c);
    schedule := a + b + c;
  }

  /** What a boot writes: two empty lists and the node's key, if it has one. */
  function Rebooted(p: Params, db: Db): Db {
    var lists := db[JOB_LIST_KEY := INIT][RESULT_LIST_KEY := INIT];
    if p.keystore.Some? then lists[IDENTITY_KEY := p.keystore.value] else lists
  }

  lemma RebootKeepsRecords(p: Params, db: Db, id: Bytes32)
    ensures Get(Rebooted(p, db), id) == Get(db, id)
    ensures JOB_LIST_KEY in Rebooted(p, db) && Rebooted(p, db)[JOB_LIST_KEY] == INIT
  {
  }

  /** The node dies and boots again: all that was under way is gone, and the store is written to as it boots. */
  lemma Reboots(p: Params, s: State) returns (schedule: seq<Action>)
    ensures var s' := Exec(p, s, schedule);
            && s'.boot == Up && s'.monitor == Idle
            && JOB_LIST_KEY in s'.db && s'.db[JOB_LIST_KEY] == INIT
            && s'.workers == map[] && s'.tasks == map[] && s'.channel == []
            && s'.db == Rebooted(p, s.db) && s'.chain == s.chain && s'.listener == Waiting
            && s'.past.appended == s.past.appended && s'.past.drained == s.past.drained
            && s'.past.dispatched == s.past.dispatched
            && s'.past.dropped == s.past.dropped + Undispatched(s.monitor)
            && s'.past.roundsExact == s.past.roundsExact
            && s'.past.bootsExact == (s.past.bootsExact && ExactBoot(s.db))
  {
    hide Exec;
    var cur;
    StartHere(p, s);
    schedule, cur := Then(p, s, [], Restart);
    schedule, cur := Then(p, s, schedule, BootStep);
    schedule, cur := Then(p, s, schedule, BootStep);
    schedule, cur := Then(p, s, schedule, BootStep);
  }

  /**
   The monitor drains a job's id between the worker's two writes and finds no
   record to run: the id is gone from the list, and the record comes too late.
   */
  lemma DrainedBeforeStored(p: Params, u: Upload) returns (schedule: seq<Action>)
    requires Accepted(p, u)
    ensures var s := Exec(p, INITIAL, schedule);
            var job := WS.JobKey(p.pallet, JobOf(u));
            && s.past.appended == [job] && s.past.drained == [job] && s.past.started == [] && s.past.dropped == []
            && JOB_LIST_KEY in s.db && s.db[JOB_LIST_KEY] == INIT && s.monitor == Idle
            && s.tasks == map[] && s.channel == [] && s.workers == map[]
            && job in s.db && s.db[job] == EncodeRequest(JobRequest(job, JobOf(u)))
  {
    hide Exec, WS.JobKey, EncodeRequest, JobOf, WS.PrefixedName, Step;
    assert JobOf(u).state == Pending by { JobOfFields(u); }
    var job := WS.JobKey(p.pallet, JobOf(u));
    var a := BootsWithJob(p, u);
    var s0 := Exec(p, INITIAL, a);
    var b := WorkerLists(p, s0, 0, job);
    var s1 := Exec(p, s0, b);
    ListedAlone(job);
    assert |job| != |JOB_LIST_KEY| && |job| != |RESULT_LIST_KEY|;
    var c := MonitorFindsNothing(p, s1, job);
    var s2 := Exec(p, s1, c);
    StartHere(p, s2);
    WorkerStores(p, s2, 0);
    var d, s3 := Then(p, s2, [], WorkerStep(0, StorePayload));
    StartHere(p, Exec(p, s2, d));
    Joined(p, INITIAL, a, b, c, d, []);
    schedule := a + b + c + d + [];
  }

  lemma ListedAlone(job: Bytes32)
    ensures INIT + job == ListOf([job])
  {
    ListOfAppend([], job);
    assert [] + [job] == [job] && ListOf([]) == INIT;
  }

  lemma MonitorFindsNothing(p: Params, s: State, job: Bytes32) returns (schedule: seq<Action>)
    requires s.boot == Up && s.monitor == Idle
    requires JOB_LIST_KEY in s.db && s.db[JOB_LIST_KEY] == ListOf([job]) && job !in s.db && 0 !in s.tasks
    ensures var s' := Exec(p, s, schedule);
            && s'.db == s.db[JOB_LIST_KEY := INIT]
            && s'.past.drained == s.past.drained + [job] && s'.past.appended == s.past.appended
            && s'.past.started == s.past.started && s'.past.dropped == s.past.dropped
            && s' == s.(db := s'.db, past := s'.past)
  {
    hide Exec, ListOf;
    var cur;
    schedule := MonitorClears(p, s, job);
    assert |job| != |JOB_LIST_KEY|;
    schedule, cur := Then(p, s, schedule, MonitorStep(DispatchTo(0)));
    assert cur.monitor == Dispatching([]);
    schedule, cur := Then(p, s, schedule, MonitorStep(DispatchTo(0)));
  }

  /**
   The node dies between the clearing of a job's id and its lookup. Nothing was
   refused, the record is stored, and rounds and boots were exact; yet the id is
   in no list and nothing is left that would run the job.
   */
  lemma JobDroppedAtRestart(p: Params, u: Upload) returns (schedule: seq<Action>)
    requires Accepted(p, u)
    ensures var s := Exec(p, INITIAL, schedule);
            var job := WS.JobKey(p.pallet, JobOf(u));
            && s.past.appended == [job] && s.past.drained == [job]
            && s.past.dropped == [job] && s.past.dispatched == []
            && s.past.roundsExact && s.past.bootsExact
            && JOB_LIST_KEY in s.db && s.db[JOB_LIST_KEY] == INIT && s.boot == Up && s.monitor == Idle
            && s.tasks == map[] && s.channel == [] && s.workers == map[]
            && job in s.db && s.db[job] == EncodeRequest(JobRequest(job, JobOf(u)))
  {
    hide Exec, WS.JobKey, EncodeRequest, JobOf, WS.PrefixedName, AfterJob, Step;
    var job := WS.JobKey(p.pallet, JobOf(u));
    var a := BootsWithJob(p, u);
    var s0 := Exec(p, INITIAL, a);
    var b := WorkerPosts(p, s0, 0, job);
    var s1 := Exec(p, s0, b);
    ListedAlone(job);
    assert |job| != |JOB_LIST_KEY| && |job| != |RESULT_LIST_KEY|;
    var c := MonitorClears(p, s1, job);
    var s2 := Exec(p, s1, c);
    var d := Reboots(p, s2);
    RebootKeepsRecords(p, s2.db, job);
    hide Rebooted;
    StartHere(p, Exec(p, s2, d));
    Joined(p, INITIAL, a, b, c, d, []);
    schedule := a + b + c + d + [];
  }

  /** A worker whose swap of the list fails stores its request all the same. */
  lemma WorkerOverwrites(p: Params, s: State, w: nat, job: Bytes32) returns (schedule: seq<Action>)
    requires w in s.workers && s.workers[w].HasBothLists? && s.workers[w].resultList == INIT
    requires job in s.workers[w].snapshot.jobs && s.workers[w].snapshot.jobs[job].state == Pending
    requires JOB_LIST_KEY in s.db && s.db[JOB_LIST_KEY] != s.workers[w].jobList
    ensures var s' := Exec(p, s, schedule);
            && s'.db == s.db[job := EncodeRequest(JobRequest(job, s.workers[w].snapshot.jobs[job]))]
            && s'.past.submitted == s.past.submitted + [WS.ChangeJobState(s.workers[w].snapshot.block, job)]
            && s'.past.appended == s.past.appended && s'.past.handled == s.past.handled
            && s' == s.(db := s'.db, workers := s.workers - {w}, past := s'.past)
  {
    hide Exec, EncodeRequest, Step;
    var cur;
    var k := s.workers[w];
    var payload := JobRequest(job, k.snapshot.jobs[job]);
    var listing := s.workers[w := Listing(k.snapshot.block, k.jobList, job, payload, INIT)];
    var storing := s.workers[w := Storing(k.snapshot.block, payload, INIT)];
    StartHere(p, s);
    HandleStep(p, s, w, job);
    schedule, cur := Then(p, s, [], WorkerStep(w, HandleJob(job, true)));
    assert cur.workers == listing;
    LostSwapStep(p, cur, w);
    schedule, cur := Then(p, s, schedule, WorkerStep(w, SwapJobList));
    assert cur.workers == storing;
    WorkerStores(p, cur, w);
    schedule, cur := Then(p, s, schedule, WorkerStep(w, StorePayload));
    assert cur.workers == s.workers - {w};
  }

  lemma HandleStep(p: Params, s: State, w: nat, job: Bytes32)
    requires w in s.workers && s.workers[w].HasBothLists? && job in s.workers[w].snapshot.jobs
    requires s.workers[w].snapshot.jobs[job].state == Pending
    ensures var k := s.workers[w];
            Step(p, s, WorkerStep(w, HandleJob(job, true)))
            == s.(workers := s.workers[w := Listing(k.snapshot.block, k.jobList, job,
                                                    JobRequest(job, k.snapshot.jobs[job]), k.resultList)],
                  past := s.past.(submitted := s.past.submitted + [WS.ChangeJobState(k.snapshot.block, job)]))
  {
  }

  lemma LostSwapStep(p: Params, s: State, w: nat)
    requires w in s.workers && s.workers[w].Listing?
    requires JOB_LIST_KEY in s.db && s.db[JOB_LIST_KEY] != s.workers[w].jobList
    ensures var k := s.workers[w];
            Step(p, s, WorkerStep(w, SwapJobList))
            == s.(workers := s.workers[w := Storing(k.block, k.payload, k.resultList)])
  {
  }

  /**
   A stored result is lost: a worker that read the lists while the job was
   waiting comes too late to list it again, yet sets its request over the
   result that has been stored meanwhile. The result list still names the job,
   no executor has it to run and no job list names it.
   */
  lemma ResultLost(p: Params, u: Upload, out: Blob) returns (schedule: seq<Action>)
    requires Accepted(p, u) && p.runs(u.code, u.abi, out)
    ensures var s := Exec(p, INITIAL, schedule);
            var job := WS.JobKey(p.pallet, JobOf(u));
            && s.past.handled == [job]
            && RESULT_LIST_KEY in s.db && s.db[RESULT_LIST_KEY] == ListOf([job])
            && job in s.db && s.db[job] == EncodeRequest(JobRequest(job, JobOf(u)))
            && s.past.appended == [job] && JOB_LIST_KEY in s.db && s.db[JOB_LIST_KEY] == INIT
            && s.monitor == Idle && s.listener == Waiting
            && s.workers == map[] && s.tasks == map[] && s.channel == []
  {
    hide Exec, WS.JobKey, EncodeRequest, EncodeResponse, StoredResult, ListOf, JobOf, WS.PrefixedName;
    var job := WS.JobKey(p.pallet, JobOf(u));
    assert JobOf(u).code == u.code && JobOf(u).abi == u.abi && JobOf(u).state == Pending by { JobOfFields(u); }
    var request := JobRequest(job, JobOf(u));
    var a := BootsWithJob(p, u);
    var s0 := Exec(p, INITIAL, a);
    var b := WorkerPosts(p, s0, 0, job);
    var s1 := Exec(p, s0, b);
    FirstPost(s0, job, request);
    var c := WorkerReads(p, s1, 1);
    var s2 := Exec(p, s1, c);
    var d := NodeRuns(p, s2, job, request, out, 0);
    var s3 := Exec(p, s2, d);
    AfterNode(p, s2.db, s3.db, job, out, 0);
    var e := WorkerOverwrites(p, s3, 1, job);
    Joined(p, INITIAL, a, b, c, d, e);
    schedule := a + b + c + d + e;
    assert map[1 := s3.workers[1]] - {1} == map[];
  }

  lemma AfterNode(p: Params, before: Db, after: Db, job: Bytes32, out: Blob, time: U32)
    requires RESULT_LIST_KEY in before && before[RESULT_LIST_KEY] == INIT
    requires after == StoredResult(p, before[JOB_LIST_KEY := INIT], JobResult(job, out, time))
    ensures JOB_LIST_KEY in after && after[JOB_LIST_KEY] == INIT && INIT != ListOf([job])
    ensures RESULT_LIST_KEY in after && after[RESULT_LIST_KEY] == ListOf([job])
  {
    ListedAlone(job);
    assert |job| != |JOB_LIST_KEY| && |job| != |RESULT_LIST_KEY| && |JOB_LIST_KEY| != |RESULT_LIST_KEY|;
    assert |INIT + job| == |INIT| + 32;
    hide ListOf, EncodeResponse;
  }
}
