/**
 The oracle job pipeline as a state machine: the chain, any number of off-chain
 worker runs, the node's monitor loop, its executor tasks and the listener that
 stores results. They meet in one untyped byte store and in one bounded FIFO
 channel. Every get, set and compare-and-set is a step of its own; an action
 that is not possible in a state leaves it as it is, so every sequence of
 actions is a schedule.
 */
module Pipeline {
  import opened Bytes
  import opened Payloads
  import opened KeyLists
  import WS = WasmStore

  /** `runs(code, abi, out)`: running the executor on `code` and `abi` may return `out`. */
  datatype Params = Params(
    pallet: WS.Config,
    runs: (Blob, Blob, Blob) -> bool,
    keystore: Option<Bytes32>)
  {
    function Processor(): Bytes32 {
      match keystore case Some(k) => k case None => seq(32, _ => 0)
    }
  }

  const JOB_LIST_KEY: Bytes := Ascii("wasmstore_jobs_executor")
  const RESULT_LIST_KEY: Bytes := Ascii("wasmstore_jobs_result")
  const IDENTITY_KEY: Bytes := Ascii("identity")
  const CHANNEL_CAPACITY := 20

  // ---------- The off-chain store ----------

  type Db = map<Bytes, Bytes>

  function Get(db: Db, key: Bytes): Option<Bytes> {
    if key in db then Some(db[key]) else None
  }

  function CompareAndSet(db: Db, key: Bytes, expected: Bytes, value: Bytes): Db {
    if key in db && db[key] == expected then db[key := value] else db
  }

  /** The second half of `write_to_offchain_db`, after it has read `current`. */
  function WriteBack(db: Db, key: Bytes, current: Option<Bytes>, value: Bytes): Db {
    match current
    case None => db[key := value]
    case Some(v) => CompareAndSet(db, key, v, value)
  }

  // ---------- Actors ----------

  datatype JobResult = JobResult(jobId: Blob, result: Blob, extTime: U32)

  /** One run of the pallet's off-chain worker, on the chain state it was started with. */
  datatype Worker =
    | Started(snapshot: WS.Chain)
    | HasJobList(snapshot: WS.Chain, jobList: Bytes)
    | HasBothLists(snapshot: WS.Chain, jobList: Bytes, resultList: Bytes)
    | Listing(block: nat, jobList: Bytes, job: Bytes32, payload: Request, resultList: Bytes)
    | Storing(block: nat, payload: Request, resultList: Bytes)
    | Collecting(block: nat, todo: seq<Bytes>)
    | Reporting(block: nat, key: Bytes, raw: Bytes, todo: seq<Bytes>)

  datatype Monitor =
    | Idle
    | Rereading(seen: Bytes, ids: seq<Bytes>)
    | Clearing(seen: Bytes, ids: seq<Bytes>, current: Option<Bytes>)
    | Dispatching(todo: seq<Bytes>)
    | Crashed

  datatype Task = Running(key: Bytes, raw: Bytes) | Sending(result: JobResult)

  datatype Listener =
    | Waiting
    | Received(r: JobResult)
    | Replacing(r: JobResult, current: Option<Bytes>)
    | Stored(r: JobResult)
    | Extending(r: JobResult, newList: Bytes)
    | Appending(r: JobResult, newList: Bytes, current: Option<Bytes>)

  /** How far `run_executor` has come since the node process started. */
  datatype Boot = SetJobList | SetResultList | SetIdentity | Up

  /**
   What has happened so far, across restarts. `submitted`: calls that workers
   handed to the transaction pool. `appended`: ids that workers added to the
   job list. `cleared`: how many of those had been added when the list was last
   emptied, by a round or by a boot. `drained`: ids of the rounds that reached
   their clearing. Each of these is held by the monitor until it is looked up,
   which puts it into `dispatched`, and into `started` if it then starts a task,
   or until the process dies, which puts it into `dropped`. `roundsExact`,
   `bootsExact`: every round cleared just what it had read, every boot emptied a
   list that held nothing. `handled`: ids of results the listener received.
   `resultsFrom`: how many of those it had received when the last boot emptied
   the result list.
   */
  datatype History = History(
    submitted: seq<WS.Call>,
    appended: seq<Bytes>,
    cleared: nat,
    drained: seq<Bytes>,
    dropped: seq<Bytes>,
    dispatched: seq<Bytes>,
    started: seq<Bytes>,
    roundsExact: bool,
    bootsExact: bool,
    handled: seq<Bytes>,
    resultsFrom: nat)

  datatype State = State(
    chain: WS.Chain,
    db: Db,
    boot: Boot,
    workers: map<nat, Worker>,
    monitor: Monitor,
    tasks: map<nat, Task>,
    channel: seq<JobResult>,
    listener: Listener,
    past: History)

  const NO_HISTORY := History([], [], 0, [], [], [], [], true, true, [], 0)

  const INITIAL := State(
    WS.GENESIS, map[], SetJobList, map[], Idle, map[], [], Waiting, NO_HISTORY)

  datatype Action =
    | ChainStep(event: WS.Event)
    | Restart
    | BootStep
    | WorkerStep(w: nat, workerMove: WorkerMove)
    | MonitorStep(monitorMove: MonitorMove)
    | TaskStep(t: nat, taskMove: TaskMove)
    | ListenerStep

  datatype WorkerMove =
    | Start
    | ReadJobList
    | ReadResultList
    | HandleJob(job: Bytes32, poolAccepts: bool)
    | NothingToDo
    | SwapJobList
    | StorePayload
    | LoadResult
    | ReportResult(poolAccepts: bool)

  datatype MonitorMove = Read | Reread | Clear | DispatchTo(t: nat)

  datatype TaskMove = Run(out: Option<Blob>, extTime: U32) | Send

  // ---------- Boot ----------

  /** The unconditional write of the empty list finds no list, or an empty one. */
  predicate ExactBoot(db: Db) {
    JOB_LIST_KEY in db ==> db[JOB_LIST_KEY] == INIT
  }

  function Booted(p: Params, s: State): State {
    match s.boot
    case SetJobList =>
      s.(db := s.db[JOB_LIST_KEY := INIT], boot := SetResultList,
         past := s.past.(cleared := |s.past.appended|, bootsExact := s.past.bootsExact && ExactBoot(s.db)))
    case SetResultList =>
      s.(db := s.db[RESULT_LIST_KEY := INIT], boot := SetIdentity,
         past := s.past.(resultsFrom := |s.past.handled|))
    case SetIdentity =>
      s.(db := (match p.keystore case Some(k) => s.db[IDENTITY_KEY := k] case None => s.db), boot := Up)
    case Up => s
  }

  /** The ids that a round has cleared and the monitor has yet to look up. */
  function Undispatched(m: Monitor): seq<Bytes> {
    if m.Dispatching? then m.todo else []
  }

  /** The process dies while the monitor holds no such id. */
  predicate ExactRestart(m: Monitor) {
    m.Dispatching? ==> m.todo == []
  }

  /** The process dies and starts again: the store and the chain survive. */
  function Restarted(s: State): State {
    s.(boot := SetJobList, workers := map[], monitor := Idle, tasks := map[], channel := [], listener := Waiting,
       past := s.past.(dropped := s.past.dropped + Undispatched(s.monitor)))
  }

  // ---------- The off-chain worker ----------

  function JobRequest(key: Bytes32, job: WS.Job): Request {
    Request(key, job.code, job.abi, Pending)
  }

  /** `ocw_do_handling_result`, reached once the job has been dealt with. */
  function AfterJob(block: nat, resultList: Bytes): Option<Worker> {
    if resultList == INIT || |resultList| < 4 then None
    else Some(Collecting(block, ParseList(resultList)))
  }

  function SetWorker(s: State, w: nat, next: Option<Worker>): State {
    match next
    case None => s.(workers := s.workers - {w})
    case Some(k) => s.(workers := s.workers[w := k])
  }

  function Submitted(s: State, call: WS.Call): State {
    s.(past := s.past.(submitted := s.past.submitted + [call]))
  }

  /** The job the iteration stops at; its order is that of hashed keys, so any order is allowed for. */
  predicate Stops(state: JobState) {
    state == Pending || state == Finish
  }

  function HandledJob(s: State, w: nat, k: Worker, job: Bytes32, poolAccepts: bool): State
    requires k.HasBothLists? && job in k.snapshot.jobs && Stops(k.snapshot.jobs[job].state)
  {
    if k.snapshot.jobs[job].state == Finish then SetWorker(s, w, AfterJob(k.snapshot.block, k.resultList))
    else
      var payload := if poolAccepts then JobRequest(job, k.snapshot.jobs[job]) else DEFAULT_REQUEST;
      var s1 := if poolAccepts then Submitted(s, WS.ChangeJobState(k.snapshot.block, job)) else s;
      SetWorker(s1, w, Some(Listing(k.snapshot.block, k.jobList, job, payload, k.resultList)))
  }

  function SwappedJobList(s: State, w: nat, k: Worker): State
    requires k.Listing?
  {
    var won := JOB_LIST_KEY in s.db && s.db[JOB_LIST_KEY] == k.jobList;
    var s1 := s.(db := CompareAndSet(s.db, JOB_LIST_KEY, k.jobList, k.jobList + k.job));
    var s2 := if won then s1.(past := s.past.(appended := s.past.appended + [k.job])) else s1;
    SetWorker(s2, w, Some(Storing(k.block, k.payload, k.resultList)))
  }

  function StoredPayload(s: State, w: nat, k: Worker): State
    requires k.Storing?
  {
    SetWorker(s.(db := s.db[k.payload.jobId := EncodeRequest(k.payload)]), w, AfterJob(k.block, k.resultList))
  }

  function LoadedResult(s: State, w: nat, k: Worker): State
    requires k.Collecting?
  {
    if k.todo == [] then SetWorker(s, w, None)
    else
      match Get(s.db, k.todo[0])
      case None => SetWorker(s, w, Some(Collecting(k.block, k.todo[1..])))
      case Some(raw) => SetWorker(s, w, Some(Reporting(k.block, k.todo[0], raw, k.todo[1..])))
  }

  /** A refused submission makes the run panic. */
  function ReportedResult(s: State, w: nat, k: Worker, poolAccepts: bool): State
    requires k.Reporting?
  {
    match ParseResponse(k.raw)
    case Failed => SetWorker(s, w, Some(Collecting(k.block, k.todo)))
    case Parsed(r, _) =>
      if !poolAccepts then SetWorker(s, w, None)
      else
        SetWorker(Submitted(s, WS.SubmitResult(k.block, r.jobId, r.result, r.address, r.exeTime)),
                  w, Some(Collecting(k.block, k.todo)))
  }

  function WorkerStepped(s: State, w: nat, move: WorkerMove): State {
    if w !in s.workers then
      if move.Start? then SetWorker(s, w, Some(Started(s.chain))) else s
    else
      var k := s.workers[w];
      match move
      case ReadJobList =>
        if !k.Started? then s
        else if JOB_LIST_KEY !in s.db then SetWorker(s, w, None)
        else SetWorker(s, w, Some(HasJobList(k.snapshot, s.db[JOB_LIST_KEY])))
      case ReadResultList =>
        if !k.HasJobList? then s
        else if RESULT_LIST_KEY !in s.db then SetWorker(s, w, None)
        else SetWorker(s, w, Some(HasBothLists(k.snapshot, k.jobList, s.db[RESULT_LIST_KEY])))
      case HandleJob(job, poolAccepts) =>
        if k.HasBothLists? && job in k.snapshot.jobs && Stops(k.snapshot.jobs[job].state) then
          HandledJob(s, w, k, job, poolAccepts)
        else s
      case NothingToDo =>
        if k.HasBothLists? && forall j :: j in k.snapshot.jobs ==> !Stops(k.snapshot.jobs[j].state) then
          SetWorker(s, w, None)
        else s
      case SwapJobList => if k.Listing? then SwappedJobList(s, w, k) else s
      case StorePayload => if k.Storing? then StoredPayload(s, w, k) else s
      case LoadResult => if k.Collecting? then LoadedResult(s, w, k) else s
      case ReportResult(poolAccepts) => if k.Reporting? then ReportedResult(s, w, k, poolAccepts) else s
      case Start => s
  }

  // ---------- The monitor loop ----------

  function MonitorRead(s: State): State {
    if JOB_LIST_KEY !in s.db then s
    else if |s.db[JOB_LIST_KEY]| < 4 then s.(monitor := Crashed)
    else
      s.(monitor := Rereading(s.db[JOB_LIST_KEY], ParseList(s.db[JOB_LIST_KEY])))
  }

  /** The list was cleared of exactly the ids that were read from it. */
  predicate ExactRound(db: Db, seen: Bytes, current: Option<Bytes>) {
    if current.None? || Get(db, JOB_LIST_KEY) == current then current == Some(seen) else seen == INIT
  }

  function MonitorClear(s: State): State
    requires s.monitor.Clearing?
  {
    var m := s.monitor;
    var won := m.current.None? || Get(s.db, JOB_LIST_KEY) == m.current;
    s.(db := WriteBack(s.db, JOB_LIST_KEY, m.current, INIT),
       monitor := Dispatching(m.ids),
       past := s.past.(cleared := if won then |s.past.appended| else s.past.cleared,
                       drained := s.past.drained + m.ids,
                       roundsExact := s.past.roundsExact && ExactRound(s.db, m.seen, m.current)))
  }

  function MonitorDispatch(s: State, t: nat): State
    requires s.monitor.Dispatching?
  {
    var todo := s.monitor.todo;
    if todo == [] then s.(monitor := Idle)
    else if t in s.tasks then s
    else
      var past := s.past.(dispatched := s.past.dispatched + [todo[0]]);
      match Get(s.db, todo[0])
      case None => s.(monitor := Dispatching(todo[1..]), past := past)
      case Some(raw) =>
        s.(monitor := Dispatching(todo[1..]), tasks := s.tasks[t := Running(todo[0], raw)],
           past := past.(started := past.started + [todo[0]]))
  }

  function MonitorStepped(s: State, move: MonitorMove): State {
    if s.boot != Up then s
    else
      match move
      case Read => if s.monitor.Idle? then MonitorRead(s) else s
      case Reread =>
        if s.monitor.Rereading? then
          s.(monitor := Clearing(s.monitor.seen, s.monitor.ids, Get(s.db, JOB_LIST_KEY)))
        else s
      case Clear => if s.monitor.Clearing? then MonitorClear(s) else s
      case DispatchTo(t) => if s.monitor.Dispatching? then MonitorDispatch(s, t) else s
  }

  // ---------- Executor tasks ----------

  function TaskStepped(p: Params, s: State, t: nat, move: TaskMove): State {
    if t !in s.tasks then s
    else
      match move
      case Run(out, extTime) =>
        if !s.tasks[t].Running? then s
        else
          (match ParseRequest(s.tasks[t].raw)
           case Failed => s.(tasks := s.tasks - {t})
           case Parsed(r, _) =>
             if out.Some? && p.runs(r.content, r.abi, out.value) then
               s.(tasks := s.tasks[t := Sending(JobResult(r.jobId, out.value, extTime))])
             else s.(tasks := s.tasks - {t}))
      case Send =>
        if !s.tasks[t].Sending? || |s.channel| >= CHANNEL_CAPACITY then s
        else s.(channel := s.channel + [s.tasks[t].result], tasks := s.tasks - {t})
  }

  // ---------- The result listener ----------

  function ResponseOf(p: Params, r: JobResult): Response {
    Response(r.jobId, r.result, Finish, p.Processor(), r.extTime)
  }

  function ListenerStepped(p: Params, s: State): State {
    if s.boot != Up then s
    else
      match s.listener
      case Waiting =>
        if s.channel == [] then s
        else s.(channel := s.channel[1..], listener := Received(s.channel[0]),
                past := s.past.(handled := s.past.handled + [s.channel[0].jobId]))
      case Received(r) => s.(listener := Replacing(r, Get(s.db, r.jobId)))
      case Replacing(r, current) =>
        s.(db := WriteBack(s.db, r.jobId, current, EncodeResponse(ResponseOf(p, r))), listener := Stored(r))
      case Stored(r) =>
        s.(listener := if RESULT_LIST_KEY in s.db then Extending(r, s.db[RESULT_LIST_KEY] + r.jobId) else Waiting)
      case Extending(r, newList) => s.(listener := Appending(r, newList, Get(s.db, RESULT_LIST_KEY)))
      case Appending(r, newList, current) =>
        s.(db := WriteBack(s.db, RESULT_LIST_KEY, current, newList), listener := Waiting)
  }

  // ---------- Schedules ----------

  function Step(p: Params, s: State, a: Action): State {
    match a
    case ChainStep(e) => s.(chain := WS.Advance(p.pallet, s.chain, e))
    case Restart => Restarted(s)
    case BootStep => Booted(p, s)
    case WorkerStep(w, move) => WorkerStepped(s, w, move)
    case MonitorStep(move) => MonitorStepped(s, move)
    case TaskStep(t, move) => TaskStepped(p, s, t, move)
    case ListenerStep => ListenerStepped(p, s)
  }

  function Exec(p: Params, s: State, schedule: seq<Action>): State
    decreases |schedule|
  {
    if schedule == [] then s else Exec(p, Step(p, s, schedule[0]), schedule[1..])
  }

  lemma {:induction false} ExecConcat(p: Params, s: State, a: seq<Action>, b: seq<Action>)
    ensures Exec(p, s, a + b) == Exec(p, Exec(p, s, a), b)
    decreases |a|
  {
    if a == [] {
      assert a + b == b;
    } else {
      assert (a + b)[1..] == a[1..] + b;
      ExecConcat(p, Step(p, s, a[0]), a[1..], b);
    }
  }

  lemma ExecOne(p: Params, s: State, a: Action)
    ensures Exec(p, s, [a]) == Step(p, s, a)
  {
    hide Step;
    assert [a][1..] == [];
    assert Exec(p, s, [a]) == Exec(p, Step(p, s, a), []);
  }

  lemma ExecTwo(p: Params, s: State, a: Action, b: Action)
    ensures Exec(p, s, [a, b]) == Step(p, Step(p, s, a), b)
  {
    hide Step;
    assert [a, b][1..] == [b];
    assert Exec(p, s, [a, b]) == Exec(p, Step(p, s, a), [b]);
    ExecOne(p, Step(p, s, a), b);
  }
}
