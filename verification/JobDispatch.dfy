/**
 Which drained ids start a task. A worker lists an id before it stores the
 job's record, so the monitor can come in between and find nothing to run; and
 the node can die while the monitor holds the id. An id whose worker died is
 not looked up: the next boot wipes it.
 */
module JobDispatch {
  import opened Bytes
  import opened Payloads
  import opened KeyLists
  import opened Pipeline
  import opened ListFrames
  import D = JobDrain
  import P = Provenance
  import WS = WasmStore

  /** A worker has listed `id` and is about to store its record. */
  ghost predicate InFlight(workers: map<nat, Worker>, id: Bytes32) {
    exists w :: w in workers && workers[w].Storing? && workers[w].payload.jobId == id
  }

  ghost predicate Backed(s: State, id: Bytes32) {
    id in s.db || InFlight(s.workers, id)
  }

  /** A worker that lists `id` carries the record to store under it. */
  ghost predicate Carries(workers: map<nat, Worker>, id: Bytes32) {
    forall w :: w in workers && workers[w].Listing? && workers[w].job == id ==> workers[w].payload.jobId == id
  }

  /** The ids the monitor has read and not yet dispatched. */
  function InHand(m: Monitor): seq<Bytes> {
    match m
    case Rereading(_, ids) => ids
    case Clearing(_, ids, _) => ids
    case Dispatching(todo) => todo
    case _ => []
  }

  ghost predicate BackInv(s: State, id: Bytes32) {
    && Carries(s.workers, id)
    && (s.boot != SetJobList && (id in D.Listed(s.db) || id in InHand(s.monitor)) ==> Backed(s, id))
  }

  /** The pool takes every state change that a worker offers for this job. */
  predicate NoRefusal(a: Action, id: Bytes32) {
    a.WorkerStep? && a.workerMove.HandleJob? && a.workerMove.job == id ==> a.workerMove.poolAccepts
  }

  // ---------- Workers ----------

  /** The worker's next form neither lists `id` without its record nor gives up storing it. */
  ghost predicate FinePlace(s: State, w: nat, next: Option<Worker>, id: Bytes32) {
    && (next.Some? && next.value.Listing? && next.value.job == id ==> next.value.payload.jobId == id)
    && !(w in s.workers && s.workers[w].Storing?)
  }

  lemma SetWorkerKeeps(s: State, w: nat, next: Option<Worker>, id: Bytes32)
    requires BackInv(s, id) && FinePlace(s, w, next, id)
    ensures BackInv(SetWorker(s, w, next), id)
  {
    var s' := SetWorker(s, w, next);
    hide D.Listed;
    if InFlight(s.workers, id) {
      var v :| v in s.workers && s.workers[v].Storing? && s.workers[v].payload.jobId == id;
      assert v in s'.workers && s'.workers[v] == s.workers[v];
    }
  }

  lemma HandleKeeps(s: State, w: nat, job: Bytes32, poolAccepts: bool, id: Bytes32)
    requires BackInv(s, id) && w in s.workers && s.workers[w].HasBothLists?
    requires job in s.workers[w].snapshot.jobs && Stops(s.workers[w].snapshot.jobs[job].state)
    requires job == id ==> poolAccepts
    ensures BackInv(HandledJob(s, w, s.workers[w], job, poolAccepts), id)
  {
    var k := s.workers[w];
    if k.snapshot.jobs[job].state == Finish {
      SetWorkerKeeps(s, w, AfterJob(k.snapshot.block, k.resultList), id);
    } else {
      var payload := if poolAccepts then JobRequest(job, k.snapshot.jobs[job]) else DEFAULT_REQUEST;
      var s1 := if poolAccepts then Submitted(s, WS.ChangeJobState(k.snapshot.block, job)) else s;
      hide D.Listed, AfterJob;
      SetWorkerKeeps(s1, w, Some(Listing(k.snapshot.block, k.jobList, job, payload, k.resultList)), id);
    }
  }

  lemma SwapKeeps(s: State, w: nat, id: Bytes32)
    requires D.DrainInv(s) && BackInv(s, id) && w in s.workers && s.workers[w].Listing?
    ensures BackInv(SwappedJobList(s, w, s.workers[w]), id)
  {
    D.SwapLists(s, w);
    hide D.DrainInv, D.Listed;
    var k := s.workers[w];
    var next := Storing(k.block, k.payload, k.resultList);
    var workers := s.workers[w := next];
    if k.payload.jobId == id {
      assert w in workers && workers[w] == next;
      assert InFlight(workers, id);
    }
    if InFlight(s.workers, id) {
      OthersInFlight(s.workers, w, next, id);
    }
    hide InFlight;
  }

  lemma OthersInFlight(workers: map<nat, Worker>, w: nat, next: Worker, id: Bytes32)
    requires w in workers && !workers[w].Storing? && InFlight(workers, id)
    ensures InFlight(workers[w := next], id)
  {
    var v :| v in workers && workers[v].Storing? && workers[v].payload.jobId == id;
    assert v in workers[w := next] && workers[w := next][v] == workers[v];
  }

  lemma StoreKeeps(p: Params, s: State, w: nat, id: Bytes32)
    requires P.Inv(p, s) && BackInv(s, id) && w in s.workers && s.workers[w].Storing?
    ensures BackInv(StoredPayload(s, w, s.workers[w]), id)
  {
    var k := s.workers[w];
    var s' := StoredPayload(s, w, k);
    StoreFrame(p, s, w);
    assert Get(s'.db, JOB_LIST_KEY) == Get(s.db, JOB_LIST_KEY);
    hide P.Inv, EncodeRequest;
    if InFlight(s.workers, id) {
      var v :| v in s.workers && s.workers[v].Storing? && s.workers[v].payload.jobId == id;
      assert v == w || (v in s'.workers && s'.workers[v] == s.workers[v]);
    }
  }

  lemma ReportKeeps(s: State, w: nat, poolAccepts: bool, id: Bytes32)
    requires BackInv(s, id) && w in s.workers && s.workers[w].Reporting?
    ensures BackInv(ReportedResult(s, w, s.workers[w], poolAccepts), id)
  {
    var k := s.workers[w];
    hide ParseResponse, D.Listed;
    match ParseResponse(k.raw)
    case Failed => SetWorkerKeeps(s, w, Some(Collecting(k.block, k.todo)), id);
    case Parsed(r, _) =>
      if !poolAccepts {
        SetWorkerKeeps(s, w, None, id);
      } else {
        var call := WS.SubmitResult(k.block, r.jobId, r.result, r.address, r.exeTime);
        SetWorkerKeeps(Submitted(s, call), w, Some(Collecting(k.block, k.todo)), id);
      }
  }

  lemma LoadKeeps(s: State, w: nat, id: Bytes32)
    requires BackInv(s, id) && w in s.workers && s.workers[w].Collecting?
    ensures BackInv(LoadedResult(s, w, s.workers[w]), id)
  {
    var k := s.workers[w];
    hide BackInv;
    SetWorkerKeeps(s, w, None, id);
    if k.todo != [] {
      SetWorkerKeeps(s, w, Some(Collecting(k.block, k.todo[1..])), id);
      if k.todo[0] in s.db {
        SetWorkerKeeps(s, w, Some(Reporting(k.block, k.todo[0], s.db[k.todo[0]], k.todo[1..])), id);
      }
    }
  }

  lemma ReadListsKeeps(s: State, w: nat, move: WorkerMove, id: Bytes32)
    requires BackInv(s, id) && w in s.workers
    requires move.Start? || move.ReadJobList? || move.ReadResultList? || move.NothingToDo?
    ensures BackInv(WorkerStepped(s, w, move), id)
  {
    var k := s.workers[w];
    hide BackInv;
    if !k.Storing? {
      SetWorkerKeeps(s, w, None, id);
      if move.ReadJobList? && k.Started? && JOB_LIST_KEY in s.db {
        SetWorkerKeeps(s, w, Some(HasJobList(k.snapshot, s.db[JOB_LIST_KEY])), id);
      } else if move.ReadResultList? && k.HasJobList? && RESULT_LIST_KEY in s.db {
        SetWorkerKeeps(s, w, Some(HasBothLists(k.snapshot, k.jobList, s.db[RESULT_LIST_KEY])), id);
      }
    }
  }

  lemma WorkerKeeps(p: Params, s: State, w: nat, move: WorkerMove, id: Bytes32)
    requires P.Inv(p, s) && D.DrainInv(s) && BackInv(s, id) && NoRefusal(WorkerStep(w, move), id)
    ensures BackInv(WorkerStepped(s, w, move), id)
  {
    hide P.Inv, D.DrainInv, BackInv, HandledJob, SwappedJobList, StoredPayload, LoadedResult, ReportedResult;
    if w !in s.workers {
      SetWorkerKeeps(s, w, Some(Started(s.chain)), id);
    } else {
      var k := s.workers[w];
      match move
      case HandleJob(job, poolAccepts) =>
        if k.HasBothLists? && job in k.snapshot.jobs && Stops(k.snapshot.jobs[job].state) {
          HandleKeeps(s, w, job, poolAccepts, id);
        }
      case SwapJobList => if k.Listing? { SwapKeeps(s, w, id); }
      case StorePayload => if k.Storing? { StoreKeeps(p, s, w, id); }
      case ReportResult(poolAccepts) => if k.Reporting? { ReportKeeps(s, w, poolAccepts, id); }
      case LoadResult => if k.Collecting? { LoadKeeps(s, w, id); }
      case _ => ReadListsKeeps(s, w, move, id);
    }
  }

  // ---------- Everyone else ----------

  /** No id that was not listed or read becomes so, and nothing stored is removed. */
  ghost predicate NoNewIds(s: State, s': State, id: Bytes32) {
    && s'.workers == s.workers && s.db.Keys <= s'.db.Keys
    && (s.boot == SetJobList ==> s'.boot == SetJobList)
    && (id in D.Listed(s'.db) || id in InHand(s'.monitor) ==> id in D.Listed(s.db) || id in InHand(s.monitor))
  }

  lemma NoNewIdsKeeps(s: State, s': State, id: Bytes32)
    requires BackInv(s, id) && NoNewIds(s, s', id)
    ensures BackInv(s', id)
  {
    hide D.Listed;
  }

  lemma MonitorKeeps(s: State, move: MonitorMove, id: Bytes32)
    requires BackInv(s, id)
    ensures BackInv(MonitorStepped(s, move), id)
  {
    ParseListOf([]);
    assert ListOf([]) == INIT;
    hide ListOf, ParseList;
    assert NoNewIds(s, MonitorStepped(s, move), id);
  }

  lemma BootKeeps(p: Params, s: State, id: Bytes32)
    requires D.DrainInv(s) && BackInv(s, id)
    ensures BackInv(Booted(p, s), id)
  {
    ParseListOf([]);
    assert ListOf([]) == INIT;
    assert s.boot != Up ==> s.monitor == Idle;
    hide D.DrainInv, ListOf, ParseList;
  }

  lemma ListenerWrites(p: Params, s: State)
    ensures s.db.Keys <= ListenerStepped(p, s).db.Keys && ListenerStepped(p, s).workers == s.workers
  {
    hide EncodeResponse;
  }

  lemma SameListed(a: Db, b: Db)
    requires Get(a, JOB_LIST_KEY) == Get(b, JOB_LIST_KEY)
    ensures D.Listed(a) == D.Listed(b)
  {
    hide ParseList;
  }

  lemma ListenerKeeps(p: Params, s: State, id: Bytes32)
    requires P.Inv(p, s) && BackInv(s, id)
    ensures BackInv(ListenerStepped(p, s), id)
  {
    hide P.Inv, ListenerStepped, D.Listed, Get, BackInv;
    var s' := ListenerStepped(p, s);
    D.ListenerView(p, s);
    ListenerWrites(p, s);
    SameListed(s.db, s'.db);
    NoNewIdsKeeps(s, s', id);
  }

  lemma StepKeeps(p: Params, s: State, a: Action, id: Bytes32)
    requires P.Inv(p, s) && D.DrainInv(s) && BackInv(s, id) && NoRefusal(a, id)
    ensures BackInv(Step(p, s, a), id)
  {
    if a.ChainStep? || a.TaskStep? {
      QuietKeeps(p, s, a, id);
    } else {
      hide P.Inv, D.DrainInv, D.Listed, Booted, WorkerStepped, MonitorStepped, ListenerStepped;
      match a
      case Restart =>
      case BootStep => BootKeeps(p, s, id);
      case WorkerStep(w, move) => WorkerKeeps(p, s, w, move, id);
      case MonitorStep(move) => MonitorKeeps(s, move, id);
      case ListenerStep => ListenerKeeps(p, s, id);
    }
  }

  lemma QuietKeeps(p: Params, s: State, a: Action, id: Bytes32)
    requires BackInv(s, id) && (a.ChainStep? || a.TaskStep?)
    ensures BackInv(Step(p, s, a), id)
  {
    hide ParseRequest, WS.Advance, D.Listed;
  }

  lemma {:induction false} ExecKeeps(p: Params, s: State, schedule: seq<Action>, id: Bytes32)
    requires P.Inv(p, s) && D.DrainInv(s) && BackInv(s, id)
    requires forall k :: 0 <= k < |schedule| ==> NoRefusal(schedule[k], id)
    ensures BackInv(Exec(p, s, schedule), id)
    decreases |schedule|
  {
    hide P.Inv, D.DrainInv, BackInv, NoRefusal, Step;
    if schedule == [] {
    } else {
      P.StepKeeps(p, s, schedule[0]);
      D.StepKeeps(p, s, schedule[0]);
      StepKeeps(p, s, schedule[0], id);
      ExecKeeps(p, Step(p, s, schedule[0]), schedule[1..], id);
    }
  }

  /**
   In every schedule in which the pool refuses no state change for the job, an
   id that the monitor looks up starts a task on the job's own record exactly
   when the record is there. It can only be missing while a worker that listed
   the id has not yet stored it, and then the id is passed over.
   */
  lemma TaskStartsUnlessInFlight(p: Params, schedule: seq<Action>, id: Bytes32, t: nat)
    requires forall k :: 0 <= k < |schedule| ==> NoRefusal(schedule[k], id)
    ensures var s := Exec(p, INITIAL, schedule);
            s.boot == Up && s.monitor.Dispatching? && s.monitor.todo != [] && s.monitor.todo[0] == id
            && t !in s.tasks ==>
              var tasks := MonitorDispatch(s, t).tasks;
              && (t in tasks <==> id in s.db)
              && (t in tasks ==> tasks[t].Running? && tasks[t].key == id
                                 && P.RecordOk(p, s.chain.jobs, id, tasks[t].raw))
              && (t !in tasks ==> InFlight(s.workers, id))
  {
    P.InitialOk(p);
    ExecKeeps(p, INITIAL, schedule, id);
    P.ExecKeeps(p, INITIAL, schedule);
    var s := Exec(p, INITIAL, schedule);
    if s.boot == Up && s.monitor.Dispatching? && s.monitor.todo != [] && s.monitor.todo[0] == id {
      DispatchingIsKnown(p, s);
      if id in s.db {
        P.KnownEntry(p, s, id);
      }
    }
    hide Exec, P.Inv, P.RecordOk, D.Listed;
  }

  lemma DispatchingIsKnown(p: Params, s: State)
    requires P.Inv(p, s) && s.monitor.Dispatching? && s.monitor.todo != []
    ensures P.IdKnown(s.chain.jobs, s.monitor.todo[0])
  {
    assert P.MonitorOk(s.chain.jobs, s.monitor);
  }

  // ---------- Every drained id, over whole schedules ----------

  /** The step takes `id` out of the monitor's hands and looks its record up. */
  predicate LooksUp(s: State, a: Action, id: Bytes32) {
    && a.MonitorStep? && a.monitorMove.DispatchTo? && a.monitorMove.t !in s.tasks
    && s.boot == Up && s.monitor.Dispatching? && s.monitor.todo != [] && s.monitor.todo[0] == id
  }

  /** It is looked up for the first time too early, between a worker's two writes. */
  ghost predicate TooEarly(s: State, a: Action, id: Bytes32) {
    LooksUp(s, a, id) && id !in s.db && InFlight(s.workers, id)
  }

  ghost predicate NeverTooEarly(p: Params, s: State, schedule: seq<Action>, id: Bytes32)
    decreases |schedule|
  {
    schedule == []
    || (!TooEarly(s, schedule[0], id) && NeverTooEarly(p, Step(p, s, schedule[0]), schedule[1..], id))
  }

  /** How often an id was looked up without starting a task. */
  function Missed(past: History, id: Bytes32): int {
    Times(past.dispatched, id) - Times(past.started, id)
  }

  lemma WorkerLooksUpNothing(p: Params, s: State, w: nat, move: WorkerMove)
    requires P.Inv(p, s)
    ensures var past := WorkerStepped(s, w, move).past;
            past.dispatched == s.past.dispatched && past.started == s.past.started
  {
    WorkerFrame(p, s, w, move);
    hide P.Inv, HandledJob, StoredPayload, LoadedResult, ReportedResult;
  }

  lemma OthersLookUpNothing(p: Params, s: State, a: Action)
    requires P.Inv(p, s) && !a.MonitorStep?
    ensures var past := Step(p, s, a).past; past.dispatched == s.past.dispatched && past.started == s.past.started
  {
    if a.ChainStep? || a.TaskStep? {
      QuietFrame(p, s, a);
      hide P.Inv, Step;
    } else {
      hide P.Inv, WorkerStepped, ListenerStepped;
      match a
      case WorkerStep(w, move) => WorkerLooksUpNothing(p, s, w, move);
      case ListenerStep => D.ListenerView(p, s);
      case _ =>
    }
  }

  lemma DispatchHistory(s: State, t: nat)
    requires s.monitor.Dispatching?
    ensures var past, todo := MonitorDispatch(s, t).past, s.monitor.todo;
            if todo == [] || t in s.tasks then past == s.past
            else && past.dispatched == s.past.dispatched + [todo[0]]
                 && past.started == if todo[0] in s.db then s.past.started + [todo[0]] else s.past.started
  {
  }

  lemma DispatchMisses(s: State, t: nat, id: Bytes32)
    requires s.boot == Up && s.monitor.Dispatching?
    ensures Missed(MonitorDispatch(s, t).past, id)
            == Missed(s.past, id) + if LooksUp(s, MonitorStep(DispatchTo(t)), id) && id !in s.db then 1 else 0
  {
    DispatchHistory(s, t);
    hide Times, MonitorDispatch;
    var todo := s.monitor.todo;
    if todo != [] && t !in s.tasks {
      TimesAppend(s.past.dispatched, todo[0], id);
      TimesAppend(s.past.started, todo[0], id);
    }
  }

  lemma MonitorMisses(s: State, move: MonitorMove, id: Bytes32)
    ensures Missed(MonitorStepped(s, move).past, id)
            == Missed(s.past, id) + if LooksUp(s, MonitorStep(move), id) && id !in s.db then 1 else 0
  {
    hide ParseList, WriteBack, ExactRound, Times, MonitorDispatch;
    if move.DispatchTo? && s.boot == Up && s.monitor.Dispatching? {
      DispatchMisses(s, move.t, id);
    }
  }

  lemma StepMisses(p: Params, s: State, a: Action, id: Bytes32)
    requires P.Inv(p, s) && BackInv(s, id)
    ensures Missed(Step(p, s, a).past, id) == Missed(s.past, id) + if TooEarly(s, a, id) then 1 else 0
  {
    if a.MonitorStep? {
      MonitorMisses(s, a.monitorMove, id);
      hide P.Inv, D.Listed, MonitorStepped, Missed;
    } else {
      OthersLookUpNothing(p, s, a);
      hide P.Inv, BackInv, Step;
    }
  }

  lemma {:induction false} ExecMisses(p: Params, s: State, schedule: seq<Action>, id: Bytes32)
    requires P.Inv(p, s) && D.DrainInv(s) && BackInv(s, id)
    requires forall k :: 0 <= k < |schedule| ==> NoRefusal(schedule[k], id)
    ensures Missed(s.past, id) <= Missed(Exec(p, s, schedule).past, id)
    ensures Missed(s.past, id) == Missed(Exec(p, s, schedule).past, id) <==> NeverTooEarly(p, s, schedule, id)
    decreases |schedule|
  {
    hide P.Inv, D.DrainInv, BackInv, NoRefusal, Step, Missed, TooEarly;
    if schedule == [] {
    } else {
      P.StepKeeps(p, s, schedule[0]);
      D.StepKeeps(p, s, schedule[0]);
      StepKeeps(p, s, schedule[0], id);
      StepMisses(p, s, schedule[0], id);
      ExecMisses(p, Step(p, s, schedule[0]), schedule[1..], id);
    }
  }

  /**
   In every schedule in which the pool refuses no state change for the job, each
   time its id is drained a task starts for it, unless the node died first or
   the monitor still holds it, exactly when it was never looked up too early.
   */
  lemma DrainedIdsStartIff(p: Params, schedule: seq<Action>, id: Bytes32)
    requires forall k :: 0 <= k < |schedule| ==> NoRefusal(schedule[k], id)
    ensures var s := Exec(p, INITIAL, schedule);
            Times(s.past.drained, id)
            == Times(s.past.started, id) + Times(s.past.dropped, id) + Times(Undispatched(s.monitor), id)
            <==> NeverTooEarly(p, INITIAL, schedule, id)
  {
    P.InitialOk(p);
    ExecMisses(p, INITIAL, schedule, id);
    D.DrainedIdsAreHandedOn(p, schedule);
    hide Exec, P.Inv, NeverTooEarly;
  }

  // ---------- Listing and storing in one step ----------

  /** Nothing comes between a round's two reads and its clearing, or between a worker's two writes. */
  datatype Turn = Other(action: Action) | Drain | Post(w: nat)

  predicate IsPart(a: Action) {
    || D.ReadsOrClears(a)
    || (a.WorkerStep? && (a.workerMove.SwapJobList? || a.workerMove.StorePayload?))
  }

  function Actions(turn: Turn): seq<Action> {
    match turn
    case Other(a) => if IsPart(a) then [] else [a]
    case Drain => D.Actions(D.Drain)
    case Post(w) => [WorkerStep(w, SwapJobList), WorkerStep(w, StorePayload)]
  }

  function Expand(turns: seq<Turn>): seq<Action>
    decreases |turns|
  {
    if turns == [] then [] else Actions(turns[0]) + Expand(turns[1..])
  }

  predicate NothingRefused(schedule: seq<Action>) {
    forall k :: 0 <= k < |schedule| ==>
      (schedule[k].WorkerStep? && schedule[k].workerMove.HandleJob? ==> schedule[k].workerMove.poolAccepts)
  }

  /** Every id ever appended has started a task once, is about to be looked up, or is in the list, in this order. */
  predicate StartedOnce(s: State) {
    s.past.appended == s.past.started + Undispatched(s.monitor) + D.Listed(s.db)
  }

  /** The same schedule in terms of one-step rounds alone. */
  function Rounds(turn: Turn): seq<D.Turn> {
    match turn
    case Other(a) => if IsPart(a) then [] else [D.Other(a)]
    case Drain => [D.Drain]
    case Post(w) => [D.Other(WorkerStep(w, SwapJobList)), D.Other(WorkerStep(w, StorePayload))]
  }

  function AllRounds(turns: seq<Turn>): seq<D.Turn>
    decreases |turns|
  {
    if turns == [] then [] else Rounds(turns[0]) + AllRounds(turns[1..])
  }

  lemma {:induction false} ExpandConcat(a: seq<D.Turn>, b: seq<D.Turn>)
    ensures D.Expand(a + b) == D.Expand(a) + D.Expand(b)
    decreases |a|
  {
    if a == [] {
      assert a + b == b;
    } else {
      assert (a + b)[1..] == a[1..] + b;
      ExpandConcat(a[1..], b);
    }
  }

  lemma OneTurn(turn: Turn)
    ensures D.Expand(Rounds(turn)) == Actions(turn)
  {
    match turn {
      case Post(w) =>
        var first, second := D.Other(WorkerStep(w, SwapJobList)), D.Other(WorkerStep(w, StorePayload));
        assert [first, second][1..] == [second] && [second][1..] == [];
        assert D.Expand([second]) == D.Actions(second) + [];
      case Drain => assert [D.Drain][1..] == [];
      case Other(a) => assert [D.Other(a)][1..] == [];
    }
  }

  lemma {:induction false} SameSchedule(turns: seq<Turn>)
    ensures D.Expand(AllRounds(turns)) == Expand(turns)
    decreases |turns|
  {
    if turns == [] {
    } else {
      OneTurn(turns[0]);
      SameSchedule(turns[1..]);
      ExpandConcat(Rounds(turns[0]), AllRounds(turns[1..]));
      hide D.Expand;
    }
  }

  /** Between turns no worker stands between its two writes, so all ids looked up have started a task. */
  ghost predicate Posted(s: State) {
    && (forall w :: w in s.workers ==> !s.workers[w].Storing?)
    && s.past.started == s.past.dispatched
  }

  ghost predicate AllBacked(s: State) {
    forall id: Bytes32 :: BackInv(s, id)
  }

  lemma LookupFinds(p: Params, s: State, t: nat)
    requires P.Inv(p, s) && AllBacked(s) && Posted(s) && s.boot == Up && s.monitor.Dispatching?
    ensures Posted(MonitorDispatch(s, t))
  {
    var todo := s.monitor.todo;
    if todo != [] {
      DispatchingIsKnown(p, s);
      assert BackInv(s, todo[0]);
      assert todo[0] in s.db;
    }
    DispatchHistory(s, t);
    hide P.Inv, AllBacked, D.Listed, BackInv;
  }

  lemma MonitorStaysPosted(p: Params, s: State, move: MonitorMove)
    requires P.Inv(p, s) && AllBacked(s) && Posted(s)
    ensures Posted(MonitorStepped(s, move))
  {
    hide P.Inv, AllBacked, ParseList, WriteBack, ExactRound, MonitorDispatch;
    if move.DispatchTo? && s.boot == Up && s.monitor.Dispatching? {
      hide Posted;
      LookupFinds(p, s, move.t);
    }
  }

  /** Only the swap of the list takes a worker to between its two writes. */
  lemma OthersDoNotStore(s: State, w: nat, move: WorkerMove)
    requires w in s.workers && !s.workers[w].Storing? && !move.SwapJobList?
    ensures var workers := WorkerStepped(s, w, move).workers;
            || workers == s.workers - {w}
            || (w in workers && !workers[w].Storing? && workers == s.workers[w := workers[w]])
  {
    hide ParseResponse, ParseList, JobRequest;
    assert s.workers[w := s.workers[w]] == s.workers;
  }

  lemma WorkerStaysPosted(p: Params, s: State, w: nat, move: WorkerMove)
    requires P.Inv(p, s) && Posted(s) && !IsPart(WorkerStep(w, move))
    ensures Posted(WorkerStepped(s, w, move))
  {
    WorkerLooksUpNothing(p, s, w, move);
    if w in s.workers {
      OthersDoNotStore(s, w, move);
      hide P.Inv, WorkerStepped;
    }
  }

  lemma OtherStaysPosted(p: Params, s: State, a: Action)
    requires P.Inv(p, s) && AllBacked(s) && Posted(s) && !IsPart(a)
    ensures Posted(Step(p, s, a))
  {
    hide P.Inv, AllBacked, WorkerStepped, MonitorStepped;
    match a {
      case WorkerStep(w, move) =>
        hide Posted;
        WorkerStaysPosted(p, s, w, move);
      case MonitorStep(move) =>
        hide Posted;
        MonitorStaysPosted(p, s, move);
      case _ => hide ParseRequest, WriteBack, EncodeResponse, WS.Advance;
    }
  }

  lemma PostStaysPosted(p: Params, s: State, w: nat)
    requires Posted(s)
    ensures Posted(Step(p, Step(p, s, WorkerStep(w, SwapJobList)), WorkerStep(w, StorePayload)))
  {
    hide EncodeRequest;
  }

  lemma DrainStaysPosted(p: Params, s: State)
    requires P.Inv(p, s) && D.DrainInv(s) && AllBacked(s) && Posted(s)
    ensures Posted(Exec(p, s, Actions(Drain)))
  {
    hide P.Inv, D.DrainInv, AllBacked, Posted, Step;
    var read, reread, clear := MonitorStep(Read), MonitorStep(Reread), MonitorStep(Clear);
    D.ThreeSteps(p, s, read, reread, clear);
    RoundStaysPosted(p, s, Read);
    RoundStaysPosted(p, Step(p, s, read), Reread);
    RoundStaysPosted(p, Step(p, Step(p, s, read), reread), Clear);
  }

  lemma RoundStaysPosted(p: Params, s: State, move: MonitorMove)
    requires Posted(s) && !move.DispatchTo?
    ensures Posted(Step(p, s, MonitorStep(move)))
  {
    hide ParseList, WriteBack, ExactRound;
  }

  lemma TurnStaysPosted(p: Params, s: State, turn: Turn)
    requires P.Inv(p, s) && D.DrainInv(s) && AllBacked(s) && Posted(s)
    ensures Posted(Exec(p, s, Actions(turn)))
  {
    hide P.Inv, D.DrainInv, AllBacked, Posted, Step;
    match turn
    case Drain => DrainStaysPosted(p, s);
    case Post(w) =>
      ExecTwo(p, s, WorkerStep(w, SwapJobList), WorkerStep(w, StorePayload));
      PostStaysPosted(p, s, w);
    case Other(a) =>
      if !IsPart(a) {
        ExecOne(p, s, a);
        OtherStaysPosted(p, s, a);
      }
  }

  lemma AllStayBacked(p: Params, s: State, schedule: seq<Action>)
    requires P.Inv(p, s) && D.DrainInv(s) && AllBacked(s) && NothingRefused(schedule)
    ensures AllBacked(Exec(p, s, schedule))
  {
    forall id: Bytes32 ensures BackInv(Exec(p, s, schedule), id) {
      assert BackInv(s, id);
      hide P.Inv, D.DrainInv, BackInv, Exec;
      ExecKeeps(p, s, schedule, id);
    }
  }

  lemma {:induction false} TurnsStayPosted(p: Params, s: State, turns: seq<Turn>)
    requires P.Inv(p, s) && D.DrainInv(s) && AllBacked(s) && Posted(s) && NothingRefused(Expand(turns))
    ensures Posted(Exec(p, s, Expand(turns)))
    decreases |turns|
  {
    if turns == [] {
    } else {
      var first, rest := Actions(turns[0]), Expand(turns[1..]);
      SplitRefusals(first, rest);
      hide P.Inv, D.DrainInv, AllBacked, Posted, Actions, NothingRefused;
      ExecConcat(p, s, first, rest);
      P.ExecKeeps(p, s, first);
      D.ExecKeeps(p, s, first);
      AllStayBacked(p, s, first);
      TurnStaysPosted(p, s, turns[0]);
      TurnsStayPosted(p, Exec(p, s, first), turns[1..]);
    }
  }

  lemma SplitRefusals(a: seq<Action>, b: seq<Action>)
    requires NothingRefused(a + b)
    ensures NothingRefused(a) && NothingRefused(b)
  {
    forall k | 0 <= k < |a| ensures (a + b)[k] == a[k] {
    }
    forall k | 0 <= k < |b| ensures (a + b)[|a| + k] == b[k] {
    }
  }

  /**
   With one-step rounds and one-step posts, and a pool that refuses no state
   change, each appended id starts a task exactly once, in order, if and only
   if no boot wiped a listed id and no restart dropped a cleared one.
   */
  lemma OneStepPostsStartOnce(p: Params, turns: seq<Turn>)
    requires NothingRefused(Expand(turns))
    ensures var s := Exec(p, INITIAL, Expand(turns));
            StartedOnce(s) <==> s.past.bootsExact && s.past.dropped == []
  {
    P.InitialOk(p);
    TurnsStayPosted(p, INITIAL, turns);
    SameSchedule(turns);
    D.OneStepClearingDispatchesOnce(p, AllRounds(turns));
    hide Exec, Expand, P.Inv, D.Listed;
  }
}
