/**
 What the pallet's check of unsigned calls says about the calls its own workers
 submit: their block is never ahead of the chain and their key is a whole hash,
 so only a job whose id is the zero hash is turned away.
 */
module CallValidity {
  import opened Bytes
  import opened Payloads
  import opened KeyLists
  import opened Pipeline
  import ChainHistory
  import P = Provenance
  import WS = WasmStore

  function StartBlock(k: Worker): nat {
    match k
    case Started(snapshot) => snapshot.block
    case HasJobList(snapshot, _) => snapshot.block
    case HasBothLists(snapshot, _, _) => snapshot.block
    case Listing(block, _, _, _, _) => block
    case Storing(block, _, _) => block
    case Collecting(block, _) => block
    case Reporting(block, _, _, _) => block
  }

  predicate CallBlockBy(call: WS.Call, block: nat) {
    match call
    case ChangeJobState(b, _) => b <= block
    case SubmitResult(b, _, _, _, _) => b <= block
    case _ => true
  }

  /** No run and no submitted call is from a block the chain has yet to reach. */
  ghost predicate BlockInv(s: State) {
    && (forall w :: w in s.workers ==> StartBlock(s.workers[w]) <= s.chain.block)
    && (forall k :: 0 <= k < |s.past.submitted| ==> CallBlockBy(s.past.submitted[k], s.chain.block))
  }

  // ---------- Workers ----------

  lemma SetWorkerKeeps(s: State, w: nat, next: Option<Worker>)
    requires BlockInv(s) && (next.Some? ==> StartBlock(next.value) <= s.chain.block)
    ensures BlockInv(SetWorker(s, w, next))
  {
    hide StartBlock, CallBlockBy;
  }

  lemma SubmittedKeeps(s: State, call: WS.Call)
    requires BlockInv(s) && CallBlockBy(call, s.chain.block)
    ensures BlockInv(Submitted(s, call))
  {
    hide StartBlock, CallBlockBy;
  }

  lemma DbKeeps(s: State, db: Db, past: History)
    requires BlockInv(s) && past.submitted == s.past.submitted
    ensures BlockInv(s.(db := db, past := past))
  {
    hide StartBlock, CallBlockBy;
  }

  lemma HandleKeeps(s: State, w: nat, k: Worker, job: Bytes32, poolAccepts: bool)
    requires BlockInv(s) && StartBlock(k) <= s.chain.block
    requires k.HasBothLists? && job in k.snapshot.jobs && Stops(k.snapshot.jobs[job].state)
    ensures BlockInv(HandledJob(s, w, k, job, poolAccepts))
  {
    hide BlockInv;
    if k.snapshot.jobs[job].state == Finish {
      SetWorkerKeeps(s, w, AfterJob(k.snapshot.block, k.resultList));
    } else {
      var call := WS.ChangeJobState(k.snapshot.block, job);
      var payload := if poolAccepts then JobRequest(job, k.snapshot.jobs[job]) else DEFAULT_REQUEST;
      var s1 := if poolAccepts then Submitted(s, call) else s;
      SubmittedKeeps(s, call);
      SetWorkerKeeps(s1, w, Some(Listing(k.snapshot.block, k.jobList, job, payload, k.resultList)));
    }
  }

  lemma SwapKeeps(s: State, w: nat, k: Worker)
    requires BlockInv(s) && StartBlock(k) <= s.chain.block && k.Listing?
    ensures BlockInv(SwappedJobList(s, w, k))
  {
    hide BlockInv, CompareAndSet;
    var won := JOB_LIST_KEY in s.db && s.db[JOB_LIST_KEY] == k.jobList;
    var past := if won then s.past.(appended := s.past.appended + [k.job]) else s.past;
    var db := CompareAndSet(s.db, JOB_LIST_KEY, k.jobList, k.jobList + k.job);
    DbKeeps(s, db, past);
    SetWorkerKeeps(s.(db := db, past := past), w, Some(Storing(k.block, k.payload, k.resultList)));
  }

  lemma StoreKeeps(s: State, w: nat, k: Worker)
    requires BlockInv(s) && StartBlock(k) <= s.chain.block && k.Storing?
    ensures BlockInv(StoredPayload(s, w, k))
  {
    hide BlockInv, EncodeRequest;
    var db := s.db[k.payload.jobId := EncodeRequest(k.payload)];
    DbKeeps(s, db, s.past);
    SetWorkerKeeps(s.(db := db), w, AfterJob(k.block, k.resultList));
  }

  lemma LoadKeeps(s: State, w: nat, k: Worker)
    requires BlockInv(s) && StartBlock(k) <= s.chain.block && k.Collecting?
    ensures BlockInv(LoadedResult(s, w, k))
  {
    hide BlockInv;
    SetWorkerKeeps(s, w, None);
    if k.todo != [] {
      SetWorkerKeeps(s, w, Some(Collecting(k.block, k.todo[1..])));
      if k.todo[0] in s.db {
        SetWorkerKeeps(s, w, Some(Reporting(k.block, k.todo[0], s.db[k.todo[0]], k.todo[1..])));
      }
    }
  }

  lemma ReportKeeps(s: State, w: nat, k: Worker, poolAccepts: bool)
    requires BlockInv(s) && StartBlock(k) <= s.chain.block && k.Reporting?
    ensures BlockInv(ReportedResult(s, w, k, poolAccepts))
  {
    hide BlockInv, ParseResponse;
    var next := Some(Collecting(k.block, k.todo));
    SetWorkerKeeps(s, w, next);
    SetWorkerKeeps(s, w, None);
    if ParseResponse(k.raw).Parsed? {
      var r := ParseResponse(k.raw).value;
      var call := WS.SubmitResult(k.block, r.jobId, r.result, r.address, r.exeTime);
      SubmittedKeeps(s, call);
      SetWorkerKeeps(Submitted(s, call), w, next);
    }
  }

  lemma ReadListsKeeps(s: State, w: nat, k: Worker, move: WorkerMove)
    requires BlockInv(s) && StartBlock(k) <= s.chain.block && w in s.workers && s.workers[w] == k
    requires move.Start? || move.ReadJobList? || move.ReadResultList? || move.NothingToDo?
    ensures BlockInv(WorkerStepped(s, w, move))
  {
    hide BlockInv;
    SetWorkerKeeps(s, w, None);
    if move.ReadJobList? && k.Started? && JOB_LIST_KEY in s.db {
      SetWorkerKeeps(s, w, Some(HasJobList(k.snapshot, s.db[JOB_LIST_KEY])));
    } else if move.ReadResultList? && k.HasJobList? && RESULT_LIST_KEY in s.db {
      SetWorkerKeeps(s, w, Some(HasBothLists(k.snapshot, k.jobList, s.db[RESULT_LIST_KEY])));
    }
  }

  lemma WorkerKeeps(s: State, w: nat, move: WorkerMove)
    requires BlockInv(s)
    ensures BlockInv(WorkerStepped(s, w, move))
  {
    assert w in s.workers ==> StartBlock(s.workers[w]) <= s.chain.block;
    hide BlockInv, HandledJob, SwappedJobList, StoredPayload, LoadedResult, ReportedResult;
    if w !in s.workers {
      SetWorkerKeeps(s, w, Some(Started(s.chain)));
    } else {
      var k := s.workers[w];
      match move
      case HandleJob(job, poolAccepts) =>
        if k.HasBothLists? && job in k.snapshot.jobs && Stops(k.snapshot.jobs[job].state) {
          HandleKeeps(s, w, k, job, poolAccepts);
        }
      case SwapJobList => if k.Listing? { SwapKeeps(s, w, k); }
      case StorePayload => if k.Storing? { StoreKeeps(s, w, k); }
      case LoadResult => if k.Collecting? { LoadKeeps(s, w, k); }
      case ReportResult(poolAccepts) => if k.Reporting? { ReportKeeps(s, w, k, poolAccepts); }
      case _ => ReadListsKeeps(s, w, k, move);
    }
  }

  // ---------- Every schedule ----------

  lemma MonitorKeeps(s: State, move: MonitorMove)
    requires BlockInv(s)
    ensures BlockInv(MonitorStepped(s, move))
  {
    hide StartBlock, CallBlockBy, ParseList, WriteBack;
  }

  lemma ListenerKeeps(p: Params, s: State)
    requires BlockInv(s)
    ensures BlockInv(ListenerStepped(p, s))
  {
    hide StartBlock, CallBlockBy, WriteBack, EncodeResponse;
  }

  lemma TaskKeeps(p: Params, s: State, t: nat, move: TaskMove)
    requires BlockInv(s)
    ensures BlockInv(TaskStepped(p, s, t, move))
  {
    hide StartBlock, CallBlockBy, ParseRequest;
  }

  lemma BootKeeps(p: Params, s: State)
    requires BlockInv(s)
    ensures BlockInv(Booted(p, s)) && BlockInv(Restarted(s))
  {
    hide StartBlock, CallBlockBy;
  }

  lemma StepKeeps(p: Params, s: State, a: Action)
    requires BlockInv(s)
    ensures BlockInv(Step(p, s, a))
  {
    hide WorkerStepped, MonitorStepped, ListenerStepped, TaskStepped, Booted, Restarted;
    if a.ChainStep? {
      ChainHistory.CallsKeepBlock(p.pallet, s.chain, a.event);
      hide WS.Advance;
    } else {
      hide BlockInv;
      match a
      case WorkerStep(w, move) => WorkerKeeps(s, w, move);
      case MonitorStep(move) => MonitorKeeps(s, move);
      case ListenerStep => ListenerKeeps(p, s);
      case TaskStep(t, move) => TaskKeeps(p, s, t, move);
      case _ => BootKeeps(p, s);
    }
  }

  lemma {:induction false} ExecKeeps(p: Params, s: State, schedule: seq<Action>)
    requires BlockInv(s)
    ensures BlockInv(Exec(p, s, schedule))
    decreases |schedule|
  {
    hide BlockInv, Step;
    if schedule == [] {
    } else {
      StepKeeps(p, s, schedule[0]);
      ExecKeeps(p, Step(p, s, schedule[0]), schedule[1..]);
    }
  }

  /** The job a worker's call is about. */
  function KeyOfCall(call: WS.Call): Bytes {
    match call
    case ChangeJobState(_, job) => job
    case SubmitResult(_, key, _, _, _) => key
    case _ => []
  }

  /**
   In every schedule each call that a worker has submitted, now or earlier, is
   valid on the chain as it is, unless it is for a job whose id is the zero
   hash: it is never held back as a future one, and it never makes the check panic.
   */
  lemma SubmittedCallsAreValid(p: Params, schedule: seq<Action>, k: nat)
    requires k < |Exec(p, INITIAL, schedule).past.submitted|
    ensures var s := Exec(p, INITIAL, schedule);
            var call := s.past.submitted[k];
            && P.IdKnown(s.chain.jobs, KeyOfCall(call))
            && WS.ValidateUnsigned(s.chain, call)
               == if KeyOfCall(call) == seq(32, _ => 0) then WS.BadProof else WS.Valid
  {
    P.InitialOk(p);
    P.ExecKeeps(p, INITIAL, schedule);
    ExecKeeps(p, INITIAL, schedule);
    var s := Exec(p, INITIAL, schedule);
    assert P.CallOk(p, s.chain.jobs, s.past.submitted[k]);
    hide Exec, P.Inv;
    var call := s.past.submitted[k];
    assert CallBlockBy(call, s.chain.block);
    if call.SubmitResult? {
      assert call.key[..32] == call.key;
    }
  }
}
