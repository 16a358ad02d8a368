/**
 How long a stored result can be read back. The listener's response and the
 worker's request lie under the same key, and each may be written over the
 other: the listener compares and sets, the worker sets.
 */
module ResultRecords {
  import opened Bytes
  import opened Payloads
  import opened KeyLists
  import opened Pipeline
  import opened ListFrames
  import D = JobDrain
  import P = Provenance
  import WS = WasmStore

  /** Under the id lies a record that no executor takes for a request. */
  predicate Answered(db: Db, id: Bytes) {
    id in db && ParseRequest(db[id]).Failed?
  }

  /** A worker is about to set its request over whatever lies under `id`. */
  predicate Overwrites(s: State, a: Action, id: Bytes) {
    && a.WorkerStep? && a.workerMove.StorePayload?
    && a.w in s.workers && s.workers[a.w].Storing? && s.workers[a.w].payload.jobId == id
  }

  /** The listener is about to store its response: what it read under `id` is still there. */
  predicate Answers(s: State, a: Action, id: Bytes) {
    && a.ListenerStep? && s.boot == Up && s.listener.Replacing? && s.listener.r.jobId == id
    && (s.listener.current.None? || Get(s.db, id) == s.listener.current)
  }

  /** What the two kinds of records are to a reader of requests. */
  lemma RecordIsAnswerIff(p: Params, jobs: P.Jobs, id: Bytes, raw: Bytes)
    requires P.RecordOk(p, jobs, id, raw)
    ensures ParseRequest(raw).Failed? <==> P.IsJobResponse(p, jobs, id, raw)
  {
    hide ParseRequest, EncodeRequest, EncodeResponse, ParseResponse;
    if P.IsJobRequest(jobs, id, raw) {
      ReadBack(JobRequest(id, jobs[id]));
    }
    if P.IsJobResponse(p, jobs, id, raw) {
      FinishedResponseIsNoRequest(ParseResponse(raw).value);
    }
  }

  // ---------- Steps that leave a record alone ----------

  lemma SwapElsewhere(s: State, w: nat, id: Bytes32)
    requires w in s.workers && s.workers[w].Listing?
    ensures Get(SwappedJobList(s, w, s.workers[w]).db, id) == Get(s.db, id)
  {
  }

  lemma ReportElsewhere(s: State, w: nat, poolAccepts: bool)
    requires w in s.workers && s.workers[w].Reporting?
    ensures ReportedResult(s, w, s.workers[w], poolAccepts).db == s.db
  {
    hide ParseResponse;
  }

  lemma WorkerElsewhere(s: State, w: nat, move: WorkerMove, id: Bytes32)
    requires !Overwrites(s, WorkerStep(w, move), id)
    ensures Get(WorkerStepped(s, w, move).db, id) == Get(s.db, id)
  {
    hide SwappedJobList, ReportedResult, EncodeRequest, AfterJob;
    if w in s.workers {
      match move
      case SwapJobList => if s.workers[w].Listing? { SwapElsewhere(s, w, id); }
      case ReportResult(poolAccepts) => if s.workers[w].Reporting? { ReportElsewhere(s, w, poolAccepts); }
      case _ =>
    }
  }

  lemma MonitorElsewhere(s: State, move: MonitorMove, id: Bytes32)
    ensures Get(MonitorStepped(s, move).db, id) == Get(s.db, id)
  {
    hide ParseList, ExactRound;
  }

  lemma BootElsewhere(p: Params, s: State, id: Bytes32)
    ensures Get(Booted(p, s).db, id) == Get(s.db, id)
  {
  }

  lemma TaskElsewhere(p: Params, s: State, t: nat, move: TaskMove)
    ensures TaskStepped(p, s, t, move).db == s.db
  {
    hide ParseRequest;
  }

  // ---------- Steps that write one ----------

  lemma StoringUnanswers(s: State, w: nat)
    requires w in s.workers && s.workers[w].Storing?
    ensures !Answered(StoredPayload(s, w, s.workers[w]).db, s.workers[w].payload.jobId)
  {
    ReadBack(s.workers[w].payload);
    hide ParseRequest, EncodeRequest, AfterJob;
  }

  lemma OverwritingUnanswers(s: State, a: Action, id: Bytes32)
    requires Overwrites(s, a, id)
    ensures !Answered(WorkerStepped(s, a.w, a.workerMove).db, id)
  {
    StoringUnanswers(s, a.w);
    StoreIsStored(s, a.w);
    hide Answered, StoredPayload, WorkerStepped;
    assert a.workerMove == StorePayload;
  }

  lemma StoreIsStored(s: State, w: nat)
    requires w in s.workers && s.workers[w].Storing?
    ensures WorkerStepped(s, w, StorePayload) == StoredPayload(s, w, s.workers[w])
  {
    hide StoredPayload, HandledJob, SwappedJobList, LoadedResult, ReportedResult, Stops;
  }

  lemma ListenerAnswers(p: Params, s: State, id: Bytes32)
    ensures Answered(ListenerStepped(p, s).db, id) <==> Answers(s, ListenerStep, id) || Answered(s.db, id)
  {
    hide ParseRequest, EncodeResponse;
    if s.boot == Up && s.listener.Replacing? {
      FinishedResponseIsNoRequest(ResponseOf(p, s.listener.r));
    }
  }

  lemma AnsweredAfterStep(p: Params, s: State, a: Action, id: Bytes32)
    ensures Answered(Step(p, s, a).db, id)
            <==> Answers(s, a, id) || (Answered(s.db, id) && !Overwrites(s, a, id))
  {
    hide ParseRequest, WorkerStepped, MonitorStepped, ListenerStepped, TaskStepped, Booted;
    match a
    case WorkerStep(w, move) =>
      if Overwrites(s, a, id) {
        OverwritingUnanswers(s, a, id);
      } else {
        WorkerElsewhere(s, w, move, id);
      }
    case MonitorStep(move) => MonitorElsewhere(s, move, id);
    case TaskStep(t, move) => TaskElsewhere(p, s, t, move);
    case ListenerStep => ListenerAnswers(p, s, id);
    case BootStep => BootElsewhere(p, s, id);
    case _ =>
  }

  /**
   In every reachable state and for every step from it: afterwards a finished
   response to the job lies under its id exactly when the step is the
   listener's write and what it read there is still there, or one lay there
   before and the step is no worker's write of its request for that job.
   */
  lemma ResultReadableIff(p: Params, schedule: seq<Action>, a: Action, id: Bytes32)
    ensures var s := Exec(p, INITIAL, schedule);
            var s' := Step(p, s, a);
            id in s'.db && P.IsJobResponse(p, s'.chain.jobs, id, s'.db[id])
            <==> Answers(s, a, id)
                 || (id in s.db && P.IsJobResponse(p, s.chain.jobs, id, s.db[id]) && !Overwrites(s, a, id))
  {
    P.InitialOk(p);
    P.ExecKeeps(p, INITIAL, schedule);
    var s := Exec(p, INITIAL, schedule);
    P.StepKeeps(p, s, a);
    hide Exec, Step;
    AnsweredAfterStep(p, s, a, id);
    RecordKnown(p, s, id);
    RecordKnown(p, Step(p, s, a), id);
    hide P.Inv, Answers, Overwrites;
  }

  lemma RecordKnown(p: Params, s: State, id: Bytes32)
    requires P.Inv(p, s)
    ensures Answered(s.db, id) <==> id in s.db && P.IsJobResponse(p, s.chain.jobs, id, s.db[id])
  {
    hide WS.ChainOk, P.WorkersOk, P.MonitorOk, P.TasksOk, P.ChannelOk, P.ListenerOk, P.CallsOk, P.RecordOk, P.ListOk;
    if id in s.db {
      assert P.EntryOk(p, s.chain.jobs, id, s.db[id]);
      RecordIsAnswerIff(p, s.chain.jobs, id, s.db[id]);
    }
    hide P.Inv, ParseRequest, P.IsJobResponse;
  }

  // ---------- What a worker's two writes do to a result ----------

  /**
   A worker that takes both its steps leaves no result under the job's id, and
   lists the id again exactly when the list is still as the worker read it.
   */
  lemma RelistedIffListUnchanged(p: Params, schedule: seq<Action>, w: nat)
    ensures var s := Exec(p, INITIAL, schedule);
            w in s.workers && s.workers[w].Listing? && s.workers[w].payload.jobId == s.workers[w].job ==>
              var k := s.workers[w];
              var s' := Step(p, Step(p, s, WorkerStep(w, SwapJobList)), WorkerStep(w, StorePayload));
              && !Answered(s'.db, k.job)
              && D.Listed(s'.db) == D.Listed(s.db) + if Get(s.db, JOB_LIST_KEY) == Some(k.jobList) then [k.job] else []
  {
    P.InitialOk(p);
    P.ExecKeeps(p, INITIAL, schedule);
    D.ExecKeeps(p, INITIAL, schedule);
    var s := Exec(p, INITIAL, schedule);
    hide Exec, P.Inv, D.DrainInv, D.Listed;
    if w in s.workers && s.workers[w].Listing? && s.workers[w].payload.jobId == s.workers[w].job {
      SwapThenStore(p, s, w);
    }
  }

  lemma SwapThenStore(p: Params, s: State, w: nat)
    requires P.Inv(p, s) && D.DrainInv(s)
    requires w in s.workers && s.workers[w].Listing? && s.workers[w].payload.jobId == s.workers[w].job
    ensures var k := s.workers[w];
            var s' := Step(p, Step(p, s, WorkerStep(w, SwapJobList)), WorkerStep(w, StorePayload));
            && !Answered(s'.db, k.job)
            && D.Listed(s'.db) == D.Listed(s.db) + if Get(s.db, JOB_LIST_KEY) == Some(k.jobList) then [k.job] else []
  {
    var k, swap, store := s.workers[w], WorkerStep(w, SwapJobList), WorkerStep(w, StorePayload);
    var s1 := Step(p, s, swap);
    D.SwapLists(s, w);
    SwapThenStoring(p, s, w);
    P.StepKeeps(p, s, swap);
    hide P.Inv, D.DrainInv, Answered, Overwrites, SwappedJobList, Step;
    OverwritingUnanswers(s1, store, k.job);
    StoreLeavesList(p, s1, w);
  }

  lemma SwapThenStoring(p: Params, s: State, w: nat)
    requires w in s.workers && s.workers[w].Listing? && s.workers[w].payload.jobId == s.workers[w].job
    ensures var k, s1 := s.workers[w], Step(p, s, WorkerStep(w, SwapJobList));
            s1 == SwappedJobList(s, w, k) && Overwrites(s1, WorkerStep(w, StorePayload), k.job)
    ensures forall s1: State :: Step(p, s1, WorkerStep(w, StorePayload)) == WorkerStepped(s1, w, StorePayload)
  {
    hide CompareAndSet, HandledJob, StoredPayload, LoadedResult, ReportedResult;
  }

  lemma StoreLeavesList(p: Params, s: State, w: nat)
    requires P.Inv(p, s)
    ensures D.Listed(WorkerStepped(s, w, StorePayload).db) == D.Listed(s.db)
  {
    WorkerFrame(p, s, w, StorePayload);
    var db := WorkerStepped(s, w, StorePayload).db;
    assert Get(db, JOB_LIST_KEY) == Get(s.db, JOB_LIST_KEY);
    hide P.Inv, WorkerStepped, ParseList;
  }
}
