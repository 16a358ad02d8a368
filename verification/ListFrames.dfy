/** What the steps of workers, tasks and the chain leave alone: the result list, and mostly the job list. */
module ListFrames {
  import opened Bytes
  import opened Payloads
  import opened Pipeline
  import P = Provenance
  import WS = WasmStore

  ghost predicate ResultSideSame(s: State, s': State) {
    && s'.boot == s.boot && s'.listener == s.listener
    && s'.past.handled == s.past.handled && s'.past.resultsFrom == s.past.resultsFrom
    && Get(s'.db, RESULT_LIST_KEY) == Get(s.db, RESULT_LIST_KEY)
  }

  ghost predicate JobSideSame(s: State, s': State) {
    && s'.boot == s.boot && s'.monitor == s.monitor
    && Get(s'.db, JOB_LIST_KEY) == Get(s.db, JOB_LIST_KEY)
    && s'.past.appended == s.past.appended && s'.past.cleared == s.past.cleared
    && s'.past.drained == s.past.drained && s'.past.dropped == s.past.dropped
    && s'.past.dispatched == s.past.dispatched && s'.past.started == s.past.started
    && s'.past.roundsExact == s.past.roundsExact && s'.past.bootsExact == s.past.bootsExact
  }

  ghost predicate BothSame(s: State, s': State) {
    ResultSideSame(s, s') && JobSideSame(s, s')
  }

  lemma StoreFrame(p: Params, s: State, w: nat)
    requires P.Inv(p, s) && w in s.workers && s.workers[w].Storing?
    ensures BothSame(s, StoredPayload(s, w, s.workers[w]))
  {
    PayloadKey(p, s, w);
    hide P.Inv, EncodeRequest, AfterJob;
    assert |JOB_LIST_KEY| == 23 && |RESULT_LIST_KEY| == 21;
  }

  lemma PayloadKey(p: Params, s: State, w: nat)
    requires P.Inv(p, s) && w in s.workers && s.workers[w].Storing?
    ensures |s.workers[w].payload.jobId| in {0, 32}
  {
    hide P.Inv, P.ListOk;
    P.WorkerKnown(p, s, w);
  }

  lemma ReportFrame(s: State, w: nat, k: Worker, poolAccepts: bool)
    requires k.Reporting?
    ensures BothSame(s, ReportedResult(s, w, k, poolAccepts))
  {
    hide ParseResponse;
  }

  lemma HandleFrame(s: State, w: nat, k: Worker, job: Bytes32, poolAccepts: bool)
    requires k.HasBothLists? && job in k.snapshot.jobs && Stops(k.snapshot.jobs[job].state)
    ensures BothSame(s, HandledJob(s, w, k, job, poolAccepts))
  {
    hide AfterJob;
  }

  lemma LoadFrame(s: State, w: nat, k: Worker)
    requires k.Collecting?
    ensures BothSame(s, LoadedResult(s, w, k))
  {
  }

  lemma SwapFrame(s: State, w: nat, k: Worker)
    requires k.Listing?
    ensures ResultSideSame(s, SwappedJobList(s, w, k))
  {
  }

  /** Workers write their payload and the job list, never the result list. */
  lemma WorkerFrame(p: Params, s: State, w: nat, move: WorkerMove)
    requires P.Inv(p, s)
    ensures ResultSideSame(s, WorkerStepped(s, w, move))
    ensures !move.SwapJobList? ==> JobSideSame(s, WorkerStepped(s, w, move))
  {
    hide P.Inv, HandledJob, SwappedJobList, StoredPayload, LoadedResult, ReportedResult;
    if w in s.workers {
      var k := s.workers[w];
      match move
      case HandleJob(job, poolAccepts) =>
        if k.HasBothLists? && job in k.snapshot.jobs && Stops(k.snapshot.jobs[job].state) {
          HandleFrame(s, w, k, job, poolAccepts);
        }
      case SwapJobList => if k.Listing? { SwapFrame(s, w, k); }
      case StorePayload => if k.Storing? { StoreFrame(p, s, w); }
      case LoadResult => if k.Collecting? { LoadFrame(s, w, k); }
      case ReportResult(poolAccepts) => if k.Reporting? { ReportFrame(s, w, k, poolAccepts); }
      case _ =>
    }
  }

  lemma QuietFrame(p: Params, s: State, a: Action)
    requires a.ChainStep? || a.TaskStep?
    ensures BothSame(s, Step(p, s, a))
  {
    hide ParseRequest, WS.Advance;
  }
}
