/**
 How results get from off-chain storage to the chain: which ids a worker takes
 up once it has dealt with a job, what it submits for them, and a whole
 schedule at whose end an output is stored on chain.
 */
module ResultReports {
  import opened Bytes
  import opened Payloads
  import opened KeyLists
  import opened Pipeline
  import opened Races
  import Unicode
  import P = Provenance
  import WS = WasmStore

  // ---------- Which ids a worker takes up ----------

  /** The worker has ended over an empty list, or holds exactly the ids in the list, in order. */
  ghost predicate TakesUp(before: State, after: State, w: nat, block: nat, resultList: Bytes) {
    if resultList == INIT then after.workers == before.workers - {w}
    else
      exists ids :: AllIds(ids) && ids != [] && resultList == ListOf(ids)
                    && after.workers == before.workers[w := Collecting(block, ids)]
  }

  lemma AfterJobTakesUp(jobs: P.Jobs, s: State, w: nat, block: nat, resultList: Bytes)
    requires P.ListOk(jobs, resultList)
    ensures TakesUp(s, SetWorker(s, w, AfterJob(block, resultList)), w, block, resultList)
  {
    var ids := ParseList(resultList);
    assert AllIds(ids) by {
      forall k | 0 <= k < |ids| ensures |ids[k]| == 32 {
        assert P.IdKnown(jobs, ids[k]);
      }
    }
    assert ListOf([]) == INIT;
    hide ListOf, ParseList;
    if resultList != INIT {
      assert AfterJob(block, resultList) == Some(Collecting(block, ids));
    }
  }

  /**
   In every reachable state a worker that stops at a finished job, and one that
   has stored its request for a pending one, goes on to report exactly the ids
   that its result list names, in order, or ends if the list is just "init".
   */
  lemma WorkerTakesUpListedIds(p: Params, schedule: seq<Action>, w: nat, job: Bytes32, poolAccepts: bool)
    ensures var s := Exec(p, INITIAL, schedule);
            w in s.workers ==>
              var k := s.workers[w];
              && (k.HasBothLists? && job in k.snapshot.jobs && k.snapshot.jobs[job].state == Finish ==>
                    var s' := Step(p, s, WorkerStep(w, HandleJob(job, poolAccepts)));
                    TakesUp(s, s', w, k.snapshot.block, k.resultList))
              && (k.Storing? ==> TakesUp(s, Step(p, s, WorkerStep(w, StorePayload)), w, k.block, k.resultList))
  {
    P.InitialOk(p);
    P.ExecKeeps(p, INITIAL, schedule);
    var s := Exec(p, INITIAL, schedule);
    if w in s.workers {
      hide Exec;
      P.WorkerKnown(p, s, w);
      hide P.Inv, P.ListOk, TakesUp, Step;
      var k := s.workers[w];
      if k.HasBothLists? && job in k.snapshot.jobs && k.snapshot.jobs[job].state == Finish {
        FinishStep(p, s, w, job, poolAccepts);
        AfterJobTakesUp(s.chain.jobs, s, w, k.snapshot.block, k.resultList);
      } else if k.Storing? {
        WorkerStores(p, s, w);
        AfterStoring(s, w, k);
        AfterJobTakesUp(s.chain.jobs, s, w, k.block, k.resultList);
      }
    }
  }

  lemma FinishStep(p: Params, s: State, w: nat, job: Bytes32, poolAccepts: bool)
    requires w in s.workers && s.workers[w].HasBothLists? && job in s.workers[w].snapshot.jobs
    requires s.workers[w].snapshot.jobs[job].state == Finish
    ensures var k := s.workers[w];
            Step(p, s, WorkerStep(w, HandleJob(job, poolAccepts)))
            == SetWorker(s, w, AfterJob(k.snapshot.block, k.resultList))
  {
    hide AfterJob;
  }

  lemma AfterStoring(s: State, w: nat, k: Worker)
    requires k.Storing?
    ensures StoredPayload(s, w, k).workers == SetWorker(s, w, AfterJob(k.block, k.resultList)).workers
  {
    hide AfterJob, EncodeRequest;
  }

  // ---------- What it submits for them ----------

  /** One call for each id whose record decodes as a response, with the fields of that record, in order. */
  function CallsFor(db: Db, block: nat, ids: seq<Bytes>): seq<WS.Call> {
    if ids == [] then []
    else
      (match Get(db, ids[0])
       case None => []
       case Some(raw) =>
         match ParseResponse(raw)
         case Failed => []
         case Parsed(r, _) => [WS.SubmitResult(block, r.jobId, r.result, r.address, r.exeTime)])
      + CallsFor(db, block, ids[1..])
  }

  /** The steps of a worker that reports `n` ids. */
  function ReportSteps(w: nat, n: nat): seq<Action> {
    if n == 0 then [WorkerStep(w, LoadResult)]
    else [WorkerStep(w, LoadResult), WorkerStep(w, ReportResult(true))] + ReportSteps(w, n - 1)
  }

  /** One id: its record is loaded and reported if it decodes, and passed over if not. */
  lemma ReportOne(p: Params, s: State, w: nat, block: nat, ids: seq<Bytes>)
    requires w in s.workers && s.workers[w] == Collecting(block, ids) && ids != []
    ensures var s1 := Step(p, Step(p, s, WorkerStep(w, LoadResult)), WorkerStep(w, ReportResult(true)));
            s1 == s.(workers := s.workers[w := Collecting(block, ids[1..])],
                     past := s.past.(submitted := s.past.submitted + CallsFor(s.db, block, [ids[0]])))
  {
    hide ParseResponse, HandledJob, SwappedJobList, StoredPayload;
    var one := [ids[0]];
    assert one[1..] == [] && CallsFor(s.db, block, []) == [];
    assert s.past.submitted + [] == s.past.submitted;
    var loaded := Step(p, s, WorkerStep(w, LoadResult));
    var done := s.workers[w := Collecting(block, ids[1..])];
    if ids[0] in s.db {
      assert loaded.workers == s.workers[w := Reporting(block, ids[0], s.db[ids[0]], ids[1..])];
      assert loaded.workers[w := Collecting(block, ids[1..])] == done;
    }
  }

  lemma EndsAfterLast(p: Params, s: State, w: nat, block: nat)
    requires w in s.workers && s.workers[w] == Collecting(block, [])
    ensures Step(p, s, WorkerStep(w, LoadResult)) == s.(workers := s.workers - {w})
  {
    hide HandledJob, SwappedJobList, StoredPayload, ReportedResult;
  }

  /**
   Run alone with a pool that accepts, a worker submits exactly one call for
   each id it holds whose record decodes as a response, in order and with that
   record's id, result, address and time, and ends with nothing else changed.
   */
  lemma {:induction false} WorkerReportsAll(p: Params, s: State, w: nat, block: nat, ids: seq<Bytes>)
    requires w in s.workers && s.workers[w] == Collecting(block, ids)
    ensures Exec(p, s, ReportSteps(w, |ids|))
            == s.(workers := s.workers - {w},
                  past := s.past.(submitted := s.past.submitted + CallsFor(s.db, block, ids)))
    decreases |ids|
  {
    hide Step, CallsFor;
    if ids == [] {
      NoCalls(s.db, block);
      EndsAfterLast(p, s, w, block);
      ExecOne(p, s, WorkerStep(w, LoadResult));
      assert s.past.submitted + [] == s.past.submitted;
    } else {
      var load, report := WorkerStep(w, LoadResult), WorkerStep(w, ReportResult(true));
      var s1 := Step(p, Step(p, s, load), report);
      ReportOne(p, s, w, block, ids);
      WorkerReportsAll(p, s1, w, block, ids[1..]);
      ExecConcat(p, s, [load, report], ReportSteps(w, |ids| - 1));
      ExecTwo(p, s, load, report);
      CallsForFirst(s.db, block, ids);
      assert s1.workers - {w} == s.workers - {w};
    }
  }

  lemma NoCalls(db: Db, block: nat)
    ensures CallsFor(db, block, []) == []
  {
  }

  lemma CallsForFirst(db: Db, block: nat, ids: seq<Bytes>)
    requires ids != []
    ensures CallsFor(db, block, ids) == CallsFor(db, block, [ids[0]]) + CallsFor(db, block, ids[1..])
  {
    hide ParseResponse;
    var one := [ids[0]];
    assert one[1..] == [];
  }

  /** A refused submission makes the run panic: it submits nothing more and drops the ids it still holds. */
  lemma RefusalEndsReports(p: Params, s: State, w: nat, block: nat, ids: seq<Bytes>)
    requires w in s.workers && s.workers[w] == Collecting(block, ids) && ids != []
    requires ids[0] in s.db && ParseResponse(s.db[ids[0]]).Parsed?
    ensures Exec(p, s, [WorkerStep(w, LoadResult), WorkerStep(w, ReportResult(false))])
            == s.(workers := s.workers - {w})
  {
    ExecTwo(p, s, WorkerStep(w, LoadResult), WorkerStep(w, ReportResult(false)));
    hide Exec, ParseResponse, HandledJob, SwappedJobList, StoredPayload;
    var loaded := Step(p, s, WorkerStep(w, LoadResult));
    assert loaded.workers - {w} == s.workers - {w};
  }

  // ---------- A worker with nothing to do ----------

  /** A worker that finds no pending and no finished job reads both lists and ends, and changes nothing. */
  lemma IdleWorkerEnds(p: Params, s: State, w: nat) returns (schedule: seq<Action>)
    requires JOB_LIST_KEY in s.db && RESULT_LIST_KEY in s.db && w !in s.workers
    requires forall j :: j in s.chain.jobs ==> s.chain.jobs[j].state != Pending && s.chain.jobs[j].state != Finish
    ensures Exec(p, s, schedule) == s
  {
    hide Exec;
    var cur;
    schedule := WorkerReads(p, s, w);
    schedule, cur := Then(p, s, schedule, WorkerStep(w, NothingToDo));
    assert cur.workers == s.workers;
  }

  /** A run that misses one of the two lists panics at once and leaves nothing. */
  lemma MissingListEndsRun(p: Params, s: State, w: nat)
    requires w in s.workers
    ensures s.workers[w].Started? && JOB_LIST_KEY !in s.db ==>
              Step(p, s, WorkerStep(w, ReadJobList)) == s.(workers := s.workers - {w})
    ensures s.workers[w].HasJobList? && RESULT_LIST_KEY !in s.db ==>
              Step(p, s, WorkerStep(w, ReadResultList)) == s.(workers := s.workers - {w})
  {
    hide HandledJob, SwappedJobList, StoredPayload, LoadedResult, ReportedResult;
  }

  // ---------- From an upload to a result on chain ----------

  /** A worker that has read the lists before anyone listed the job lists it and stores its request. */
  lemma WorkerFinishesPost(p: Params, s: State, w: nat, job: Bytes32) returns (schedule: seq<Action>)
    requires w in s.workers && s.workers[w].HasBothLists? && s.workers[w].resultList == INIT
    requires job in s.workers[w].snapshot.jobs && s.workers[w].snapshot.jobs[job].state == Pending
    requires JOB_LIST_KEY in s.db && s.db[JOB_LIST_KEY] == s.workers[w].jobList
    ensures var k, s' := s.workers[w], Exec(p, s, schedule);
            && s'.db == s.db[JOB_LIST_KEY := k.jobList + job]
                            [job := EncodeRequest(JobRequest(job, k.snapshot.jobs[job]))]
            && s'.past.submitted == s.past.submitted + [WS.ChangeJobState(k.snapshot.block, job)]
            && s' == s.(db := s'.db, workers := s.workers - {w}, past := s'.past)
  {
    hide Exec, EncodeRequest, Step;
    var cur;
    WorkerWrites(p, s, w, s.workers[w], job, true);
    StartHere(p, s);
    schedule, cur := Then(p, s, [], WorkerStep(w, HandleJob(job, true)));
    schedule, cur := Then(p, s, schedule, WorkerStep(w, SwapJobList));
    WorkerStores(p, cur, w);
    schedule, cur := Then(p, s, schedule, WorkerStep(w, StorePayload));
    assert cur.workers == s.workers - {w};
  }

  /** The chain includes a call that a worker has submitted. */
  lemma Includes(p: Params, s: State, call: WS.Call) returns (schedule: seq<Action>)
    requires call in s.past.submitted
    ensures Exec(p, s, schedule) == s.(chain := WS.Dispatch(p.pallet, s.chain, WS.Unsigned, call).0)
  {
    hide Exec, WS.Dispatch;
    var cur;
    StartHere(p, s);
    schedule, cur := Then(p, s, [], ChainStep(WS.Include(WS.Unsigned, call)));
  }

  /** The job waits for the node's executor, and two workers have asked for its state to change. */
  ghost predicate Asked(p: Params, s: State, job: Bytes32, u: Upload)
    requires |Unicode.EncodeUtf8(WS.PrefixedName(u.typ, u.name))| < 0x1_0000_0000
  {
    && OneWaits(s, job, JobRequest(job, JobOf(u))) && s.workers == map[] && s.db[RESULT_LIST_KEY] == INIT
    && s.chain.jobs == map[job := JobOf(u)]
    && |s.past.submitted| == 2
    && forall k :: 0 <= k < 2 ==> s.past.submitted[k].ChangeJobState? && s.past.submitted[k].job == job
  }

  lemma TwoWorkersAsk(p: Params, u: Upload) returns (schedule: seq<Action>)
    requires Accepted(p, u)
    ensures Asked(p, Exec(p, INITIAL, schedule), WS.JobKey(p.pallet, JobOf(u)), u)
  {
    hide Exec, WS.JobKey, EncodeRequest, JobOf, WS.PrefixedName, ListOf;
    var job := WS.JobKey(p.pallet, JobOf(u));
    assert JobOf(u).state == Pending by { JobOfFields(u); }
    var a := BootsWithJob(p, u);
    var s0 := Exec(p, INITIAL, a);
    var b := WorkerReads(p, s0, 0);
    var s1 := Exec(p, s0, b);
    StartHere(p, s1);
    var c, s2 := Then(p, s1, [], ChainStep(WS.NextBlock));
    var d := WorkerReads(p, s2, 1);
    var s3 := Exec(p, s2, d);
    var e := WorkerFinishesPost(p, s3, 0, job);
    var s4 := Exec(p, s3, e);
    ListedAlone(job);
    assert |INIT + job| == |INIT| + 32;
    assert |job| != |JOB_LIST_KEY| && |job| != |RESULT_LIST_KEY| && |JOB_LIST_KEY| != |RESULT_LIST_KEY|;
    var f := WorkerOverwrites(p, s4, 1, job);
    Joined(p, INITIAL, a, b, c, d, e);
    ExecConcat(p, INITIAL, a + b + c + d + e, f);
    schedule := a + b + c + d + e + f;
    var s5 := Exec(p, s4, f);
    assert s5.workers == map[];
  }

  /** The job is finished on chain, and its response is stored and listed. */
  ghost predicate Finished(p: Params, s: State, job: Bytes32, out: Blob, time: U32) {
    && s.workers == map[] && JOB_LIST_KEY in s.db
    && RESULT_LIST_KEY in s.db && s.db[RESULT_LIST_KEY] == ListOf([job])
    && job in s.db && s.db[job] == EncodeResponse(Response(job, out, Finish, p.Processor(), time))
    && job in s.chain.jobs && s.chain.jobs[job].state == Finish
  }

  lemma NodeFinishes(p: Params, s: State, job: Bytes32, u: Upload, out: Blob, time: U32)
    returns (schedule: seq<Action>)
    requires Accepted(p, u) && Asked(p, s, job, u) && p.runs(u.code, u.abi, out)
    ensures Finished(p, Exec(p, s, schedule), job, out, time)
  {
    hide Exec, EncodeRequest, EncodeResponse, StoredResult, JobOf, WS.PrefixedName, ListOf;
    JobOfFields(u);
    var a := NodeRuns(p, s, job, JobRequest(job, JobOf(u)), out, time);
    var s1 := Exec(p, s, a);
    AfterNode(p, s.db, s1.db, job, out, time);
    StoredIs(p, s.db, s1.db, job, out, time);
    var first, second := s1.past.submitted[0], s1.past.submitted[1];
    var b := Includes(p, s1, first);
    var s2 := Exec(p, s1, b);
    var c := Includes(p, s2, second);
    ExecConcat(p, s, a, b);
    ExecConcat(p, s, a + b, c);
    schedule := a + b + c;
  }

  lemma StoredIs(p: Params, before: Db, after: Db, job: Bytes32, out: Blob, time: U32)
    requires RESULT_LIST_KEY in before
    requires after == StoredResult(p, before[JOB_LIST_KEY := INIT], JobResult(job, out, time))
    ensures job in after && after[job] == EncodeResponse(Response(job, out, Finish, p.Processor(), time))
  {
    assert |job| != |RESULT_LIST_KEY|;
    hide EncodeResponse;
  }

  lemma ResultIsSubmitted(p: Params, s: State, job: Bytes32, out: Blob, time: U32) returns (schedule: seq<Action>)
    requires Finished(p, s, job, out, time)
    ensures var s' := Exec(p, s, schedule);
            && s'.chain == s.chain
            && s'.past.submitted
               == s.past.submitted + [WS.SubmitResult(s.chain.block, job, out, p.Processor(), time)]
  {
    hide Exec, EncodeResponse, ListOf, ParseList, CallsFor;
    var cur;
    schedule := WorkerReads(p, s, 0);
    FinishStep(p, Exec(p, s, schedule), 0, job, true);
    schedule, cur := Then(p, s, schedule, WorkerStep(0, HandleJob(job, true)));
    OneListed(s.chain.block, job);
    assert cur.workers[0] == Collecting(s.chain.block, [job]);
    WorkerReportsAll(p, cur, 0, s.chain.block, [job]);
    OneCall(p, cur.db, s.chain.block, job, out, time);
    ExecConcat(p, s, schedule, ReportSteps(0, 1));
    schedule := schedule + ReportSteps(0, 1);
  }

  lemma OneListed(block: nat, job: Bytes32)
    ensures AfterJob(block, ListOf([job])) == Some(Collecting(block, [job]))
  {
    assert AllIds([job]);
    ParseListOf([job]);
    ListedAlone(job);
    assert |INIT + job| == |INIT| + 32;
    hide ListOf, ParseList;
  }

  lemma OneCall(p: Params, db: Db, block: nat, job: Bytes32, out: Blob, time: U32)
    requires job in db && db[job] == EncodeResponse(Response(job, out, Finish, p.Processor(), time))
    ensures CallsFor(db, block, [job]) == [WS.SubmitResult(block, job, out, p.Processor(), time)]
  {
    var r := Response(job, out, Finish, p.Processor(), time);
    ResponseRoundTrip(r, []);
    assert EncodeResponse(r) + [] == EncodeResponse(r);
    hide EncodeResponse, ParseResponse;
    var one := [job];
    assert one[1..] == [] && CallsFor(db, block, one[1..]) == [];
  }

  /**
   The whole way, from genesis: a script is uploaded and requested, two workers
   ask for the job's two state changes and one of them lists it, the node runs
   it, a third worker submits the output, and the chain stores that very output
   under the job and this node's key.
   */
  lemma OutputReachesChain(p: Params, u: Upload, out: Blob, time: U32) returns (schedule: seq<Action>)
    requires Accepted(p, u) && p.runs(u.code, u.abi, out) && |out| <= p.pallet.maxResultSize
    ensures var s := Exec(p, INITIAL, schedule);
            var key := (WS.JobKey(p.pallet, JobOf(u)), p.Processor());
            key in s.chain.results && s.chain.results[key] == WS.ResultEntry(out, time)
  {
    hide Exec, WS.JobKey, JobOf, WS.PrefixedName, Asked, EncodeResponse, ListOf;
    var job := WS.JobKey(p.pallet, JobOf(u));
    var a := TwoWorkersAsk(p, u);
    var s1 := Exec(p, INITIAL, a);
    var b := NodeFinishes(p, s1, job, u, out, time);
    var s2 := Exec(p, s1, b);
    var c := ResultIsSubmitted(p, s2, job, out, time);
    var s3 := Exec(p, s2, c);
    var call := s3.past.submitted[|s2.past.submitted|];
    var d := Includes(p, s3, call);
    StartHere(p, Exec(p, s3, d));
    Joined(p, INITIAL, a, b, c, d, []);
    schedule := a + b + c + d + [];
    assert job[..32] == job;
  }
}
