/**
 How ids get from the workers' appends to the monitor and through its hands.
 The job list always holds the ids appended since it was last emptied. Whether
 each id is looked up exactly once depends on each round clearing just what it
 has read, on each boot finding no list or an empty one, and on the node not
 dying between the clearing of an id and its lookup.
 */
module JobDrain {
  import opened Bytes
  import opened Payloads
  import opened KeyLists
  import opened Pipeline
  import opened ListFrames
  import P = Provenance

  /** The ids that are in the list. */
  function Waiting(past: History): seq<Bytes>
    requires past.cleared <= |past.appended|
  {
    past.appended[past.cleared..]
  }

  /** An open round has read the first of the ids that are waiting now. */
  ghost predicate MonitorView(past: History, m: Monitor)
    requires past.cleared <= |past.appended|
  {
    match m
    case Rereading(seen, ids) => seen == ListOf(ids) && ids <= Waiting(past)
    case Clearing(seen, ids, current) => seen == ListOf(ids) && ids <= Waiting(past) && current.Some?
    case _ => true
  }

  ghost predicate NothingInvented(past: History) {
    forall k :: 0 <= k < |past.drained| ==> past.drained[k] in past.appended
  }

  /** Exact rounds and boots drain what they clear; exact rounds never make up for what a boot has wiped. */
  ghost predicate Balanced(past: History)
    requires past.cleared <= |past.appended|
  {
    && (past.roundsExact && past.bootsExact ==> past.drained == past.appended[..past.cleared])
    && (past.roundsExact && !past.bootsExact ==> |past.drained| < past.cleared)
  }

  /** Where the drained ids are: looked up, in the monitor's hands, or dropped when the node died. */
  ghost predicate Handed(past: History, m: Monitor) {
    && multiset(past.drained) == multiset(past.dispatched) + multiset(past.dropped) + multiset(Undispatched(m))
    && |past.drained| == |past.dispatched| + |past.dropped| + |Undispatched(m)|
    && (past.dropped == [] ==> past.drained == past.dispatched + Undispatched(m))
  }

  /** Which of the ids looked up have started a task. */
  ghost predicate Looked(past: History) {
    && multiset(past.started) <= multiset(past.dispatched)
    && |past.started| <= |past.dispatched|
    && (|past.started| == |past.dispatched| ==> past.started == past.dispatched)
  }

  ghost predicate DrainOk(boot: Boot, list: Option<Bytes>, m: Monitor, past: History) {
    && AllIds(past.appended) && past.cleared <= |past.appended|
    && (if list.None? then Waiting(past) == [] else list == Some(ListOf(Waiting(past))))
    && (boot != Up ==> m == Idle)
    && (boot != SetJobList ==> list.Some?)
    && NothingInvented(past)
    && Balanced(past)
    && MonitorView(past, m)
  }

  ghost predicate HandOk(m: Monitor, past: History) {
    Handed(past, m) && Looked(past)
  }

  ghost predicate DrainInv(s: State) {
    DrainOk(s.boot, Get(s.db, JOB_LIST_KEY), s.monitor, s.past) && HandOk(s.monitor, s.past)
  }

  lemma SameKeeps(s: State, s': State)
    requires DrainInv(s) && JobSideSame(s, s')
    ensures DrainInv(s')
  {
    hide ListOf;
  }

  // ---------- Workers ----------

  lemma AppendedKeeps(boot: Boot, list: Bytes, m: Monitor, past: History, id: Bytes32)
    requires DrainOk(boot, Some(list), m, past)
    ensures DrainOk(boot, Some(list + id), m, past.(appended := past.appended + [id]))
  {
    var past' := past.(appended := past.appended + [id]);
    ListOfAppend(Waiting(past), id);
    StillAppended(past, id);
    hide ListOf, NothingInvented;
    assert Waiting(past') == Waiting(past) + [id];
    assert past'.appended[..past.cleared] == past.appended[..past.cleared];
    assert Balanced(past');
    hide Balanced, Waiting;
  }

  lemma StillAppended(past: History, id: Bytes32)
    requires NothingInvented(past)
    ensures NothingInvented(past.(appended := past.appended + [id]))
  {
    forall k | 0 <= k < |past.drained| ensures past.drained[k] in past.appended + [id] {
      assert past.drained[k] in past.appended;
    }
  }

  lemma SwapKeeps(s: State, w: nat)
    requires DrainInv(s) && w in s.workers && s.workers[w].Listing?
    ensures DrainInv(SwappedJobList(s, w, s.workers[w]))
  {
    var k := s.workers[w];
    if JOB_LIST_KEY in s.db && s.db[JOB_LIST_KEY] == k.jobList {
      AppendedKeeps(s.boot, k.jobList, s.monitor, s.past, k.job);
      hide DrainOk;
    } else {
      hide DrainOk, HandOk;
    }
  }

  lemma WorkerKeeps(p: Params, s: State, w: nat, move: WorkerMove)
    requires P.Inv(p, s) && DrainInv(s)
    ensures DrainInv(WorkerStepped(s, w, move))
  {
    WorkerFrame(p, s, w, move);
    hide P.Inv, DrainInv, JobSideSame, ResultSideSame, SwappedJobList;
    if move.SwapJobList? {
      if w in s.workers && s.workers[w].Listing? {
        SwapKeeps(s, w);
      }
    } else {
      SameKeeps(s, WorkerStepped(s, w, move));
    }
  }

  // ---------- The monitor ----------

  lemma ReadKeeps(s: State)
    requires DrainInv(s) && s.boot == Up && s.monitor.Idle?
    ensures DrainInv(MonitorRead(s))
    ensures MonitorRead(s).monitor.Rereading? && MonitorRead(s).monitor.seen == s.db[JOB_LIST_KEY]
  {
    ParseListOf(Waiting(s.past));
    hide ListOf, ParseList, NothingInvented, Balanced, Looked;
  }

  lemma ClearKeeps(s: State)
    requires DrainInv(s) && s.boot == Up && s.monitor.Clearing?
    ensures DrainInv(MonitorClear(s))
  {
    ClearKeepsList(s);
    TakenInHand(s.past, s.monitor, s.monitor.ids);
    hide DrainOk, ExactRound, WriteBack;
  }

  lemma ClearKeepsList(s: State)
    requires DrainInv(s) && s.boot == Up && s.monitor.Clearing?
    ensures var s' := MonitorClear(s); DrainOk(s'.boot, Get(s'.db, JOB_LIST_KEY), s'.monitor, s'.past)
  {
    var past, past' := s.past, MonitorClear(s).past;
    ClearedWasAppended(past, s.monitor.ids);
    ExactRoundMeans(s);
    assert ListOf([]) == INIT;
    assert Waiting(past.(cleared := |past.appended|)) == [];
    assert past.appended[..past.cleared] + Waiting(past) == past.appended == past.appended[..|past.appended|];
    hide ListOf, ExactRound, NothingInvented, HandOk;
  }

  lemma TakenInHand(past: History, m: Monitor, ids: seq<Bytes>)
    requires Handed(past, m) && !m.Dispatching?
    ensures Handed(past.(drained := past.drained + ids), Dispatching(ids))
  {
  }

  lemma ClearedWasAppended(past: History, ids: seq<Bytes>)
    requires past.cleared <= |past.appended| && NothingInvented(past) && ids <= Waiting(past)
    ensures NothingInvented(past.(drained := past.drained + ids))
  {
    forall k | 0 <= k < |past.drained + ids| ensures (past.drained + ids)[k] in past.appended {
      if k >= |past.drained| {
        assert (past.drained + ids)[k] == past.appended[past.cleared + (k - |past.drained|)];
      }
    }
  }

  /** The exactness of a round, in terms of ids: all waiting ids were read, or none was and none is removed. */
  lemma ExactRoundMeans(s: State)
    requires DrainInv(s) && s.boot == Up && s.monitor.Clearing?
    ensures ExactRound(s.db, s.monitor.seen, s.monitor.current)
            <==> s.monitor.ids == if Get(s.db, JOB_LIST_KEY) == s.monitor.current then Waiting(s.past) else []
  {
    ListIs(s.monitor.ids, Waiting(s.past));
    ListIs(s.monitor.ids, []);
    assert ListOf([]) == INIT;
    hide ListOf, NothingInvented, Balanced, HandOk;
  }

  lemma ListIs(a: seq<Bytes>, b: seq<Bytes>)
    requires AllIds(a) && AllIds(b)
    ensures ListOf(a) == ListOf(b) <==> a == b
  {
    if ListOf(a) == ListOf(b) {
      ListOfInjective(a, b);
    }
  }

  // ---------- What is listed, and what is lost ----------

  /** The ids in the stored list; a store without the list holds none. */
  function Listed(db: Db): seq<Bytes> {
    if JOB_LIST_KEY in db && |db[JOB_LIST_KEY]| >= 4 then ParseList(db[JOB_LIST_KEY]) else []
  }

  /** Every id ever appended has been looked up once, is about to be, or is in the list, in this order. */
  predicate DispatchedOnce(s: State) {
    s.past.appended == s.past.dispatched + Undispatched(s.monitor) + Listed(s.db)
  }

  lemma ListedIsWaiting(s: State)
    requires DrainInv(s)
    ensures Listed(s.db) == Waiting(s.past)
    ensures s.past.appended == s.past.appended[..s.past.cleared] + Listed(s.db)
  {
    if JOB_LIST_KEY in s.db {
      ParseListOf(Waiting(s.past));
    }
    hide ListOf, ParseList;
  }

  /** A won swap lists the worker's job, a lost one nothing. */
  lemma SwapLists(s: State, w: nat)
    requires DrainInv(s) && w in s.workers && s.workers[w].Listing?
    ensures var k := s.workers[w];
            Listed(SwappedJobList(s, w, k).db)
            == Listed(s.db) + if Get(s.db, JOB_LIST_KEY) == Some(k.jobList) then [k.job] else []
  {
    SwapKeeps(s, w);
    ListedIsWaiting(s);
    ListedIsWaiting(SwappedJobList(s, w, s.workers[w]));
    hide DrainInv, Listed;
  }

  lemma ClearedOrNot(s: State)
    requires DrainInv(s) && s.monitor.Clearing?
    ensures var s' := MonitorClear(s);
            && s'.past.appended == s.past.appended && s'.past.dispatched == s.past.dispatched
            && Undispatched(s'.monitor) == s.monitor.ids
            && Waiting(s'.past) == if Get(s.db, JOB_LIST_KEY) == s.monitor.current then [] else Waiting(s.past)
  {
    hide ExactRound, WriteBack, ListOf, NothingInvented, Balanced, HandOk;
  }

  lemma ClearingIsExactIff(s: State)
    requires DrainInv(s) && s.boot == Up && s.monitor.Clearing? && DispatchedOnce(s)
    ensures DispatchedOnce(MonitorClear(s)) <==> ExactRound(s.db, s.monitor.seen, s.monitor.current)
  {
    ClearKeeps(s);
    ExactRoundMeans(s);
    ListedIsWaiting(s);
    ListedIsWaiting(MonitorClear(s));
    ClearedOrNot(s);
    hide DrainInv, MonitorClear, ExactRound, Listed, Waiting, Get;
    var done, waiting, ids := s.past.dispatched, Waiting(s.past), s.monitor.ids;
    NothingBetween(done, [], waiting);
    NothingBetween(done, ids, waiting);
    SamePrefix(done, ids, waiting);
    assert done + ids + [] == done + ids;
  }

  lemma EmptyingIsExactIff(p: Params, s: State)
    requires DrainInv(s) && s.boot == SetJobList && DispatchedOnce(s)
    ensures DispatchedOnce(Booted(p, s)) <==> ExactBoot(s.db)
  {
    var done, waiting := s.past.dispatched + Undispatched(s.monitor), Waiting(s.past);
    ListedIsWaiting(s);
    ListIs(waiting, []);
    assert ListOf([]) == INIT;
    ParseListOf([]);
    assert Listed(Booted(p, s).db) == [];
    hide ListOf, Listed;
    assert ExactBoot(s.db) <==> waiting == [];
    assert |done + waiting| == |done + []| <==> waiting == [];
  }

  lemma DyingIsExactIff(p: Params, s: State)
    requires DrainInv(s) && DispatchedOnce(s)
    ensures DispatchedOnce(Restarted(s)) <==> ExactRestart(s.monitor)
    ensures DispatchedOnce(Booted(p, Restarted(s))) <==> ExactRestart(s.monitor) && ExactBoot(s.db)
  {
    var done, todo, listed := s.past.dispatched, Undispatched(s.monitor), Listed(s.db);
    ListedIsWaiting(s);
    ListIs(Waiting(s.past), []);
    assert ListOf([]) == INIT;
    ParseListOf([]);
    assert Listed(Booted(p, Restarted(s)).db) == [];
    hide ListOf, Listed;
    assert ExactBoot(s.db) <==> listed == [];
    assert |done + todo + listed| == |done + [] + listed| <==> todo == [];
    assert |done + todo + listed| == |done + [] + []| <==> todo == [] && listed == [];
  }

  lemma NothingBetween(a: seq<Bytes>, b: seq<Bytes>, c: seq<Bytes>)
    ensures a + b + c == a + c <==> b == []
  {
    assert |a + b + c| == |a + c| + |b|;
    if b == [] {
      assert a + b == a;
    }
  }

  lemma SamePrefix(a: seq<Bytes>, b: seq<Bytes>, c: seq<Bytes>)
    ensures a + b == a + c <==> b == c
  {
    assert (a + b)[|a|..] == b && (a + c)[|a|..] == c;
  }

  /** An id that is looked up leaves the monitor's hands. */
  lemma DispatchKeeps(s: State, t: nat)
    requires DrainInv(s) && s.boot == Up && s.monitor.Dispatching?
    ensures DrainInv(MonitorDispatch(s, t))
  {
    DispatchHands(s, t);
    DispatchLeavesList(s, t);
    hide DrainOk, HandOk, MonitorDispatch;
  }

  lemma DispatchLeavesList(s: State, t: nat)
    requires DrainInv(s) && s.boot == Up && s.monitor.Dispatching?
    ensures var s' := MonitorDispatch(s, t);
            && s'.boot == s.boot && s'.db == s.db
            && DrainOk(s'.boot, Get(s'.db, JOB_LIST_KEY), s'.monitor, s'.past)
  {
    var s' := MonitorDispatch(s, t);
    SameList(Get(s.db, JOB_LIST_KEY), s.monitor, s.past, s'.monitor, s'.past);
    hide DrainOk, HandOk;
  }

  lemma SameList(list: Option<Bytes>, m: Monitor, past: History, m': Monitor, past': History)
    requires DrainOk(Up, list, m, past) && !m'.Rereading? && !m'.Clearing?
    requires past' == past.(dispatched := past'.dispatched, started := past'.started)
    ensures DrainOk(Up, list, m', past')
  {
    hide ListOf;
  }

  lemma DispatchHands(s: State, t: nat)
    requires s.monitor.Dispatching? && HandOk(s.monitor, s.past)
    ensures HandOk(MonitorDispatch(s, t).monitor, MonitorDispatch(s, t).past)
  {
    var todo, past := s.monitor.todo, s.past;
    if todo != [] && t !in s.tasks {
      HandOver(past, todo);
      LookupKeeps(past, todo[0]);
      hide Handed, Looked;
    }
  }

  lemma HandOver(past: History, todo: seq<Bytes>)
    requires todo != [] && Handed(past, Dispatching(todo))
    ensures var past' := past.(dispatched := past.dispatched + [todo[0]]);
            && Handed(past', Dispatching(todo[1..]))
            && Handed(past'.(started := past.started + [todo[0]]), Dispatching(todo[1..]))
  {
    assert todo == [todo[0]] + todo[1..];
    assert past.dispatched + todo == (past.dispatched + [todo[0]]) + todo[1..];
  }

  lemma LookupKeeps(past: History, id: Bytes)
    requires Looked(past)
    ensures Looked(past.(dispatched := past.dispatched + [id]))
    ensures Looked(past.(dispatched := past.dispatched + [id], started := past.started + [id]))
  {
  }

  lemma MonitorKeeps(s: State, move: MonitorMove)
    requires DrainInv(s)
    ensures DrainInv(MonitorStepped(s, move))
  {
    if s.boot == Up {
      match move
      case Read => if s.monitor.Idle? { ReadKeeps(s); }
      case Clear => if s.monitor.Clearing? { ClearKeeps(s); }
      case DispatchTo(t) => if s.monitor.Dispatching? { DispatchKeeps(s, t); }
      case Reread => hide ListOf, Looked, NothingInvented, Balanced;
    }
  }

  // ---------- Every schedule ----------

  lemma ListEmptied(p: Params, s: State)
    requires DrainInv(s) && s.boot == SetJobList
    ensures DrainInv(Booted(p, s))
  {
    var past := s.past;
    ListIs(Waiting(past), []);
    assert ListOf([]) == INIT;
    hide ListOf, NothingInvented, Looked;
    assert Waiting(Booted(p, s).past) == [];
    assert past.appended[..past.cleared] + Waiting(past) == past.appended == past.appended[..|past.appended|];
    assert Balanced(Booted(p, s).past);
  }

  lemma BootKeeps(p: Params, s: State)
    requires DrainInv(s)
    ensures DrainInv(Booted(p, s))
  {
    if s.boot == SetJobList {
      ListEmptied(p, s);
    } else {
      hide ListOf, NothingInvented, Balanced, HandOk;
    }
  }

  lemma ListenerIds(p: Params, s: State)
    requires P.Inv(p, s)
    ensures s.listener.Waiting? || |s.listener.r.jobId| == 32
  {
    hide P.ListOk;
    assert P.ListenerOk(p, s.chain.jobs, s.listener);
  }

  lemma ReplaceView(p: Params, s: State)
    requires s.listener.Replacing? && |s.listener.r.jobId| == 32
    ensures JobSideSame(s, ListenerStepped(p, s))
  {
    hide EncodeResponse, WriteBack;
    var r := s.listener.r;
    WriteBackElsewhere(s.db, r.jobId, s.listener.current, EncodeResponse(ResponseOf(p, r)));
  }

  lemma AppendView(p: Params, s: State)
    requires s.listener.Appending?
    ensures JobSideSame(s, ListenerStepped(p, s))
  {
    hide WriteBack;
    WriteBackElsewhere(s.db, RESULT_LIST_KEY, s.listener.current, s.listener.newList);
  }

  lemma ReadingView(p: Params, s: State)
    requires !s.listener.Replacing? && !s.listener.Appending?
    ensures JobSideSame(s, ListenerStepped(p, s))
  {
  }

  lemma ListenerView(p: Params, s: State)
    requires P.Inv(p, s)
    ensures JobSideSame(s, ListenerStepped(p, s))
  {
    ListenerIds(p, s);
    hide P.Inv, JobSideSame, ListenerStepped;
    if s.listener.Replacing? {
      ReplaceView(p, s);
    } else if s.listener.Appending? {
      AppendView(p, s);
    } else {
      ReadingView(p, s);
    }
  }

  lemma WriteBackElsewhere(db: Db, key: Bytes, current: Option<Bytes>, value: Bytes)
    requires |key| != 23
    ensures Get(WriteBack(db, key, current, value), JOB_LIST_KEY) == Get(db, JOB_LIST_KEY)
  {
  }

  lemma ListenerKeeps(p: Params, s: State)
    requires P.Inv(p, s) && DrainInv(s)
    ensures DrainInv(ListenerStepped(p, s))
  {
    hide DrainInv, JobSideSame;
    ListenerView(p, s);
    SameKeeps(s, ListenerStepped(p, s));
  }

  lemma StepKeeps(p: Params, s: State, a: Action)
    requires P.Inv(p, s) && DrainInv(s)
    ensures DrainInv(Step(p, s, a))
  {
    if a.Restart? || a.ChainStep? || a.TaskStep? {
      QuietKeeps(p, s, a);
    } else {
      hide P.Inv, DrainInv, Booted, WorkerStepped, MonitorStepped, ListenerStepped;
      match a
      case BootStep => BootKeeps(p, s);
      case WorkerStep(w, move) => WorkerKeeps(p, s, w, move);
      case MonitorStep(move) => MonitorKeeps(s, move);
      case ListenerStep => ListenerKeeps(p, s);
    }
  }

  lemma QuietKeeps(p: Params, s: State, a: Action)
    requires DrainInv(s) && (a.Restart? || a.ChainStep? || a.TaskStep?)
    ensures DrainInv(Step(p, s, a))
  {
    if !a.Restart? {
      QuietFrame(p, s, a);
      SameKeeps(s, Step(p, s, a));
    }
  }

  lemma {:induction false} ExecKeeps(p: Params, s: State, schedule: seq<Action>)
    requires P.Inv(p, s) && DrainInv(s)
    ensures DrainInv(Exec(p, s, schedule))
    decreases |schedule|
  {
    hide P.Inv, DrainInv, Step;
    if schedule == [] {
    } else {
      P.StepKeeps(p, s, schedule[0]);
      StepKeeps(p, s, schedule[0]);
      ExecKeeps(p, Step(p, s, schedule[0]), schedule[1..]);
    }
  }

  /** The list holds what was appended since it was last emptied, and every drained id was appended. */
  lemma JobListHoldsWaitingIds(p: Params, schedule: seq<Action>)
    ensures var s := Exec(p, INITIAL, schedule);
            && s.past.cleared <= |s.past.appended|
            && Listed(s.db) == s.past.appended[s.past.cleared..]
            && (s.boot != SetJobList ==> JOB_LIST_KEY in s.db && |s.db[JOB_LIST_KEY]| >= 4)
            && forall k :: 0 <= k < |s.past.drained| ==> s.past.drained[k] in s.past.appended
  {
    P.InitialOk(p);
    ExecKeeps(p, INITIAL, schedule);
    ListedIsWaiting(Exec(p, INITIAL, schedule));
    hide Exec, P.Inv, Listed;
  }

  /**
   In every reachable state, a round keeps each appended id looked up, in hand
   or listed, once and in order, exactly when the list was the same at both
   reads and at the clearing, or was empty at the first read and changed
   between the second read and the clearing.
   */
  lemma RoundIsExactIff(p: Params, schedule: seq<Action>)
    ensures var s := Exec(p, INITIAL, schedule);
            s.boot == Up && s.monitor.Clearing? && DispatchedOnce(s) ==>
              (DispatchedOnce(MonitorClear(s)) <==> ExactRound(s.db, s.monitor.seen, s.monitor.current))
  {
    P.InitialOk(p);
    ExecKeeps(p, INITIAL, schedule);
    var s := Exec(p, INITIAL, schedule);
    hide Exec, P.Inv, DrainInv, DispatchedOnce;
    if s.boot == Up && s.monitor.Clearing? && DispatchedOnce(s) {
      ClearingIsExactIff(s);
    }
  }

  /** In every reachable state, the first write of a boot does so exactly when there is no list, or an empty one. */
  lemma BootIsExactIff(p: Params, schedule: seq<Action>)
    ensures var s := Exec(p, INITIAL, schedule);
            s.boot == SetJobList && DispatchedOnce(s) ==> (DispatchedOnce(Booted(p, s)) <==> ExactBoot(s.db))
  {
    P.InitialOk(p);
    ExecKeeps(p, INITIAL, schedule);
    var s := Exec(p, INITIAL, schedule);
    hide Exec, P.Inv, DrainInv, DispatchedOnce;
    if s.boot == SetJobList && DispatchedOnce(s) {
      EmptyingIsExactIff(p, s);
    }
  }

  /**
   In every reachable state, the node's death does so exactly when the monitor
   holds no cleared id it has yet to look up, and death followed by the first
   write of the boot exactly when there is no list, or an empty one, besides.
   */
  lemma RestartIsExactIff(p: Params, schedule: seq<Action>)
    ensures var s := Exec(p, INITIAL, schedule);
            DispatchedOnce(s) ==>
              && (DispatchedOnce(Restarted(s)) <==> ExactRestart(s.monitor))
              && (DispatchedOnce(Booted(p, Restarted(s))) <==> ExactRestart(s.monitor) && ExactBoot(s.db))
  {
    P.InitialOk(p);
    ExecKeeps(p, INITIAL, schedule);
    var s := Exec(p, INITIAL, schedule);
    hide Exec, P.Inv, DrainInv, DispatchedOnce;
    if DispatchedOnce(s) {
      DyingIsExactIff(p, s);
    }
  }

  /**
   In every reachable state the drained ids are those looked up, those dropped
   when the node died and those in the monitor's hands. Those looked up have
   all started a task exactly when as many have.
   */
  lemma DrainedIdsAreHandedOn(p: Params, schedule: seq<Action>)
    ensures var s := Exec(p, INITIAL, schedule);
            && multiset(s.past.drained)
               == multiset(s.past.dispatched) + multiset(s.past.dropped) + multiset(Undispatched(s.monitor))
            && multiset(s.past.started) <= multiset(s.past.dispatched)
            && (|s.past.started| == |s.past.dispatched| ==> s.past.started == s.past.dispatched)
  {
    P.InitialOk(p);
    ExecKeeps(p, INITIAL, schedule);
    hide Exec, P.Inv;
  }

  /** All rounds, boots and restarts of the run lost nothing and repeated nothing. */
  predicate ExactRun(past: History) {
    past.roundsExact && past.bootsExact && past.dropped == []
  }

  lemma OnceIfExact(s: State)
    requires DrainInv(s)
    ensures ExactRun(s.past) ==> DispatchedOnce(s)
    ensures s.past.roundsExact && !ExactRun(s.past) ==> !DispatchedOnce(s)
  {
    ListedIsWaiting(s);
    hide Listed, NothingInvented, MonitorView, ListOf;
    var todo, listed := Undispatched(s.monitor), Listed(s.db);
    assert |s.past.dispatched + todo + listed| == |s.past.dispatched| + |todo| + |listed|;
  }

  /** While all rounds, boots and restarts are exact, no id is lost and none is looked up twice. */
  lemma ExactRunsDispatchOnce(p: Params, schedule: seq<Action>)
    ensures var s := Exec(p, INITIAL, schedule); ExactRun(s.past) ==> DispatchedOnce(s)
  {
    P.InitialOk(p);
    ExecKeeps(p, INITIAL, schedule);
    OnceIfExact(Exec(p, INITIAL, schedule));
  }

  // ---------- Reading and clearing in one step ----------

  /** A schedule in which nothing comes between the monitor's read, second read and clearing. */
  datatype Turn = Other(action: Action) | Drain

  predicate ReadsOrClears(a: Action) {
    a.MonitorStep? && !a.monitorMove.DispatchTo?
  }

  function Actions(turn: Turn): seq<Action> {
    match turn
    case Other(a) => if ReadsOrClears(a) then [] else [a]
    case Drain => [MonitorStep(Read), MonitorStep(Reread), MonitorStep(Clear)]
  }

  function Expand(turns: seq<Turn>): seq<Action>
    decreases |turns|
  {
    if turns == [] then [] else Actions(turns[0]) + Expand(turns[1..])
  }

  ghost predicate BetweenRounds(s: State) {
    s.past.roundsExact && !s.monitor.Rereading? && !s.monitor.Clearing?
  }

  lemma OtherStaysBetween(p: Params, s: State, a: Action)
    requires BetweenRounds(s) && !ReadsOrClears(a)
    ensures BetweenRounds(Step(p, s, a))
  {
    hide ParseResponse, ParseRequest, EncodeResponse, ParseList, AfterJob;
  }

  lemma DrainStaysBetween(p: Params, s: State)
    requires P.Inv(p, s) && DrainInv(s) && BetweenRounds(s)
    ensures BetweenRounds(Exec(p, s, Actions(Drain)))
  {
    var s1 := Step(p, s, MonitorStep(Read));
    var s2 := Step(p, s1, MonitorStep(Reread));
    var s3 := Step(p, s2, MonitorStep(Clear));
    assert Exec(p, s, Actions(Drain)) == s3 by {
      ThreeSteps(p, s, MonitorStep(Read), MonitorStep(Reread), MonitorStep(Clear));
    }
    if s.boot == Up && s.monitor.Idle? {
      ReadKeeps(s);
    }
  }

  lemma ThreeSteps(p: Params, s: State, a: Action, b: Action, c: Action)
    ensures Exec(p, s, [a, b, c]) == Step(p, Step(p, Step(p, s, a), b), c)
  {
    hide Step;
    assert [a, b, c][1..] == [b, c] && [b, c][1..] == [c] && [c][1..] == [];
    assert Exec(p, s, [a, b, c]) == Exec(p, Step(p, s, a), [b, c]);
    assert Exec(p, Step(p, s, a), [b, c]) == Exec(p, Step(p, Step(p, s, a), b), [c]);
  }

  lemma TurnKeeps(p: Params, s: State, turn: Turn)
    requires P.Inv(p, s) && DrainInv(s) && BetweenRounds(s)
    ensures var s' := Exec(p, s, Actions(turn)); P.Inv(p, s') && DrainInv(s') && BetweenRounds(s')
  {
    P.ExecKeeps(p, s, Actions(turn));
    ExecKeeps(p, s, Actions(turn));
    match turn
    case Drain => DrainStaysBetween(p, s);
    case Other(a) =>
      if !ReadsOrClears(a) {
        OtherStaysBetween(p, s, a);
        hide Step;
        assert [a][1..] == [];
        assert Exec(p, s, [a]) == Exec(p, Step(p, s, a), []);
      }
  }

  lemma {:induction false} TurnsKeep(p: Params, s: State, turns: seq<Turn>)
    requires P.Inv(p, s) && DrainInv(s) && BetweenRounds(s)
    ensures var s' := Exec(p, s, Expand(turns)); DrainInv(s') && BetweenRounds(s')
    decreases |turns|
  {
    hide P.Inv, DrainInv, BetweenRounds, Actions;
    if turns == [] {
    } else {
      ExecConcat(p, s, Actions(turns[0]), Expand(turns[1..]));
      TurnKeeps(p, s, turns[0]);
      TurnsKeep(p, Exec(p, s, Actions(turns[0])), turns[1..]);
    }
  }

  /**
   With reading and clearing in one step, a schedule looks each appended id up
   exactly once, in order, if and only if no boot wiped a listed id and no
   restart dropped a cleared one.
   */
  lemma OneStepClearingDispatchesOnce(p: Params, turns: seq<Turn>)
    ensures var s := Exec(p, INITIAL, Expand(turns));
            DispatchedOnce(s) <==> s.past.bootsExact && s.past.dropped == []
  {
    P.InitialOk(p);
    TurnsKeep(p, INITIAL, turns);
    OnceIfExact(Exec(p, INITIAL, Expand(turns)));
  }

  // ---------- Before the first restart ----------

  predicate NoRestart(schedule: seq<Action>) {
    forall k :: 0 <= k < |schedule| ==> !schedule[k].Restart?
  }

  ghost predicate FirstRun(s: State) {
    s.past.bootsExact && s.past.dropped == [] && (s.boot == SetJobList ==> JOB_LIST_KEY !in s.db)
  }

  lemma SwapStays(s: State, w: nat)
    requires FirstRun(s) && w in s.workers && s.workers[w].Listing?
    ensures FirstRun(SwappedJobList(s, w, s.workers[w]))
  {
  }

  lemma WorkerStays(p: Params, s: State, w: nat, move: WorkerMove)
    requires P.Inv(p, s) && FirstRun(s)
    ensures FirstRun(WorkerStepped(s, w, move))
  {
    WorkerFrame(p, s, w, move);
    hide P.Inv, SwappedJobList, HandledJob, StoredPayload, LoadedResult, ReportedResult;
    if move.SwapJobList? {
      hide FirstRun, ResultSideSame, JobSideSame;
      if w in s.workers && s.workers[w].Listing? {
        SwapStays(s, w);
      }
    } else {
      hide WorkerStepped, ResultSideSame;
    }
  }

  lemma ListenerStays(p: Params, s: State)
    requires P.Inv(p, s) && FirstRun(s)
    ensures FirstRun(ListenerStepped(p, s))
  {
    ListenerView(p, s);
    hide P.Inv, ListenerStepped;
  }

  lemma NodeStays(p: Params, s: State, a: Action)
    requires FirstRun(s) && (a.MonitorStep? || a.BootStep?)
    ensures FirstRun(Step(p, s, a))
  {
    hide ParseList, WriteBack;
  }

  lemma FirstRunStays(p: Params, s: State, a: Action)
    requires P.Inv(p, s) && FirstRun(s) && !a.Restart?
    ensures FirstRun(Step(p, s, a))
  {
    hide P.Inv, WorkerStepped, ListenerStepped;
    if a.ChainStep? || a.TaskStep? {
      QuietFrame(p, s, a);
      hide Step;
    } else {
      hide FirstRun;
      match a
      case WorkerStep(w, move) => WorkerStays(p, s, w, move);
      case ListenerStep => ListenerStays(p, s);
      case _ => NodeStays(p, s, a);
    }
  }

  lemma {:induction false} FirstRunLasts(p: Params, s: State, schedule: seq<Action>)
    requires P.Inv(p, s) && FirstRun(s) && NoRestart(schedule)
    ensures FirstRun(Exec(p, s, schedule))
    decreases |schedule|
  {
    hide P.Inv, FirstRun, Step;
    if schedule == [] {
    } else {
      P.StepKeeps(p, s, schedule[0]);
      FirstRunStays(p, s, schedule[0]);
      FirstRunLasts(p, Step(p, s, schedule[0]), schedule[1..]);
    }
  }

  /** The boot that finds a fresh store is exact, so with one-step rounds only a restart loses ids. */
  lemma OneRunDispatchesOnce(p: Params, turns: seq<Turn>)
    requires NoRestart(Expand(turns))
    ensures DispatchedOnce(Exec(p, INITIAL, Expand(turns)))
  {
    P.InitialOk(p);
    FirstRunLasts(p, INITIAL, Expand(turns));
    OneStepClearingDispatchesOnce(p, turns);
  }
}
