/**
 The result list. The listener is its only writer, so its compare-and-set never
 fails and the list names every result it has handled, in the order received.
 */
module ResultLog {
  import opened Bytes
  import opened Payloads
  import opened KeyLists
  import opened Pipeline
  import opened ListFrames
  import P = Provenance

  /** The ids in the list: all of `handled`, less the one whose append is pending. */
  function Logged(l: Listener, handled: seq<Bytes>): seq<Bytes> {
    if l.Waiting? || handled == [] then handled else handled[..|handled| - 1]
  }

  ghost predicate LogOk(boot: Boot, list: Option<Bytes>, l: Listener, handled: seq<Bytes>) {
    && (boot != Up ==> l == Waiting)
    && (boot == SetIdentity || boot == Up ==>
          && AllIds(handled)
          && list == Some(ListOf(Logged(l, handled)))
          && (!l.Waiting? ==> handled != [] && l.r.jobId == handled[|handled| - 1])
          && (l.Extending? || l.Appending? ==> l.newList == ListOf(handled))
          && (l.Appending? ==> l.current == list))
  }

  /** The ids of the results received since the list was last emptied. */
  function SinceBoot(past: History): seq<Bytes>
    requires past.resultsFrom <= |past.handled|
  {
    past.handled[past.resultsFrom..]
  }

  ghost predicate LogInv(s: State) {
    && s.past.resultsFrom <= |s.past.handled|
    && LogOk(s.boot, Get(s.db, RESULT_LIST_KEY), s.listener, SinceBoot(s.past))
  }

  lemma SameKeeps(s: State, s': State)
    requires LogInv(s) && ResultSideSame(s, s')
    ensures LogInv(s')
  {
    hide ListOf;
  }

  lemma MonitorFrame(s: State, move: MonitorMove)
    ensures ResultSideSame(s, MonitorStepped(s, move))
  {
    hide ParseList, ExactRound;
  }

  lemma OtherKeeps(p: Params, s: State, a: Action)
    requires P.Inv(p, s) && LogInv(s) && !a.Restart? && !a.BootStep? && !a.ListenerStep?
    ensures LogInv(Step(p, s, a))
  {
    hide P.Inv, LogInv, JobSideSame, WorkerStepped, MonitorStepped, TaskStepped;
    match a {
      case WorkerStep(w, move) => WorkerFrame(p, s, w, move);
      case MonitorStep(move) => MonitorFrame(s, move);
      case _ => QuietFrame(p, s, a);
    }
    SameKeeps(s, Step(p, s, a));
  }

  // ---------- The listener ----------

  lemma ChannelIds(p: Params, s: State)
    requires P.Inv(p, s) && s.channel != []
    ensures |s.channel[0].jobId| == 32
  {
    hide P.StoreOk, P.WorkersOk, P.TasksOk, P.ListenerOk, P.CallsOk;
    assert P.ResultOk(p, s.chain.jobs, s.channel[0]);
  }

  lemma ReceiveKeeps(p: Params, s: State)
    requires P.Inv(p, s) && LogInv(s) && s.boot == Up && s.listener.Waiting?
    ensures LogInv(ListenerStepped(p, s))
  {
    hide P.Inv, ListOf;
    if s.channel != [] {
      ChannelIds(p, s);
      var id, ids := s.channel[0].jobId, SinceBoot(s.past);
      assert SinceBoot(s.past.(handled := s.past.handled + [id])) == ids + [id];
      assert (ids + [id])[..|ids|] == ids;
    }
  }

  lemma ReplaceKeeps(p: Params, s: State)
    requires LogInv(s) && s.boot == Up && s.listener.Replacing?
    ensures LogInv(ListenerStepped(p, s))
  {
    var r := s.listener.r;
    assert |r.jobId| == 32;
    hide EncodeResponse, ListOf;
  }

  lemma ExtendKeeps(p: Params, s: State)
    requires LogInv(s) && s.boot == Up && s.listener.Stored?
    ensures LogInv(ListenerStepped(p, s))
  {
    var handled := SinceBoot(s.past);
    ListOfAppend(handled[..|handled| - 1], s.listener.r.jobId);
    assert handled == handled[..|handled| - 1] + [s.listener.r.jobId];
    hide ListOf;
  }

  lemma ReadKeeps(p: Params, s: State)
    requires LogInv(s) && s.boot == Up
    requires s.listener.Received? || s.listener.Extending? || s.listener.Appending?
    ensures LogInv(ListenerStepped(p, s))
  {
    hide ListOf;
  }

  lemma ListenerKeeps(p: Params, s: State)
    requires P.Inv(p, s) && LogInv(s)
    ensures LogInv(ListenerStepped(p, s))
  {
    hide P.Inv, LogInv, ListenerStepped;
    if s.boot == Up {
      match s.listener
      case Waiting => ReceiveKeeps(p, s);
      case Replacing(_, _) => ReplaceKeeps(p, s);
      case Stored(_) => ExtendKeeps(p, s);
      case _ => ReadKeeps(p, s);
    } else {
      OffKeeps(p, s);
    }
  }

  lemma OffKeeps(p: Params, s: State)
    requires LogInv(s) && s.boot != Up
    ensures LogInv(ListenerStepped(p, s))
  {
  }

  lemma BootKeeps(p: Params, s: State)
    requires LogInv(s)
    ensures LogInv(Booted(p, s))
  {
    assert ListOf([]) == INIT;
    hide ListOf;
  }

  // ---------- Every schedule ----------

  lemma StepKeeps(p: Params, s: State, a: Action)
    requires P.Inv(p, s) && LogInv(s)
    ensures LogInv(Step(p, s, a))
  {
    hide P.Inv, LogInv, ListenerStepped, Booted, WorkerStepped, MonitorStepped, TaskStepped;
    match a
    case Restart => RestartKeeps(s);
    case BootStep => BootKeeps(p, s);
    case ListenerStep => ListenerKeeps(p, s);
    case _ => OtherKeeps(p, s, a);
  }

  lemma RestartKeeps(s: State)
    requires LogInv(s)
    ensures LogInv(Restarted(s))
  {
  }

  lemma {:induction false} ExecKeeps(p: Params, s: State, schedule: seq<Action>)
    requires P.Inv(p, s) && LogInv(s)
    ensures LogInv(Exec(p, s, schedule))
    decreases |schedule|
  {
    hide P.Inv, LogInv, Step;
    if schedule == [] {
    } else {
      P.StepKeeps(p, s, schedule[0]);
      StepKeeps(p, s, schedule[0]);
      ExecKeeps(p, Step(p, s, schedule[0]), schedule[1..]);
    }
  }

  /** Once booted, the list is "init" and the ids received since, in order, the one with its append pending excepted. */
  lemma ResultListIsReceiveOrder(p: Params, schedule: seq<Action>)
    ensures var s := Exec(p, INITIAL, schedule);
            s.boot == Up ==>
              && RESULT_LIST_KEY in s.db && |s.db[RESULT_LIST_KEY]| >= 4
              && s.db[RESULT_LIST_KEY][..4] == INIT
              && s.past.resultsFrom <= |s.past.handled|
              && ParseList(s.db[RESULT_LIST_KEY]) == Logged(s.listener, s.past.handled[s.past.resultsFrom..])
  {
    P.InitialOk(p);
    ExecKeeps(p, INITIAL, schedule);
    var s := Exec(p, INITIAL, schedule);
    if s.boot == Up {
      ParseListOf(Logged(s.listener, SinceBoot(s.past)));
    }
  }

  /** The list names every result received since genesis exactly when no boot came after the first one received. */
  lemma ListIsWholeLogIff(p: Params, schedule: seq<Action>)
    ensures var s := Exec(p, INITIAL, schedule);
            s.boot == Up ==>
              && RESULT_LIST_KEY in s.db && |s.db[RESULT_LIST_KEY]| >= 4
              && (ParseList(s.db[RESULT_LIST_KEY]) == Logged(s.listener, s.past.handled) <==> s.past.resultsFrom == 0)
  {
    ResultListIsReceiveOrder(p, schedule);
    P.InitialOk(p);
    ExecKeeps(p, INITIAL, schedule);
    var s := Exec(p, INITIAL, schedule);
    hide Exec, P.Inv, ListOf, ParseList;
    if s.boot == Up {
      assert |Logged(s.listener, SinceBoot(s.past))| + s.past.resultsFrom == |Logged(s.listener, s.past.handled)|;
    }
  }

  /** The listener's last write never meets a changed list: it stores what it computed, the log with the new id. */
  lemma AppendNeverFails(p: Params, schedule: seq<Action>)
    ensures var s := Exec(p, INITIAL, schedule);
            s.boot == Up && s.listener.Appending? ==>
              && s.listener.current.Some? && Get(s.db, RESULT_LIST_KEY) == s.listener.current
              && s.past.resultsFrom <= |s.past.handled|
              && Get(ListenerStepped(p, s).db, RESULT_LIST_KEY)
                 == Some(ListOf(s.past.handled[s.past.resultsFrom..]))
  {
    P.InitialOk(p);
    ExecKeeps(p, INITIAL, schedule);
  }
}
