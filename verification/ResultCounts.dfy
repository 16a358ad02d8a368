/**
 Where results come from: each one the listener receives for a job is the
 outcome of one task that was started for it, and of no other's.
 */
module ResultCounts {
  import opened Bytes
  import opened Payloads
  import opened KeyLists
  import opened Pipeline
  import opened ListFrames
  import JobDispatch
  import JobDrain
  import P = Provenance
  import WS = WasmStore

  predicate IsFor(t: Task, id: Bytes) {
    match t
    case Running(key, _) => key == id
    case Sending(r) => r.jobId == id
  }

  function TasksFor(tasks: map<nat, Task>, id: Bytes): set<nat> {
    set t | t in tasks && IsFor(tasks[t], id)
  }

  function InChannel(channel: seq<JobResult>, id: Bytes): nat {
    if channel == [] then 0 else (if channel[0].jobId == id then 1 else 0) + InChannel(channel[1..], id)
  }

  /** The tasks started for a job cover its results received, those under way and its running tasks. */
  ghost predicate CountInv(s: State, id: Bytes) {
    Times(s.past.handled, id) + InChannel(s.channel, id) + |TasksFor(s.tasks, id)| <= Times(s.past.started, id)
  }

  lemma {:induction false} InChannelAppend(channel: seq<JobResult>, r: JobResult, id: Bytes)
    ensures InChannel(channel + [r], id) == InChannel(channel, id) + if r.jobId == id then 1 else 0
  {
    if channel == [] {
      assert [r][1..] == [] && channel + [r] == [r];
    } else {
      assert (channel + [r])[1..] == channel[1..] + [r];
      InChannelAppend(channel[1..], r, id);
    }
  }

  // ---------- Tasks ----------

  lemma TaskAdded(tasks: map<nat, Task>, t: nat, k: Task, id: Bytes)
    requires t !in tasks
    ensures |TasksFor(tasks[t := k], id)| == |TasksFor(tasks, id)| + if IsFor(k, id) then 1 else 0
  {
    hide IsFor;
    assert TasksFor(tasks[t := k], id) == TasksFor(tasks, id) + if IsFor(k, id) then {t} else {};
  }

  lemma TaskEnded(tasks: map<nat, Task>, t: nat, id: Bytes)
    requires t in tasks
    ensures |TasksFor(tasks, id)| == |TasksFor(tasks - {t}, id)| + if IsFor(tasks[t], id) then 1 else 0
  {
    hide IsFor;
    assert TasksFor(tasks, id) == TasksFor(tasks - {t}, id) + if IsFor(tasks[t], id) then {t} else {};
  }

  lemma TaskAdvanced(tasks: map<nat, Task>, t: nat, k: Task, id: Bytes)
    requires t in tasks && (IsFor(k, id) <==> IsFor(tasks[t], id))
    ensures TasksFor(tasks[t := k], id) == TasksFor(tasks, id)
  {
  }

  /** What a task sends is about the job it was started for. */
  lemma TaskKeepsItsJob(p: Params, s: State, t: nat)
    requires P.Inv(p, s) && t in s.tasks && s.tasks[t].Running? && ParseRequest(s.tasks[t].raw).Parsed?
    ensures ParseRequest(s.tasks[t].raw).value.jobId == s.tasks[t].key
  {
    assert P.TaskOk(p, s.chain.jobs, s.tasks[t]);
    hide ParseRequest, P.Inv, P.RecordOk;
    P.TaskRunsItsJob(p, s.chain.jobs, s.tasks[t].key, s.tasks[t].raw);
  }

  /** A task that ran has ended or has an output to send. */
  lemma RunOutcome(p: Params, s: State, t: nat, out: Option<Blob>, extTime: U32)
    requires P.Inv(p, s) && t in s.tasks && s.tasks[t].Running?
    ensures var s' := TaskStepped(p, s, t, Run(out, extTime));
            && s' == s.(tasks := s'.tasks)
            && (s'.tasks == s.tasks - {t}
                || (out.Some? && s'.tasks == s.tasks[t := Sending(JobResult(s.tasks[t].key, out.value, extTime))]))
  {
    if ParseRequest(s.tasks[t].raw).Parsed? {
      TaskKeepsItsJob(p, s, t);
    }
    hide P.Inv, ParseRequest;
  }

  lemma RunKeeps(p: Params, s: State, t: nat, out: Option<Blob>, extTime: U32, id: Bytes)
    requires P.Inv(p, s) && CountInv(s, id) && t in s.tasks && s.tasks[t].Running?
    ensures CountInv(TaskStepped(p, s, t, Run(out, extTime)), id)
  {
    RunOutcome(p, s, t, out, extTime);
    TaskEnded(s.tasks, t, id);
    if out.Some? {
      TaskAdvanced(s.tasks, t, Sending(JobResult(s.tasks[t].key, out.value, extTime)), id);
    }
    hide P.Inv, TaskStepped, TasksFor, InChannel, Times;
  }

  lemma SendKeeps(p: Params, s: State, t: nat, id: Bytes)
    requires CountInv(s, id) && t in s.tasks && s.tasks[t].Sending?
    ensures CountInv(TaskStepped(p, s, t, Send), id)
  {
    TaskEnded(s.tasks, t, id);
    InChannelAppend(s.channel, s.tasks[t].result, id);
    hide TasksFor, InChannel, Times;
  }

  lemma TaskStepKeeps(p: Params, s: State, t: nat, move: TaskMove, id: Bytes)
    requires P.Inv(p, s) && CountInv(s, id)
    ensures CountInv(TaskStepped(p, s, t, move), id)
  {
    hide P.Inv, CountInv, ParseRequest;
    if t in s.tasks {
      if move.Run? && s.tasks[t].Running? {
        RunKeeps(p, s, t, move.out, move.extTime, id);
      } else if move.Send? && s.tasks[t].Sending? {
        SendKeeps(p, s, t, id);
      }
    }
  }

  // ---------- Monitor and listener ----------

  lemma DispatchKeeps(s: State, t: nat, id: Bytes)
    requires CountInv(s, id) && s.monitor.Dispatching?
    ensures CountInv(MonitorDispatch(s, t), id)
  {
    var todo := s.monitor.todo;
    if todo != [] && t !in s.tasks && todo[0] in s.db {
      TaskAdded(s.tasks, t, Running(todo[0], s.db[todo[0]]), id);
      TimesAppend(s.past.started, todo[0], id);
    }
    hide TasksFor, InChannel, Times;
  }

  lemma MonitorKeeps(s: State, move: MonitorMove, id: Bytes)
    requires CountInv(s, id)
    ensures CountInv(MonitorStepped(s, move), id)
  {
    hide MonitorDispatch, ParseList, WriteBack, ExactRound, TasksFor, InChannel, Times;
    if move.DispatchTo? && s.monitor.Dispatching? {
      DispatchKeeps(s, move.t, id);
    }
  }

  lemma ListenerTakesOne(p: Params, s: State)
    ensures var s' := ListenerStepped(p, s);
            && s'.tasks == s.tasks && s'.past.started == s.past.started
            && ((s'.channel == s.channel && s'.past.handled == s.past.handled)
                || (s.channel != [] && s'.channel == s.channel[1..]
                    && s'.past.handled == s.past.handled + [s.channel[0].jobId]))
  {
    hide WriteBack, EncodeResponse;
  }

  lemma ListenerKeeps(p: Params, s: State, id: Bytes)
    requires CountInv(s, id)
    ensures CountInv(ListenerStepped(p, s), id)
  {
    ListenerTakesOne(p, s);
    hide ListenerStepped, TasksFor, Times;
    if s.channel != [] {
      TimesAppend(s.past.handled, s.channel[0].jobId, id);
    }
  }

  // ---------- Every schedule ----------

  lemma WorkerKeeps(p: Params, s: State, w: nat, move: WorkerMove, id: Bytes)
    requires P.Inv(p, s) && CountInv(s, id)
    ensures CountInv(WorkerStepped(s, w, move), id)
  {
    JobDispatch.WorkerLooksUpNothing(p, s, w, move);
    WorkerFrame(p, s, w, move);
    WorkerSendsNothing(s, w, move);
    hide P.Inv, WorkerStepped, TasksFor, InChannel, Times;
  }

  lemma WorkerSendsNothing(s: State, w: nat, move: WorkerMove)
    ensures WorkerStepped(s, w, move).tasks == s.tasks && WorkerStepped(s, w, move).channel == s.channel
  {
    hide ParseResponse, EncodeRequest, AfterJob, CompareAndSet;
  }

  lemma BootKeeps(p: Params, s: State, id: Bytes)
    requires CountInv(s, id)
    ensures CountInv(Booted(p, s), id) && CountInv(Restarted(s), id)
  {
    assert TasksFor(map[], id) == {};
    hide Times;
  }

  lemma StepKeeps(p: Params, s: State, a: Action, id: Bytes)
    requires P.Inv(p, s) && CountInv(s, id)
    ensures CountInv(Step(p, s, a), id)
  {
    hide P.Inv, TasksFor, InChannel, Times;
    hide WorkerStepped, MonitorStepped, ListenerStepped, TaskStepped, Booted, Restarted;
    if a.ChainStep? {
      hide WS.Advance;
    } else {
      hide CountInv;
      match a
      case WorkerStep(w, move) => WorkerKeeps(p, s, w, move, id);
      case MonitorStep(move) => MonitorKeeps(s, move, id);
      case ListenerStep => ListenerKeeps(p, s, id);
      case TaskStep(t, move) => TaskStepKeeps(p, s, t, move, id);
      case _ => BootKeeps(p, s, id);
    }
  }

  lemma {:induction false} ExecKeeps(p: Params, s: State, schedule: seq<Action>, id: Bytes)
    requires P.Inv(p, s) && CountInv(s, id)
    ensures CountInv(Exec(p, s, schedule), id)
    decreases |schedule|
  {
    hide P.Inv, CountInv, Step;
    if schedule == [] {
    } else {
      P.StepKeeps(p, s, schedule[0]);
      StepKeeps(p, s, schedule[0], id);
      ExecKeeps(p, Step(p, s, schedule[0]), schedule[1..], id);
    }
  }

  /**
   In every schedule the results received for a job, those in the channel and
   the tasks still at work on it are together no more than the tasks that were
   started for it, and so no more than the lookups of its id.
   */
  lemma ResultsComeFromTasks(p: Params, schedule: seq<Action>, id: Bytes)
    ensures var s := Exec(p, INITIAL, schedule);
            && Times(s.past.handled, id) + InChannel(s.channel, id) + |TasksFor(s.tasks, id)|
               <= Times(s.past.started, id)
            && Times(s.past.started, id) <= Times(s.past.dispatched, id)
  {
    P.InitialOk(p);
    assert TasksFor(map[], id) == {};
    ExecKeeps(p, INITIAL, schedule, id);
    JobDrain.DrainedIdsAreHandedOn(p, schedule);
    hide Exec, P.Inv, InChannel, TasksFor;
  }

  // ---------- What becomes of a task ----------

  /**
   In every reachable state, a task that has run holds the result to send if
   its record was its job's request and what it returned is an output of the
   code and ABI on chain, and has ended otherwise; nothing else changes.
   */
  lemma TaskOutcome(p: Params, schedule: seq<Action>, t: nat, out: Option<Blob>, time: U32)
    ensures var s := Exec(p, INITIAL, schedule);
            t in s.tasks && s.tasks[t].Running? ==>
              var (key, raw, jobs) := (s.tasks[t].key, s.tasks[t].raw, s.chain.jobs);
              Step(p, s, TaskStep(t, Run(out, time)))
              == s.(tasks := if P.IsJobRequest(jobs, key, raw) && out.Some? && P.OutputOf(p, jobs, key, out.value)
                             then s.tasks[t := Sending(JobResult(key, out.value, time))] else s.tasks - {t})
  {
    P.InitialOk(p);
    P.ExecKeeps(p, INITIAL, schedule);
    var s := Exec(p, INITIAL, schedule);
    hide Exec;
    if t in s.tasks && s.tasks[t].Running? {
      RunStep(p, s, t, out, time);
    }
    hide P.Inv, Step, P.IsJobRequest, P.OutputOf;
  }

  lemma RunStep(p: Params, s: State, t: nat, out: Option<Blob>, time: U32)
    requires P.Inv(p, s) && t in s.tasks && s.tasks[t].Running?
    ensures var (key, raw, jobs) := (s.tasks[t].key, s.tasks[t].raw, s.chain.jobs);
            Step(p, s, TaskStep(t, Run(out, time)))
            == s.(tasks := if P.IsJobRequest(jobs, key, raw) && out.Some? && P.OutputOf(p, jobs, key, out.value)
                           then s.tasks[t := Sending(JobResult(key, out.value, time))] else s.tasks - {t})
  {
    assert P.TaskOk(p, s.chain.jobs, s.tasks[t]);
    RequestIffParsed(p, s.chain.jobs, s.tasks[t].key, s.tasks[t].raw);
    RunUnfolds(p, s, t, out, time);
    hide P.Inv, P.RecordOk, P.IsJobRequest, ParseRequest, Step;
  }

  lemma RunUnfolds(p: Params, s: State, t: nat, out: Option<Blob>, time: U32)
    requires t in s.tasks && s.tasks[t].Running?
    ensures var r := ParseRequest(s.tasks[t].raw);
            Step(p, s, TaskStep(t, Run(out, time)))
            == s.(tasks := if r.Parsed? && out.Some? && p.runs(r.value.content, r.value.abi, out.value)
                           then s.tasks[t := Sending(JobResult(r.value.jobId, out.value, time))] else s.tasks - {t})
  {
    hide ParseRequest;
  }

  lemma RequestIffParsed(p: Params, jobs: P.Jobs, key: Bytes, raw: Bytes)
    requires P.RecordOk(p, jobs, key, raw)
    ensures P.IdKnown(jobs, key)
    ensures P.IsJobRequest(jobs, key, raw) <==> ParseRequest(raw).Parsed?
    ensures ParseRequest(raw).Parsed? ==> ParseRequest(raw).value == JobRequest(key, jobs[key])
  {
    hide ParseRequest, EncodeRequest, EncodeResponse, ParseResponse;
    if ParseRequest(raw).Parsed? {
      P.TaskRunsItsJob(p, jobs, key, raw);
    }
    if P.IsJobRequest(jobs, key, raw) {
      ReadBack(JobRequest(key, jobs[key]));
    } else {
      FinishedResponseIsNoRequest(ParseResponse(raw).value);
    }
  }

  /** A task sends when the channel holds fewer than its 20 results; until then it waits. */
  lemma SendOutcome(p: Params, s: State, t: nat)
    requires t in s.tasks && s.tasks[t].Sending?
    ensures Step(p, s, TaskStep(t, Send))
            == if |s.channel| < 20 then s.(channel := s.channel + [s.tasks[t].result], tasks := s.tasks - {t}) else s
  {
  }

  lemma ChannelStays(p: Params, s: State, a: Action)
    requires |s.channel| <= 20
    ensures |Step(p, s, a).channel| <= 20
  {
    hide WS.Advance, MonitorStepped, WorkerStepped, ListenerStepped, TaskStepped, Booted;
    match a
    case WorkerStep(w, move) => WorkerSendsNothing(s, w, move);
    case ListenerStep => ListenerTakesOne(p, s);
    case MonitorStep(move) => MonitorSendsNothing(s, move);
    case TaskStep(t, move) => TaskSendsOne(p, s, t, move);
    case BootStep => BootSendsNothing(p, s);
    case _ =>
  }

  lemma MonitorSendsNothing(s: State, move: MonitorMove)
    ensures MonitorStepped(s, move).channel == s.channel
  {
    hide ParseList, WriteBack, ExactRound;
  }

  lemma TaskSendsOne(p: Params, s: State, t: nat, move: TaskMove)
    requires |s.channel| <= 20
    ensures |TaskStepped(p, s, t, move).channel| <= 20
  {
    hide ParseRequest;
  }

  lemma BootSendsNothing(p: Params, s: State)
    ensures Booted(p, s).channel == s.channel
  {
  }

  lemma {:induction false} ExecBounded(p: Params, s: State, schedule: seq<Action>)
    requires |s.channel| <= 20
    ensures |Exec(p, s, schedule).channel| <= 20
    decreases |schedule|
  {
    hide Step;
    if schedule == [] {
    } else {
      ChannelStays(p, s, schedule[0]);
      ExecBounded(p, Step(p, s, schedule[0]), schedule[1..]);
    }
  }

  /** In every schedule the channel holds at most 20 results. */
  lemma ChannelIsBounded(p: Params, schedule: seq<Action>)
    ensures |Exec(p, INITIAL, schedule).channel| <= 20
  {
    ExecBounded(p, INITIAL, schedule);
  }
}
