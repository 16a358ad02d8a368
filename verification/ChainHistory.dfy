/**
 What is on the chain, in terms of the calls that were accepted and their order:
 nothing is stored that no call brought, later calls replace what earlier ones
 brought, and a job's state counts the state changes delivered to it.
 */
module ChainHistory {
  import opened Bytes
  import opened Unicode
  import opened Payloads
  import opened ScriptKeys
  import opened WasmStore

  // ---------- The calls that account for what is stored ----------

  /** The chain just before the `i`-th event of a run from genesis. */
  function At(c: Config, events: seq<Event>, i: nat): Chain
    requires i <= |events|
  {
    Run(c, GENESIS, events[..i])
  }

  /** The `i`-th event is a call that succeeds. */
  predicate Accepted(c: Config, events: seq<Event>, i: nat)
    requires i < |events|
  {
    && events[i].Include?
    && Dispatch(c, At(c, events, i), events[i].origin, events[i].call).1.Done?
  }

  predicate IsUpload(e: Event, name: Blob) {
    && e.Include? && e.call.UploadWasm?
    && EncodeUtf8(PrefixedName(e.call.typ, e.call.name)) == name
  }

  predicate IsRequest(e: Event, caller: Bytes32, name: Blob) {
    && e.Include? && e.origin == Signed(caller) && e.call.RequestExecution?
    && EncodeUtf8(e.call.scriptName) == name
  }

  predicate IsSubmission(e: Event, job: Bytes32, processor: Bytes32) {
    && e.Include? && e.call.SubmitResult?
    && |e.call.key| >= 32 && e.call.key[..32] == job && e.call.processor == processor
  }

  /** Of the first `n` events, the `i`-th is the last accepted upload under the name, of this code and ABI. */
  ghost predicate LastUpload(
    c: Config, events: seq<Event>, n: nat, i: nat, name: Blob, code: Blob, abi: Blob)
    requires n <= |events|
  {
    && i < n && Accepted(c, events, i) && IsUpload(events[i], name)
    && events[i].call.code == code && events[i].call.abi == abi
    && forall m :: i < m < n && IsUpload(events[m], name) ==> !Accepted(c, events, m)
  }

  ghost predicate UploadedLast(c: Config, events: seq<Event>, n: nat, name: Blob, code: Blob, abi: Blob)
    requires n <= |events|
  {
    exists i :: LastUpload(c, events, n, i, name, code, abi)
  }

  /** The `j`-th event is an accepted request for the job: its code and ABI were then the last under its name. */
  ghost predicate RequestedAt(c: Config, events: seq<Event>, j: nat, job: Job) {
    && j < |events| && Accepted(c, events, j) && IsRequest(events[j], job.caller, job.scriptName)
    && UploadedLast(c, events, j, job.scriptName, job.code, job.abi)
  }

  ghost predicate WasRequested(c: Config, events: seq<Event>, job: Job) {
    exists j :: RequestedAt(c, events, j, job)
  }

  /** The `i`-th event is the last accepted submission for the job and processor; it came when the job was finished. */
  ghost predicate SubmittedAt(
    c: Config, events: seq<Event>, i: nat, job: Bytes32, processor: Bytes32, entry: ResultEntry)
  {
    && i < |events| && Accepted(c, events, i) && IsSubmission(events[i], job, processor)
    && events[i].call.value == entry.data && events[i].call.extTime == entry.extTime
    && job in At(c, events, i).jobs && At(c, events, i).jobs[job].state == Finish
    && forall m :: i < m < |events| && IsSubmission(events[m], job, processor) ==> !Accepted(c, events, m)
  }

  ghost predicate WasSubmitted(
    c: Config, events: seq<Event>, job: Bytes32, processor: Bytes32, entry: ResultEntry)
  {
    exists i :: SubmittedAt(c, events, i, job, processor, entry)
  }

  ghost predicate ScriptsFrom(c: Config, events: seq<Event>, scripts: map<Bytes, Script>) {
    forall k :: k in scripts ==>
      UploadedLast(c, events, |events|, scripts[k].name, scripts[k].code, scripts[k].abi)
  }

  ghost predicate JobsFrom(c: Config, events: seq<Event>, jobs: map<Bytes32, Job>) {
    forall k :: k in jobs ==> WasRequested(c, events, jobs[k])
  }

  ghost predicate ResultsFrom(c: Config, events: seq<Event>, results: map<(Bytes32, Bytes32), ResultEntry>) {
    forall k :: k in results ==> WasSubmitted(c, events, k.0, k.1, results[k])
  }

  ghost predicate Accounted(c: Config, events: seq<Event>, ch: Chain) {
    ScriptsFrom(c, events, ch.scripts) && JobsFrom(c, events, ch.jobs) && ResultsFrom(c, events, ch.results)
  }

  // ---------- One more event ----------

  lemma EarlierSame(c: Config, events: seq<Event>, e: Event, i: nat)
    requires i <= |events|
    ensures At(c, events + [e], i) == At(c, events, i)
    ensures i < |events| ==> (Accepted(c, events + [e], i) <==> Accepted(c, events, i))
  {
    assert (events + [e])[..i] == events[..i];
    hide Run, Dispatch;
  }

  /** Whether the event itself is accepted depends on the chain after all earlier ones. */
  lemma LastSame(c: Config, events: seq<Event>, e: Event)
    ensures At(c, events + [e], |events|) == Run(c, GENESIS, events)
    ensures Accepted(c, events + [e], |events|)
            <==> e.Include? && Dispatch(c, Run(c, GENESIS, events), e.origin, e.call).1.Done?
  {
    assert (events + [e])[..|events|] == events;
    hide Run, Dispatch;
  }

  /** What was uploaded last before an earlier point stays so. */
  lemma UploadStays(c: Config, events: seq<Event>, e: Event, n: nat, name: Blob, code: Blob, abi: Blob)
    requires n <= |events| && UploadedLast(c, events, n, name, code, abi)
    ensures UploadedLast(c, events + [e], n, name, code, abi)
  {
    var i: nat :| LastUpload(c, events, n, i, name, code, abi);
    var more := events + [e];
    hide IsUpload, Accepted, At;
    EarlierSame(c, events, e, i);
    forall m | i < m < n && IsUpload(more[m], name) ensures !Accepted(c, more, m) {
      EarlierSame(c, events, e, m);
      assert more[m] == events[m];
    }
    assert LastUpload(c, more, n, i, name, code, abi);
  }

  /** And up to the present, unless the new event replaces it. */
  lemma UploadLasts(c: Config, events: seq<Event>, e: Event, name: Blob, code: Blob, abi: Blob)
    requires UploadedLast(c, events, |events|, name, code, abi)
    requires IsUpload(e, name) ==> !Accepted(c, events + [e], |events|)
    ensures UploadedLast(c, events + [e], |events| + 1, name, code, abi)
  {
    UploadStays(c, events, e, |events|, name, code, abi);
    var more, n := events + [e], |events|;
    var i: nat :| LastUpload(c, more, n, i, name, code, abi);
    hide IsUpload, Accepted;
    assert LastUpload(c, more, n + 1, i, name, code, abi);
  }

  lemma RequestStays(c: Config, events: seq<Event>, e: Event, job: Job)
    requires WasRequested(c, events, job)
    ensures WasRequested(c, events + [e], job)
  {
    var j: nat :| RequestedAt(c, events, j, job);
    hide Accepted, UploadedLast, IsRequest;
    EarlierSame(c, events, e, j);
    UploadStays(c, events, e, j, job.scriptName, job.code, job.abi);
    assert RequestedAt(c, events + [e], j, job);
  }

  lemma SubmissionLasts(
    c: Config, events: seq<Event>, e: Event, job: Bytes32, processor: Bytes32, entry: ResultEntry)
    requires WasSubmitted(c, events, job, processor, entry)
    requires IsSubmission(e, job, processor) ==> !Accepted(c, events + [e], |events|)
    ensures WasSubmitted(c, events + [e], job, processor, entry)
  {
    var i: nat :| SubmittedAt(c, events, i, job, processor, entry);
    var more := events + [e];
    hide IsSubmission, Accepted, At;
    EarlierSame(c, events, e, i);
    forall m | i < m < |more| && IsSubmission(more[m], job, processor) ensures !Accepted(c, more, m) {
      if m < |events| {
        EarlierSame(c, events, e, m);
        assert more[m] == events[m];
      }
    }
    assert SubmittedAt(c, more, i, job, processor, entry);
  }

  // ---------- Each kind of event ----------

  lemma ScriptsStay(c: Config, events: seq<Event>, e: Event, scripts: map<Bytes, Script>)
    requires ScriptsFrom(c, events, scripts)
    requires forall k :: k in scripts && IsUpload(e, scripts[k].name) ==> !Accepted(c, events + [e], |events|)
    ensures ScriptsFrom(c, events + [e], scripts)
  {
    hide UploadedLast, Accepted, IsUpload;
    forall k | k in scripts
      ensures UploadedLast(c, events + [e], |events| + 1, scripts[k].name, scripts[k].code, scripts[k].abi)
    {
      UploadLasts(c, events, e, scripts[k].name, scripts[k].code, scripts[k].abi);
    }
  }

  lemma JobsStay(c: Config, events: seq<Event>, e: Event, jobs: map<Bytes32, Job>)
    requires JobsFrom(c, events, jobs)
    ensures JobsFrom(c, events + [e], jobs)
  {
    hide WasRequested;
    forall k | k in jobs ensures WasRequested(c, events + [e], jobs[k]) {
      RequestStays(c, events, e, jobs[k]);
    }
  }

  lemma ResultsStay(c: Config, events: seq<Event>, e: Event, results: map<(Bytes32, Bytes32), ResultEntry>)
    requires ResultsFrom(c, events, results)
    requires forall k :: k in results && IsSubmission(e, k.0, k.1) ==> !Accepted(c, events + [e], |events|)
    ensures ResultsFrom(c, events + [e], results)
  {
    hide WasSubmitted, Accepted, IsSubmission;
    forall k | k in results ensures WasSubmitted(c, events + [e], k.0, k.1, results[k]) {
      SubmissionLasts(c, events, e, k.0, k.1, results[k]);
    }
  }

  /** An event that is no accepted call leaves everything accounted for. */
  lemma NothingAccepted(c: Config, events: seq<Event>, e: Event, ch: Chain)
    requires Accounted(c, events, ch) && !Accepted(c, events + [e], |events|)
    ensures Accounted(c, events + [e], ch)
  {
    hide ScriptsFrom, JobsFrom, ResultsFrom, Accepted;
    ScriptsStay(c, events, e, ch.scripts);
    JobsStay(c, events, e, ch.jobs);
    ResultsStay(c, events, e, ch.results);
  }

  /** Different keys are for different names. */
  lemma OtherScripts(c: Config, ch: Chain, name: Text, k: Bytes)
    requires ChainOk(c, ch) && k in ch.scripts && KeyOf(c, name).Some? && k != KeyOf(c, name).value
    ensures ch.scripts[k].name != EncodeUtf8(name)
  {
    hide JobsOk, ResultsOk, EncodeUtf8, DecodeUtf8, KeyOf, NameOfKey;
    if ch.scripts[k].name == EncodeUtf8(name) {
      Utf8RoundTrip(name);
      Utf8RoundTrip(NameOfKey(k).value);
    }
  }

  lemma UploadAccounted(c: Config, events: seq<Event>, e: Event)
    requires var ch := Run(c, GENESIS, events);
             Accounted(c, events, ch) && ChainOk(c, ch)
             && e.Include? && e.call.UploadWasm? && Dispatch(c, ch, e.origin, e.call).1.Done?
    ensures Accounted(c, events + [e], Advance(c, Run(c, GENESIS, events), e))
  {
    var ch := Run(c, GENESIS, events);
    var full, more := PrefixedName(e.call.typ, e.call.name), events + [e];
    var key := KeyOf(c, full).value;
    var script := Advance(c, ch, e).scripts[key];
    assert Advance(c, ch, e) == ch.(scripts := ch.scripts[key := script]);
    LastSame(c, events, e);
    assert LastUpload(c, more, |more|, |events|, script.name, script.code, script.abi);
    hide Run, Dispatch, Advance, KeyOf, EncodeUtf8, PrefixedName, Accepted, LastUpload, ResultsFrom, JobsFrom;
    forall k | k in ch.scripts && k != key ensures ch.scripts[k].name != EncodeUtf8(full) {
      OtherScripts(c, ch, full, k);
    }
    OthersLast(c, events, e, ch.scripts, key);
    JobsStay(c, events, e, ch.jobs);
    ResultsStay(c, events, e, ch.results);
    ScriptPut(c, more, ch.scripts, key, script);
  }

  lemma OthersLast(c: Config, events: seq<Event>, e: Event, scripts: map<Bytes, Script>, key: Bytes)
    requires ScriptsFrom(c, events, scripts)
    requires forall k :: k in scripts && k != key ==> !IsUpload(e, scripts[k].name)
    ensures ScriptsFrom(c, events + [e], scripts - {key})
  {
    hide UploadedLast, IsUpload, Accepted;
    assert ScriptsFrom(c, events, scripts - {key});
    ScriptsStay(c, events, e, scripts - {key});
  }

  lemma ScriptPut(c: Config, events: seq<Event>, scripts: map<Bytes, Script>, key: Bytes, script: Script)
    requires ScriptsFrom(c, events, scripts - {key})
    requires UploadedLast(c, events, |events|, script.name, script.code, script.abi)
    ensures ScriptsFrom(c, events, scripts[key := script])
  {
    hide UploadedLast;
    forall k | k in scripts && k != key
      ensures UploadedLast(c, events, |events|, scripts[k].name, scripts[k].code, scripts[k].abi)
    {
      assert k in scripts - {key};
    }
  }

  /** What an accepted request adds, and where it comes from. */
  lemma RequestAdds(c: Config, events: seq<Event>, e: Event) returns (job: Job)
    requires var ch := Run(c, GENESIS, events);
             ScriptsFrom(c, events, ch.scripts) && ChainOk(c, ch)
             && e.Include? && e.call.RequestExecution? && Dispatch(c, ch, e.origin, e.call).1.Done?
    ensures var ch := Run(c, GENESIS, events);
            Advance(c, ch, e) == ch.(jobs := ch.jobs[JobKey(c, job) := job])
    ensures WasRequested(c, events + [e], job)
  {
    var ch, name := Run(c, GENESIS, events), e.call.scriptName;
    RequestTakesSnapshot(c, ch, e.origin.who, name);
    var script := ch.scripts[KeyOf(c, name).value];
    job := Job(e.origin.who, script.name, script.code, script.abi, Pending);
    LastSame(c, events, e);
    assert UploadedLast(c, events, |events|, script.name, script.code, script.abi);
    hide Run, ChainOk, EncodeUtf8, KeyOf, JobKey, RequestJob, UploadedLast, Accepted, ScriptsFrom;
    UploadStays(c, events, e, |events|, script.name, script.code, script.abi);
    assert RequestedAt(c, events + [e], |events|, job);
  }

  lemma RequestAccounted(c: Config, events: seq<Event>, e: Event)
    requires var ch := Run(c, GENESIS, events);
             Accounted(c, events, ch) && ChainOk(c, ch)
             && e.Include? && e.call.RequestExecution? && Dispatch(c, ch, e.origin, e.call).1.Done?
    ensures Accounted(c, events + [e], Advance(c, Run(c, GENESIS, events), e))
  {
    var ch := Run(c, GENESIS, events);
    var job := RequestAdds(c, events, e);
    hide Run, Advance, ChainOk, JobKey, Dispatch, ScriptsFrom, ResultsFrom, WasRequested;
    QuietForScripts(c, events, e, ch.scripts);
    JobsStay(c, events, e, ch.jobs);
    QuietForResults(c, events, e, ch.results);
  }

  lemma QuietForScripts(c: Config, events: seq<Event>, e: Event, scripts: map<Bytes, Script>)
    requires ScriptsFrom(c, events, scripts) && !(e.Include? && e.call.UploadWasm?)
    ensures ScriptsFrom(c, events + [e], scripts)
  {
    hide ScriptsFrom, Accepted;
    ScriptsStay(c, events, e, scripts);
  }

  lemma QuietForResults(c: Config, events: seq<Event>, e: Event, results: map<(Bytes32, Bytes32), ResultEntry>)
    requires ResultsFrom(c, events, results) && !(e.Include? && e.call.SubmitResult?)
    ensures ResultsFrom(c, events + [e], results)
  {
    hide ResultsFrom, Accepted;
    ResultsStay(c, events, e, results);
  }

  lemma ChangeAccounted(c: Config, events: seq<Event>, e: Event)
    requires Accounted(c, events, Run(c, GENESIS, events)) && e.Include? && e.call.ChangeJobState?
    ensures Accounted(c, events + [e], Advance(c, Run(c, GENESIS, events), e))
  {
    var ch := Run(c, GENESIS, events);
    ChangeMovesOne(c, ch, e);
    hide Run, Advance, ScriptsFrom, ResultsFrom, WasRequested;
    QuietForScripts(c, events, e, ch.scripts);
    JobsStay(c, events, e, ch.jobs);
    QuietForResults(c, events, e, ch.results);
    if e.call.job in ch.jobs {
      var job := ch.jobs[e.call.job];
      StateIsNoMatter(c, events + [e], job, NextState(job.state));
      JobPut(c, events + [e], ch.jobs, e.call.job, job.(state := NextState(job.state)));
    }
    hide JobsFrom;
  }

  lemma JobPut(c: Config, events: seq<Event>, jobs: map<Bytes32, Job>, key: Bytes32, job: Job)
    requires JobsFrom(c, events, jobs) && WasRequested(c, events, job)
    ensures JobsFrom(c, events, jobs[key := job])
  {
    hide WasRequested;
  }

  lemma ChangeMovesOne(c: Config, ch: Chain, e: Event)
    requires e.Include? && e.call.ChangeJobState?
    ensures var key := e.call.job;
            Advance(c, ch, e) == ch
            || (key in ch.jobs
                && Advance(c, ch, e)
                   == ch.(jobs := ch.jobs[key := ch.jobs[key].(state := NextState(ch.jobs[key].state))]))
  {
    hide Upload, RequestJob, Submit;
  }

  lemma StateIsNoMatter(c: Config, events: seq<Event>, job: Job, state: JobState)
    requires WasRequested(c, events, job)
    ensures WasRequested(c, events, job.(state := state))
  {
    var j: nat :| RequestedAt(c, events, j, job);
    hide Accepted, UploadedLast, IsRequest;
    assert RequestedAt(c, events, j, job.(state := state));
  }

  /** What an accepted submission for a known job adds, and that it is its source. */
  lemma SubmitAdds(c: Config, events: seq<Event>, e: Event) returns (key: (Bytes32, Bytes32), entry: ResultEntry)
    requires var ch := Run(c, GENESIS, events);
             e.Include? && e.call.SubmitResult? && |e.call.key| >= 32 && e.call.key[..32] in ch.jobs
             && Dispatch(c, ch, e.origin, e.call).1.Done?
    ensures var ch := Run(c, GENESIS, events);
            Advance(c, ch, e) == ch.(results := ch.results[key := entry])
    ensures key == (e.call.key[..32], e.call.processor) && WasSubmitted(c, events + [e], key.0, key.1, entry)
  {
    var ch := Run(c, GENESIS, events);
    SubmitStores(c, ch, e.origin, e.call.key, e.call.value, e.call.processor, e.call.extTime);
    LastSame(c, events, e);
    key, entry := (e.call.key[..32], e.call.processor), ResultEntry(e.call.value, e.call.extTime);
    hide Run, Submit, Upload, RequestJob, ChangeState, Accepted, At;
    assert SubmittedAt(c, events + [e], |events|, key.0, key.1, entry);
  }

  lemma SubmitAccounted(c: Config, events: seq<Event>, e: Event)
    requires var ch := Run(c, GENESIS, events);
             Accounted(c, events, ch) && ChainOk(c, ch)
             && e.Include? && e.call.SubmitResult? && Dispatch(c, ch, e.origin, e.call).1.Done?
    ensures Accounted(c, events + [e], Advance(c, Run(c, GENESIS, events), e))
  {
    var ch, more := Run(c, GENESIS, events), events + [e];
    SubmitStores(c, ch, e.origin, e.call.key, e.call.value, e.call.processor, e.call.extTime);
    hide Run, Submit, ScriptsFrom, JobsFrom;
    QuietForScripts(c, events, e, ch.scripts);
    JobsStay(c, events, e, ch.jobs);
    if e.call.key[..32] in ch.jobs {
      var key, entry := SubmitAdds(c, events, e);
      hide Dispatch, Advance, WasSubmitted, Accepted;
      ResultsStay(c, events, e, ch.results - {key});
      ResultPut(c, more, ch.results, key, entry);
    } else {
      OtherResults(c, events, e, ch);
    }
  }

  lemma OtherResults(c: Config, events: seq<Event>, e: Event, ch: Chain)
    requires ResultsFrom(c, events, ch.results) && ResultsOk(c, ch)
    requires e.Include? && e.call.SubmitResult? && |e.call.key| >= 32 && e.call.key[..32] !in ch.jobs
    ensures ResultsFrom(c, events + [e], ch.results)
  {
    hide ResultsFrom, Accepted;
    ResultsStay(c, events, e, ch.results);
  }

  lemma ResultPut(
    c: Config, events: seq<Event>, results: map<(Bytes32, Bytes32), ResultEntry>, key: (Bytes32, Bytes32),
    entry: ResultEntry)
    requires ResultsFrom(c, events, results - {key}) && WasSubmitted(c, events, key.0, key.1, entry)
    ensures ResultsFrom(c, events, results[key := entry])
  {
    hide WasSubmitted;
    forall k | k in results && k != key ensures WasSubmitted(c, events, k.0, k.1, results[k]) {
      assert k in results - {key};
    }
  }

  /** A submission that succeeds stores its value under the job and processor it names, or the job is unknown. */
  lemma SubmitStores(c: Config, ch: Chain, origin: Origin, key: Bytes, value: Bytes, processor: Bytes32, extTime: U32)
    requires Submit(c, ch, origin, key, value, processor, extTime).1.Done?
    ensures origin.Unsigned? && |key| >= 32
    ensures var job := key[..32];
            if job !in ch.jobs then Submit(c, ch, origin, key, value, processor, extTime).0 == ch
            else && ch.jobs[job].state == Finish && |value| <= c.maxResultSize
                 && Submit(c, ch, origin, key, value, processor, extTime).0
                    == ch.(results := ch.results[(job, processor) := ResultEntry(value, extTime)])
  {
  }

  lemma EventAccounted(c: Config, events: seq<Event>, e: Event)
    requires Accounted(c, events, Run(c, GENESIS, events)) && ChainOk(c, Run(c, GENESIS, events))
    ensures Accounted(c, events + [e], Advance(c, Run(c, GENESIS, events), e))
  {
    var ch := Run(c, GENESIS, events);
    hide Run, Accounted, ChainOk, Dispatch, Accepted;
    LastSame(c, events, e);
    if e.NextBlock? {
      NothingAccepted(c, events, e, ch);
      BlockIsNoMatter(c, events + [e], ch);
    } else if !Dispatch(c, ch, e.origin, e.call).1.Done? {
      FailureChangesNothing(c, ch, e.origin, e.call);
      NothingAccepted(c, events, e, ch);
    } else {
      match e.call
      case UploadWasm(_, _, _, _) => UploadAccounted(c, events, e);
      case RequestExecution(_) => RequestAccounted(c, events, e);
      case SubmitResult(_, _, _, _, _) => SubmitAccounted(c, events, e);
      case ChangeJobState(_, _) => ChangeAccounted(c, events, e);
    }
  }

  lemma BlockIsNoMatter(c: Config, events: seq<Event>, ch: Chain)
    requires Accounted(c, events, ch)
    ensures Accounted(c, events, ch.(block := ch.block + 1))
  {
  }

  lemma {:induction false} RunAppend(c: Config, ch: Chain, events: seq<Event>, e: Event)
    ensures Run(c, ch, events + [e]) == Advance(c, Run(c, ch, events), e)
    decreases |events|
  {
    hide Advance;
    if events == [] {
      assert [e][1..] == [] && events + [e] == [e];
      assert Run(c, ch, [e]) == Run(c, Advance(c, ch, e), []);
    } else {
      assert (events + [e])[1..] == events[1..] + [e];
      RunAppend(c, Advance(c, ch, events[0]), events[1..], e);
    }
  }

  /**
   From genesis and in any order of calls. Every script is that of the last
   accepted upload under its name. Every job had an accepted request of its
   caller at a time when its code and ABI were those of the last accepted upload
   under its name. Every result is that of the last accepted submission for its
   job and processor, which came when the job was finished.
   */
  lemma {:induction false} EverythingWasCalledFor(c: Config, events: seq<Event>)
    ensures Accounted(c, events, Run(c, GENESIS, events))
    decreases |events|
  {
    if events == [] {
    } else {
      var front, e := events[..|events| - 1], events[|events| - 1];
      EverythingWasCalledFor(c, front);
      GenesisOk(c);
      RunKeepsOk(c, GENESIS, front);
      RunAppend(c, GENESIS, front, e);
      assert front + [e] == events;
      hide Run, Accounted, ChainOk, Advance;
      EventAccounted(c, front, e);
    }
  }

  // ---------- Job states count deliveries ----------

  predicate Delivers(e: Event, job: Bytes32) {
    e.Include? && e.origin.Unsigned? && e.call.ChangeJobState? && e.call.job == job
  }

  function Deliveries(events: seq<Event>, job: Bytes32): nat {
    if events == [] then 0 else (if Delivers(events[0], job) then 1 else 0) + Deliveries(events[1..], job)
  }

  lemma DeliveryMovesState(c: Config, ch: Chain, e: Event, job: Bytes32)
    requires ChainOk(c, ch) && job in ch.jobs
    ensures job in Advance(c, ch, e).jobs
    ensures var rank: int := StateByte(ch.jobs[job].state);
            StateByte(Advance(c, ch, e).jobs[job].state) == if Delivers(e, job) && rank < 3 then rank + 1 else rank
  {
    assert ch.jobs[job].state != Idling by { assert JobOk(c, job, ch.jobs[job]); }
    hide Upload, RequestJob, ChangeState, Submit;
    if e.Include? {
      match e.call
      case UploadWasm(name, typ, code, abi) => UploadKeepsOk(c, ch, e.origin, name, typ, code, abi);
      case RequestExecution(name) => RequestKeepsOthers(c, ch, e.origin, name, job);
      case ChangeJobState(_, key) => ChangeMoves(ch, e.origin, key, job);
      case SubmitResult(_, key, value, processor, time) =>
        SubmitKeepsOk(c, ch, e.origin, key, value, processor, time);
    }
  }

  lemma ChangeMoves(ch: Chain, origin: Origin, key: Bytes32, job: Bytes32)
    requires job in ch.jobs
    ensures job in ChangeState(ch, origin, key).0.jobs
    ensures ChangeState(ch, origin, key).0.jobs[job].state
            == if origin.Unsigned? && key == job then NextState(ch.jobs[job].state) else ch.jobs[job].state
  {
  }

  lemma RequestKeepsOthers(c: Config, ch: Chain, origin: Origin, name: Text, job: Bytes32)
    requires job in ch.jobs
    ensures job in RequestJob(c, ch, origin, name).0.jobs
    ensures RequestJob(c, ch, origin, name).0.jobs[job] == ch.jobs[job]
  {
    hide EncodeUtf8, KeyOf, JobKey;
  }

  /** A job has advanced once for every state change delivered to it, up to Finish, whoever sent them. */
  lemma {:induction false} StateCountsDeliveries(c: Config, ch: Chain, events: seq<Event>, job: Bytes32)
    requires ChainOk(c, ch) && job in ch.jobs
    ensures var last := Run(c, ch, events);
            && job in last.jobs
            && var start: int := StateByte(ch.jobs[job].state);
               var rank := start + Deliveries(events, job);
               StateByte(last.jobs[job].state) == if rank < 3 then rank else 3
    decreases |events|
  {
    if events == [] {
    } else {
      DeliveryMovesState(c, ch, events[0], job);
      AdvanceKeepsOk(c, ch, events[0]);
      hide ChainOk, Advance, Delivers;
      StateCountsDeliveries(c, Advance(c, ch, events[0]), events[1..], job);
    }
  }

  // ---------- Blocks ----------

  function Blocks(events: seq<Event>): nat {
    if events == [] then 0 else (if events[0].NextBlock? then 1 else 0) + Blocks(events[1..])
  }

  /** Calls do not move the block number; each new block moves it by one. */
  lemma {:induction false} BlockCountsBlocks(c: Config, ch: Chain, events: seq<Event>)
    ensures Run(c, ch, events).block == ch.block + Blocks(events)
    decreases |events|
  {
    if events == [] {
    } else {
      BlockCountsBlocks(c, Advance(c, ch, events[0]), events[1..]);
      CallsKeepBlock(c, ch, events[0]);
      hide Advance;
    }
  }

  lemma CallsKeepBlock(c: Config, ch: Chain, e: Event)
    ensures Advance(c, ch, e).block == ch.block + if e.NextBlock? then 1 else 0
  {
    hide KeyOf, JobKey, UploadFits, PrefixedName;
  }
}
