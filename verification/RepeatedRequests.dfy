/**
 When a script may be requested again. A job's key is the hash of its encoding,
 so that a request is refused exactly while some job stands for the same caller,
 name, code and ABI, and the job's state plays no part in it.
 */
module RepeatedRequests {
  import opened Bytes
  import opened Scale
  import opened Unicode
  import opened Payloads
  import opened WasmStore

  // ---------- The encoding that is hashed tells jobs apart ----------

  function ParseJob(b: Bytes): Parsed<Job> {
    var (caller, b1) :- ParseAddress(b);
    var (scriptName, b2) :- ParseVec(b1);
    var (code, b3) :- ParseVec(b2);
    var (abi, b4) :- ParseVec(b3);
    var (state, b5) :- ParseState(b4);
    Parsed(Job(caller, scriptName, code, abi, state), b5)
  }

  lemma JobRoundTrip(j: Job, rest: Bytes)
    ensures ParseJob(EncodeJob(j) + rest) == Parsed(j, rest)
  {
    hide EncodeVec, ParseVec;
    var t3 := [StateByte(j.state)] + rest;
    var t2 := EncodeVec(j.abi) + t3;
    var t1 := EncodeVec(j.code) + t2;
    var t0 := EncodeVec(j.scriptName) + t1;
    VecRoundTrip(j.abi, t3);
    VecRoundTrip(j.code, t2);
    VecRoundTrip(j.scriptName, t1);
    assert EncodeJob(j) + rest == j.caller + t0;
    assert (j.caller + t0)[..32] == j.caller && (j.caller + t0)[32..] == t0 && t3[1..] == rest;
  }

  lemma EncodeJobInjective(a: Job, b: Job)
    requires EncodeJob(a) == EncodeJob(b)
    ensures a == b
  {
    JobRoundTrip(a, []);
    JobRoundTrip(b, []);
    assert EncodeJob(a) + [] == EncodeJob(b) + [];
  }

  // ---------- Exactly which requests are accepted ----------

  /** The job was requested by this caller, for a script of this name, code and ABI. */
  predicate IsFor(job: Job, who: Bytes32, name: Text, script: Script) {
    && job.caller == who && job.scriptName == EncodeUtf8(name)
    && job.code == script.code && job.abi == script.abi
  }

  /** The hash of the new job is the key of no stored job that was encoded otherwise. */
  ghost predicate NoCollision(c: Config, jobs: map<Bytes32, Job>, job: Job) {
    forall k :: k in jobs && k == JobKey(c, job) ==> EncodeJob(jobs[k].(state := Pending)) == EncodeJob(job)
  }

  predicate Requestable(c: Config, ch: Chain, name: Text) {
    && KeyOf(c, name).Some? && KeyOf(c, name).value in ch.scripts
    && |EncodeUtf8(name)| <= c.maxStringSize
  }

  /**
   A signed request is accepted exactly when the script is stored, the name
   fits, and no job in any state is for that caller, that name and the code
   and ABI the script has now.
   */
  lemma RequestAcceptedIff(c: Config, ch: Chain, who: Bytes32, name: Text)
    requires ChainOk(c, ch)
    requires Requestable(c, ch, name) ==>
               NoCollision(c, ch.jobs, NewJob(who, name, ch.scripts[KeyOf(c, name).value]))
    ensures RequestJob(c, ch, Signed(who), name).1.Done?
            <==> && Requestable(c, ch, name)
                 && forall k :: k in ch.jobs ==> !IsFor(ch.jobs[k], who, name, ch.scripts[KeyOf(c, name).value])
  {
    hide KeyOf, EncodeUtf8, EncodeJob, ScriptsOk, ResultsOk;
    if Requestable(c, ch, name) {
      var script := ch.scripts[KeyOf(c, name).value];
      var job := NewJob(who, name, script);
      if JobKey(c, job) in ch.jobs {
        EncodeJobInjective(ch.jobs[JobKey(c, job)].(state := Pending), job);
        assert IsFor(ch.jobs[JobKey(c, job)], who, name, script);
      }
      forall k | k in ch.jobs && IsFor(ch.jobs[k], who, name, script) ensures k == JobKey(c, job) {
        assert ch.jobs[k].(state := Pending) == job;
      }
    }
  }

  // ---------- A second request while the first job is processed ----------

  /** Upload, request, a delivered state change, and an upload of other code under the same name. */
  function Replaced(c: Config, who: Bytes32, name: Text, typ: ScriptType, a: (Blob, Blob), b: (Blob, Blob)): seq<Event>
    requires |EncodeUtf8(PrefixedName(typ, name))| < 0x1_0000_0000
  {
    [Include(Signed(who), UploadWasm(name, typ, a.0, a.1)),
     Include(Signed(who), RequestExecution(PrefixedName(typ, name))),
     Include(Unsigned, ChangeJobState(0, JobKey(c, JobFor(who, name, typ, a)))),
     Include(Signed(who), UploadWasm(name, typ, b.0, b.1))]
  }

  function JobFor(who: Bytes32, name: Text, typ: ScriptType, script: (Blob, Blob)): Job
    requires |EncodeUtf8(PrefixedName(typ, name))| < 0x1_0000_0000
  {
    Job(who, EncodeUtf8(PrefixedName(typ, name)), script.0, script.1, Pending)
  }

  /**
   From genesis: once the script has other code, its caller is given a second
   job while the first is being processed, unless the two jobs' hashes collide.
   */
  lemma AcceptedWhileProcessing(
    c: Config, who: Bytes32, name: Text, typ: ScriptType, a: (Blob, Blob), b: (Blob, Blob))
    requires UploadFits(c, PrefixedName(typ, name), a.0, a.1) && UploadFits(c, PrefixedName(typ, name), b.0, b.1)
    requires a.0 != b.0
    requires JobKey(c, JobFor(who, name, typ, a)) != JobKey(c, JobFor(who, name, typ, b))
    ensures var ch := Run(c, GENESIS, Replaced(c, who, name, typ, a, b));
            var jobA, jobB := JobFor(who, name, typ, a), JobFor(who, name, typ, b);
            && ch.jobs == map[JobKey(c, jobA) := jobA.(state := Processing)]
            && RequestJob(c, ch, Signed(who), PrefixedName(typ, name))
               == (ch.(jobs := ch.jobs[JobKey(c, jobB) := jobB]), Done)
  {
    hide EncodeUtf8, KeyOf, JobKey, PrefixedName, Run;
    var full := PrefixedName(typ, name);
    var events := Replaced(c, who, name, typ, a, b);
    var ch1 := Advance(c, GENESIS, events[0]);
    var ch2 := Advance(c, ch1, events[1]);
    var ch3 := Advance(c, ch2, events[2]);
    var ch4 := Advance(c, ch3, events[3]);
    FourEvents(c, GENESIS, events);
    var key := KeyOf(c, full).value;
    assert ch1.scripts[key].code == a.0 && ch1.scripts[key].abi == a.1 && ch1.jobs == map[];
    assert ch2.jobs == map[JobKey(c, JobFor(who, name, typ, a)) := JobFor(who, name, typ, a)];
  }

  lemma FourEvents(c: Config, ch: Chain, e: seq<Event>)
    requires |e| == 4
    ensures Run(c, ch, e) == Advance(c, Advance(c, Advance(c, Advance(c, ch, e[0]), e[1]), e[2]), e[3])
  {
    hide Advance;
    var ch1 := Advance(c, ch, e[0]);
    var ch2 := Advance(c, ch1, e[1]);
    var ch3 := Advance(c, ch2, e[2]);
    assert e[1..][1..] == e[2..] && e[2..][1..] == e[3..] && e[3..][1..] == [];
    assert Run(c, ch, e) == Run(c, ch1, e[1..]) == Run(c, ch2, e[2..]);
    assert Run(c, ch2, e[2..]) == Run(c, ch3, e[3..]);
    assert Run(c, ch3, e[3..]) == Run(c, Advance(c, ch3, e[3]), []);
  }
}
