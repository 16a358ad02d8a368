/**
 What each extrinsic of the wasmstore pallet answers and stores, for every
 origin, argument and storage: which calls succeed, which error or panic each
 of the others meets, and exactly which entry changes.
 */
module Outcomes {
  import opened Bytes
  import opened Unicode
  import opened Payloads
  import opened ScriptKeys
  import opened WasmStore

  // ---------- Uploads ----------

  /** What a script is called on chain: three letters for its type and then its name, as UTF-8. */
  lemma StoredName(typ: ScriptType, name: Text)
    ensures EncodeUtf8(PrefixedName(typ, name))
            == Ascii(if typ.Executable? then "EXE" else "SRC") + EncodeUtf8(name)
  {
    var prefix: Text := if typ.Executable? then [69, 88, 69] else [83, 82, 67];
    assert PrefixedName(typ, name) == prefix + name;
    Utf8Append(prefix, name);
    AsciiText(prefix);
    hide EncodeUtf8;
    assert Ascii(if typ.Executable? then "EXE" else "SRC") == [prefix[0], prefix[1], prefix[2]];
  }

  /** An executable and a source never lie under the same key, whatever they are called. */
  lemma TypesNeverShareAKey(c: Config, a: Text, b: Text)
    requires KeyOf(c, PrefixedName(Executable, a)).Some?
    ensures KeyOf(c, PrefixedName(Executable, a)) != KeyOf(c, PrefixedName(Source, b))
  {
    var exe, src := PrefixedName(Executable, a), PrefixedName(Source, b);
    assert exe[0] == 69 && src[0] == 83;
    if KeyOf(c, exe) == KeyOf(c, src) {
      KeyInjective(c.printable, c.maxScriptKeyLen, exe, src);
    }
  }

  /** The bounds on code, stored name and ABI, and on the key. */
  predicate Fits(c: Config, typ: ScriptType, name: Text, code: Bytes, abi: Bytes) {
    && |code| <= c.maxScriptSize && |abi| <= c.maxScriptSize
    && 3 + |EncodeUtf8(name)| <= c.maxStringSize
    && KeyOf(c, PrefixedName(typ, name)).Some?
  }

  /** The upload's key already holds this code. */
  predicate Held(c: Config, ch: Chain, typ: ScriptType, name: Text, code: Bytes) {
    var key := KeyOf(c, PrefixedName(typ, name));
    key.Some? && key.value in ch.scripts && ch.scripts[key.value].code == code
  }

  /** An upload succeeds exactly when it is signed, fits, and its key does not already hold its code. */
  lemma UploadOutcome(c: Config, ch: Chain, origin: Origin, name: Text, typ: ScriptType, code: Bytes, abi: Bytes)
    requires ChainOk(c, ch)
    ensures var (after, outcome) := Upload(c, ch, origin, name, typ, code, abi);
            var fits, held := Fits(c, typ, name, code, abi), Held(c, ch, typ, name, code);
            && (outcome == Done <==> origin.Signed? && fits && !held)
            && (outcome == Rejected(BadOrigin) <==> !origin.Signed?)
            && (outcome == Rejected(SizeTooBig) <==> origin.Signed? && !fits)
            && (outcome == Rejected(ValAlreadyExist) <==> origin.Signed? && fits && held)
            && (outcome != Done ==> after == ch)
  {
    StoredName(typ, name);
    assert |Ascii(if typ.Executable? then "EXE" else "SRC")| == 3;
    if KeyOf(c, PrefixedName(typ, name)).Some? {
      KeptUnderItsName(c, ch, PrefixedName(typ, name));
    }
    hide KeyOf, EncodeUtf8, PrefixedName, ChainOk, Ascii;
  }

  /**
   An upload that succeeds changes its own key alone, which then holds a script
   with the uploader, block, code, ABI, code hash, prefixed name and type.
   */
  lemma UploadStores(c: Config, ch: Chain, origin: Origin, name: Text, typ: ScriptType, code: Bytes, abi: Bytes)
    requires Upload(c, ch, origin, name, typ, code, abi).1 == Done
    ensures var after, key := Upload(c, ch, origin, name, typ, code, abi).0, KeyOf(c, PrefixedName(typ, name));
            && key.Some? && origin.Signed?
            && after == ch.(scripts := after.scripts) && after.scripts.Keys == ch.scripts.Keys + {key.value}
            && (forall k :: k in ch.scripts && k != key.value ==> after.scripts[k] == ch.scripts[k])
            && var script := after.scripts[key.value];
               && script.publisher == origin.who && script.block == ch.block
               && script.code == code && script.abi == abi && script.hash == c.hash(code)
               && script.name == Ascii(if typ.Executable? then "EXE" else "SRC") + EncodeUtf8(name)
               && script.typ == typ && script.refCount == 0
  {
    StoredName(typ, name);
    hide KeyOf, EncodeUtf8, PrefixedName, Ascii;
  }

  lemma KeptUnderItsName(c: Config, ch: Chain, name: Text)
    requires ChainOk(c, ch) && KeyOf(c, name).Some?
    ensures KeyOf(c, name).value in ch.scripts ==> ch.scripts[KeyOf(c, name).value].name == EncodeUtf8(name)
  {
    KeyNamesBack(c, name);
    hide KeyOf, EncodeUtf8, NameOfKey, JobsOk, ResultsOk;
  }

  // ---------- Requests ----------

  /** The refusals of a request, by what is wrong with it; `RepeatedRequests` has when it is accepted. */
  lemma RequestRefusals(c: Config, ch: Chain, origin: Origin, name: Text)
    ensures var (after, outcome) := RequestJob(c, ch, origin, name);
            var key := KeyOf(c, name);
            && (outcome == Rejected(BadOrigin) <==> !origin.Signed?)
            && (outcome == Rejected(NoValExist) <==> origin.Signed? && key.Some? && key.value !in ch.scripts)
            && (outcome == Rejected(SizeTooBig) <==>
                  origin.Signed? && (key.None? || (key.value in ch.scripts && |EncodeUtf8(name)| > c.maxStringSize)))
            && (outcome == Rejected(ValAlreadyExist) <==>
                  && origin.Signed? && key.Some? && key.value in ch.scripts && |EncodeUtf8(name)| <= c.maxStringSize
                  && JobKey(c, NewJob(origin.who, name, ch.scripts[key.value])) in ch.jobs)
            && (outcome != Done ==> after == ch) && outcome != Panicked
  {
    hide KeyOf, EncodeUtf8, JobKey;
  }

  // ---------- State changes ----------

  /** The states a job goes through, and nothing after the last. */
  predicate Follows(before: JobState, after: JobState) {
    (before == Pending && after == Processing) || (before == Processing && after == Finish)
    || (before == after && before != Pending && before != Processing)
  }

  /** A state change from anyone but a worker is refused; otherwise it succeeds and moves that one job on. */
  lemma ChangeOutcome(ch: Chain, origin: Origin, key: Bytes32)
    ensures var (after, outcome) := ChangeState(ch, origin, key);
            && outcome == (if origin.Unsigned? then Done else Rejected(BadOrigin))
            && after == ch.(jobs := after.jobs) && after.jobs.Keys == ch.jobs.Keys
            && (forall k :: k in ch.jobs && (k != key || !origin.Unsigned?) ==> after.jobs[k] == ch.jobs[k])
            && (key in ch.jobs && origin.Unsigned? ==>
                  && Follows(ch.jobs[key].state, after.jobs[key].state)
                  && after.jobs[key] == ch.jobs[key].(state := after.jobs[key].state))
  {
  }

  // ---------- Results ----------

  /** The job that a result's key names is on chain. */
  predicate Known(ch: Chain, key: Bytes) {
    |key| >= 32 && key[..32] in ch.jobs
  }

  /** The result is for a finished job. */
  predicate Due(ch: Chain, key: Bytes) {
    Known(ch, key) && ch.jobs[key[..32]].state == Finish
  }

  /**
   A result submission succeeds exactly when it is unsigned, its key has a whole
   hash, and the job is unknown or is finished and the value within the bound.
   For a known job the results then are the old ones with that one entry put,
   for the first time or again; in all other cases nothing changes.
   */
  lemma SubmitOutcome(
    c: Config, ch: Chain, origin: Origin, key: Bytes, value: Bytes, processor: Bytes32, extTime: U32)
    ensures var (after, outcome) := Submit(c, ch, origin, key, value, processor, extTime);
            var big, held := |value| > c.maxResultSize, |key| >= 32 && (key[..32], processor) in ch.results;
            && (outcome == Done <==>
                  origin.Unsigned? && |key| >= 32 && (!Known(ch, key) || (Due(ch, key) && !big)))
            && (outcome == Rejected(BadOrigin) <==> !origin.Unsigned?)
            && (outcome == Rejected(InvalidOperation) <==> origin.Unsigned? && Known(ch, key) && !Due(ch, key))
            && (outcome == Rejected(SizeTooBig) <==> origin.Unsigned? && Due(ch, key) && big && !held)
            && (outcome == Panicked <==> origin.Unsigned? && (|key| < 32 || (Due(ch, key) && big && held)))
            && (outcome == Done && Known(ch, key) ==>
                  |value| < 0x1_0000_0000
                  && after == ch.(results := ch.results[(key[..32], processor) := ResultEntry(value, extTime)]))
            && (outcome != Done || !Known(ch, key) ==> after == ch)
  {
  }

  // ---------- The validator of unsigned calls ----------

  /** The hash a call from a worker is about; the others are about none. */
  function About(call: Call): Option<Bytes> {
    match call
    case ChangeJobState(_, job) => Some(job)
    case SubmitResult(_, key, _, _, _) => Some(key)
    case _ => None
  }

  function BlockOf(call: Call): nat {
    match call
    case ChangeJobState(block, _) => block
    case SubmitResult(block, _, _, _, _) => block
    case _ => 0
  }

  /**
   An unsigned call is valid exactly when it changes a state or submits a
   result, is not from a block ahead, and starts with a hash that is not zero.
   */
  lemma ValidatorOutcome(ch: Chain, call: Call)
    ensures var v, about := ValidateUnsigned(ch, call), About(call);
            var whole := about.Some? && |about.value| >= 32;
            var zero := whole && forall i :: 0 <= i < 32 ==> about.value[i] == 0;
            && (v == Valid <==> whole && BlockOf(call) <= ch.block && !zero)
            && (v == Future <==> whole && ch.block < BlockOf(call))
            && (v == BadProof <==> whole && BlockOf(call) <= ch.block && zero)
            && (v == ValidatorPanicked <==> about.Some? && !whole)
            && (v == NotAccepted <==> about.None?)
  {
    var about := About(call);
    if about.Some? && |about.value| >= 32 {
      var head := about.value[..32];
      assert head == seq(32, _ => 0) <==> forall i :: 0 <= i < 32 ==> head[i] == 0;
      assert forall i :: 0 <= i < 32 ==> head[i] == about.value[i];
      assert |about.value| == 32 ==> head == about.value;
    }
  }
}
