/**
 The wasmstore pallet in the form it is written in: storage maps that the
 extrinsics insert into and mutate. Each method's contract is the transition
 that `WasmStore` defines for its call; what the transitions promise is proved there.
 */
module WasmStorePallet {
  import opened Bytes
  import opened Unicode
  import opened Payloads
  import opened WasmStore

  class Pallet {
    const config: Config
    var block: nat
    var scripts: map<Bytes, Script>
    var jobs: map<Bytes32, Job>
    var results: map<(Bytes32, Bytes32), ResultEntry>

    ghost function View(): Chain
      reads this
    {
      Chain(block, scripts, jobs, results)
    }

    constructor (config: Config)
      ensures this.config == config && View() == GENESIS && ChainOk(config, View())
    {
      this.config := config;
      block, scripts, jobs, results := 0, map[], map[], map[];
      new;
      GenesisOk(config);
    }

    method UploadWasm(origin: Origin, name: Text, typ: ScriptType, code: Bytes, abi: Bytes) returns (outcome: Outcome)
      modifies this
      ensures (View(), outcome) == Upload(config, old(View()), origin, name, typ, code, abi)
      ensures old(ChainOk(config, View())) ==> ChainOk(config, View())
    {
      if ChainOk(config, View()) {
        UploadKeepsOk(config, View(), origin, name, typ, code, abi);
      }
      hide ChainOk;
      if !origin.Signed? {
        return Rejected(BadOrigin);
      }
      var fullName := PrefixedName(typ, name);
      var boundedName := EncodeUtf8(fullName);
      if |code| > config.maxScriptSize || |boundedName| > config.maxStringSize || |abi| > config.maxScriptSize {
        return Rejected(SizeTooBig);
      }
      var scriptKey := KeyOf(config, fullName);
      if scriptKey.None? {
        return Rejected(SizeTooBig);
      }
      if scriptKey.value in scripts {
        var stored := scripts[scriptKey.value];
        if !(boundedName != stored.name || code != stored.code) {
          return Rejected(ValAlreadyExist);
        }
      }
      var script := Script(origin.who, block, code, abi, config.hash(code), boundedName, typ, 0);
      scripts := scripts[scriptKey.value := script];
      outcome := Done;
    }

    method RequestScriptExecution(origin: Origin, scriptName: Text) returns (outcome: Outcome)
      modifies this
      ensures (View(), outcome) == RequestJob(config, old(View()), origin, scriptName)
      ensures old(ChainOk(config, View())) ==> ChainOk(config, View()) && JobsGrow(old(jobs), jobs)
    {
      if ChainOk(config, View()) {
        RequestKeepsOk(config, View(), origin, scriptName);
      }
      hide ChainOk, JobsGrow;
      if !origin.Signed? {
        return Rejected(BadOrigin);
      }
      var scriptKey := KeyOf(config, scriptName);
      if scriptKey.None? {
        return Rejected(SizeTooBig);
      }
      if scriptKey.value !in scripts {
        return Rejected(NoValExist);
      }
      var script := scripts[scriptKey.value];
      var name := EncodeUtf8(scriptName);
      if |name| > config.maxStringSize {
        return Rejected(SizeTooBig);
      }
      var job := Job(origin.who, name, script.code, script.abi, Pending);
      var jobKey := config.hash(EncodeJob(job));
      if jobKey in jobs {
        return Rejected(ValAlreadyExist);
      }
      jobs := jobs[jobKey := job];
      outcome := Done;
    }

    method ChangeJobState(origin: Origin, blockNumber: nat, key: Bytes32) returns (outcome: Outcome)
      modifies this
      ensures (View(), outcome) == ChangeState(old(View()), origin, key)
      ensures old(ChainOk(config, View())) ==> ChainOk(config, View()) && JobsGrow(old(jobs), jobs)
    {
      if ChainOk(config, View()) {
        ChangeStateKeepsOk(config, View(), origin, key);
      }
      hide ChainOk, JobsGrow;
      if !origin.Unsigned? {
        return Rejected(BadOrigin);
      }
      if key in jobs {
        var job := jobs[key];
        match job.state {
          case Pending => jobs := jobs[key := job.(state := Processing)];
          case Processing => jobs := jobs[key := job.(state := Finish)];
          case _ =>
            assert jobs[key := job] == jobs;
        }
      }
      outcome := Done;
    }

    method SubmitResultUnsigned(
      origin: Origin, blockNumber: nat, key: Bytes, value: Bytes, processor: Bytes32, extTime: U32)
      returns (outcome: Outcome)
      modifies this
      ensures (View(), outcome) == Submit(config, old(View()), origin, key, value, processor, extTime)
      ensures old(ChainOk(config, View())) ==> ChainOk(config, View())
    {
      if ChainOk(config, View()) {
        SubmitKeepsOk(config, View(), origin, key, value, processor, extTime);
      }
      hide ChainOk;
      if !origin.Unsigned? {
        return Rejected(BadOrigin);
      }
      if |key| < 32 {
        return Panicked;
      }
      var onchainKey: Bytes32 := key[..32];
      if onchainKey in jobs {
        if jobs[onchainKey].state != Finish {
          return Rejected(InvalidOperation);
        }
        if (onchainKey, processor) !in results {
          if |value| > config.maxResultSize {
            return Rejected(SizeTooBig);
          }
          results := results[(onchainKey, processor) := ResultEntry(value, extTime)];
        } else {
          if |value| > config.maxResultSize {
            return Panicked;
          }
          var current := results[(onchainKey, processor)];
          results := results[(onchainKey, processor) := current.(data := value, extTime := extTime)];
        }
      }
      outcome := Done;
    }
  }
}
