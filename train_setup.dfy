/** The distributed-training arithmetic of `train`
    (alpaca_qlora_finetuning_cpu.py, lines 134 and 138-157): the world size,
    whether DDP is on, the device index and the number of gradient
    accumulation steps, and what the function writes into os.environ. */
module TrainSetup {
  import opened Wrappers
  import opened PyInt
  import opened EnvInts

  /** Python's `a // b`: the quotient rounded towards minus infinity. */
  function FloorDiv(a: int, b: int): (q: int)
    requires b != 0
    ensures b > 0 ==> b * q <= a < b * q + b
    ensures b < 0 ==> b * q + b < a <= b * q
  {
    if b > 0 then a / b else (-a) / (-b)
  }

  /** Multiplying by a positive number keeps a gap of at least one. */
  lemma MulStep(d: int, x: int, y: int)
    requires d > 0 && x < y
    ensures d * x + d <= d * y
  {
    var k := y - x - 1;
    assert k >= 0;
    assert d * y == d * x + d + d * k;
    assert d * k >= 0;
  }

  /** A quotient is determined by its bounds. */
  lemma FloorDivUnique(a: int, d: int, q: int)
    requires d > 0
    requires d * q <= a < d * q + d
    ensures FloorDiv(a, d) == q
  {
    var r := FloorDiv(a, d);
    if r < q {
      MulStep(d, r, q);
    } else if r > q {
      MulStep(d, q, r);
    }
  }

  /** Dividing by m and then by w is dividing by m * w. */
  lemma FloorDivNested(a: int, m: int, w: int)
    requires m > 0 && w > 0
    ensures FloorDiv(FloorDiv(a, m), w) == FloorDiv(a, m * w)
  {
    var q1 := FloorDiv(a, m);
    var q2 := FloorDiv(q1, w);
    // lower bound: (m * w) * q2 <= m * q1 <= a
    if w * q2 < q1 {
      MulStep(m, w * q2, q1);
    }
    assert m * (w * q2) == (m * w) * q2;
    // upper bound: a < m * q1 + m <= m * (w * q2 + w)
    MulStep(m, q1, w * q2 + w);
    assert m * (w * q2 + w) == (m * w) * q2 + m * w;
    FloorDivUnique(a, m * w, q2);
  }

  /** Python's `x // -1`. */
  lemma FloorDivByMinusOne(a: int)
    ensures FloorDiv(a, -1) == -a
  {
  }

  /** Failures of the setup: a ValueError from int(), or a division by 0. */
  datatype SetupError = EnvValueError(e: ValueError) | ZeroDivisionError

  /** What the setup decides. `deviceMap` is None for "auto" and
      Some(i) for `{"": i}`. */
  datatype DistConfig = DistConfig(
    worldSize: int,
    ddp: bool,
    gradientAccumulationSteps: int,
    deviceMap: Option<int>)

  /** The result, and the environment as the setup leaves it: an error raised
      after line 148 leaves the variables written before it. */
  datatype SetupOutcome = SetupOutcome(result: Result<DistConfig, SetupError>, environ: map<string, string>)

  /** Line 139: a Kubernetes pod sets LOCAL_POD_NAME to a non-empty name. */
  predicate IsK8s(env: map<string, string>) {
    "LOCAL_POD_NAME" in env && env["LOCAL_POD_NAME"] != ""
  }

  /** Lines 140-143: the world size from PMI_SIZE; 0 means 1, unset means -1,
      and WORLD_SIZE is written only for a positive PMI_SIZE. */
  function K8sWorldSize(env: map<string, string>): (r: (Result<int, ValueError>, map<string, string>))
    ensures r.0.Ok? ==> r.0.value != 0
    ensures "PMI_SIZE" !in env ==> r == (Ok(-1), env)
    ensures r.1 != env ==> r.0.Ok? && r.0.value > 0 && r.1 == env["WORLD_SIZE" := IntToString(r.0.value)]
    // a set PMI_SIZE gives its own value, except that 0 means 1
    ensures "PMI_SIZE" in env ==>
              r.0 == (match IntArg(env["PMI_SIZE"])
                      case Ok(p) => Ok(if p == 0 then 1 else p)
                      case Err(e) => Err(e))
    // and a positive one is written to WORLD_SIZE
    ensures "PMI_SIZE" in env && IntArg(env["PMI_SIZE"]).Ok? && IntArg(env["PMI_SIZE"]).value > 0 ==>
              r.1 == env["WORLD_SIZE" := IntToString(IntArg(env["PMI_SIZE"]).value)]
  {
    match EnvInt(env, "PMI_SIZE", -1)
    case Err(e) => (Err(e), env)
    case Ok(pmi) =>
      var env' := if pmi > 0 then env["WORLD_SIZE" := IntToString(pmi)] else env;
      (Ok(if pmi == 0 then 1 else pmi), env')
  }

  /** The local rank, world size and port a standalone run reads (145-147). */
  datatype Standalone = Standalone(localRank: int, worldSize: int, port: int)

  function StandaloneLookups(env: map<string, string>): (r: Result<Standalone, ValueError>)
    ensures r.Ok? <==>
              && EnvLookup(env, ["LOCAL_RANK", "MPI_LOCALRANKID"], "0").Ok?
              && EnvLookup(env, ["WORLD_SIZE", "PMI_SIZE"], "1").Ok?
              && EnvLookup(env, ["MASTER_PORT"], "29500").Ok?
    ensures r.Ok? ==>
              r.value == Standalone(EnvLookup(env, ["LOCAL_RANK", "MPI_LOCALRANKID"], "0").value,
                                    EnvLookup(env, ["WORLD_SIZE", "PMI_SIZE"], "1").value,
                                    EnvLookup(env, ["MASTER_PORT"], "29500").value)
    // the lookups run in order, and the first ValueError is raised
    ensures EnvLookup(env, ["LOCAL_RANK", "MPI_LOCALRANKID"], "0").Err? ==>
              r == Err(EnvLookup(env, ["LOCAL_RANK", "MPI_LOCALRANKID"], "0").error)
    ensures EnvLookup(env, ["LOCAL_RANK", "MPI_LOCALRANKID"], "0").Ok? &&
            EnvLookup(env, ["WORLD_SIZE", "PMI_SIZE"], "1").Err? ==>
              r == Err(EnvLookup(env, ["WORLD_SIZE", "PMI_SIZE"], "1").error)
    ensures EnvLookup(env, ["LOCAL_RANK", "MPI_LOCALRANKID"], "0").Ok? &&
            EnvLookup(env, ["WORLD_SIZE", "PMI_SIZE"], "1").Ok? &&
            EnvLookup(env, ["MASTER_PORT"], "29500").Err? ==>
              r == Err(EnvLookup(env, ["MASTER_PORT"], "29500").error)
    // the defaults are not negative, so neither is anything a standalone run reads
    ensures r.Ok? ==> r.value.localRank >= 0 && r.value.worldSize >= 0 && r.value.port >= 0
  {
    assert ParseInt("0") == Some(0) && ParseInt("1") == Some(1) && AllDigits("29500");
    match EnvLookup(env, ["LOCAL_RANK", "MPI_LOCALRANKID"], "0")
    case Err(e) => Err(e)
    case Ok(localRank) =>
      match EnvLookup(env, ["WORLD_SIZE", "PMI_SIZE"], "1")
      case Err(e) => Err(e)
      case Ok(worldSize) =>
        match EnvLookup(env, ["MASTER_PORT"], "29500")
        case Err(e) => Err(e)
        case Ok(port) => Ok(Standalone(localRank, worldSize, port))
  }

  /** Lines 148-151: the four variables a standalone run writes. */
  function StandaloneEnv(env: map<string, string>, s: Standalone): (r: map<string, string>)
    ensures r.Keys == env.Keys + {"LOCAL_RANK", "WORLD_SIZE", "RANK", "MASTER_PORT"}
    ensures r["LOCAL_RANK"] == IntToString(s.localRank) && r["RANK"] == IntToString(s.localRank)
    ensures r["WORLD_SIZE"] == IntToString(s.worldSize) && r["MASTER_PORT"] == IntToString(s.port)
    ensures forall k :: k in env && k != "LOCAL_RANK" && k != "WORLD_SIZE" && k != "RANK" && k != "MASTER_PORT" ==>
              r[k] == env[k]
  {
    env["LOCAL_RANK" := IntToString(s.localRank)]
       ["WORLD_SIZE" := IntToString(s.worldSize)]
       ["RANK" := IntToString(s.localRank)]
       ["MASTER_PORT" := IntToString(s.port)]
  }

  /** Lines 138-151. */
  function WorldSize(env: map<string, string>): (r: (Result<int, ValueError>, map<string, string>))
    ensures IsK8s(env) ==> r == K8sWorldSize(env)
    // a standalone run takes the first of WORLD_SIZE and PMI_SIZE that is at least 0, else 1
    ensures !IsK8s(env) ==> (r.0.Ok? <==> StandaloneLookups(env).Ok?)
    ensures !IsK8s(env) && r.0.Ok? ==>
              && r.0 == EnvLookup(env, ["WORLD_SIZE", "PMI_SIZE"], "1")
              && r.1 == StandaloneEnv(env, StandaloneLookups(env).value)
    // a failed lookup writes nothing
    ensures !IsK8s(env) && r.0.Err? ==> r == (Err(StandaloneLookups(env).error), env)
  {
    if IsK8s(env) then K8sWorldSize(env)
    else
      match StandaloneLookups(env)
      case Err(e) => (Err(e), env)
      case Ok(s) => (Ok(s.worldSize), StandaloneEnv(env, s))
  }

  /** Line 156: `int(os.environ.get("LOCAL_RANK") or 0)`; unset and empty
      both read as 0. (An empty LOCAL_RANK has already failed at line 104.) */
  function DeviceIndex(env: map<string, string>): (r: Result<int, ValueError>)
    ensures "LOCAL_RANK" !in env || env["LOCAL_RANK"] == "" ==> r == Ok(0)
    ensures "LOCAL_RANK" in env && env["LOCAL_RANK"] != "" ==> r == IntArg(env["LOCAL_RANK"])
  {
    if "LOCAL_RANK" !in env || env["LOCAL_RANK"] == "" then Ok(0) else IntArg(env["LOCAL_RANK"])
  }

  /** Lines 104, 134 and 138-157 for the given batch sizes and environment.
      Line 104 reads LOCAL_RANK (default 0) only to decide whether to print
      the parameters, but a value int() rejects raises there, first. */
  function DistributedSetup(env: map<string, string>, batchSize: int, microBatchSize: int): (r: SetupOutcome)
    ensures EnvInt(env, "LOCAL_RANK", 0).Err? ==>
              r == SetupOutcome(Err(EnvValueError(EnvInt(env, "LOCAL_RANK", 0).error)), env)
    ensures EnvInt(env, "LOCAL_RANK", 0).Ok? && microBatchSize == 0 ==> r == SetupOutcome(Err(ZeroDivisionError), env)
    // the environment is what the world-size lookup leaves, once lines 104 and 134 pass
    ensures r.environ == if EnvInt(env, "LOCAL_RANK", 0).Ok? && microBatchSize != 0 then WorldSize(env).1 else env
    // once lines 104 and 134 pass: a failed world-size lookup raises its ValueError
    ensures EnvInt(env, "LOCAL_RANK", 0).Ok? && microBatchSize != 0 && WorldSize(env).0.Err? ==>
              r.result == Err(EnvValueError(WorldSize(env).0.error))
    // a single process always succeeds; several need a readable device index and a non-zero size
    ensures EnvInt(env, "LOCAL_RANK", 0).Ok? && microBatchSize != 0 && WorldSize(env).0.Ok? ==>
              (r.result.Ok? <==>
                 WorldSize(env).0.value == 1 || (DeviceIndex(WorldSize(env).1).Ok? && WorldSize(env).0.value != 0))
    ensures EnvInt(env, "LOCAL_RANK", 0).Ok? && microBatchSize != 0 && WorldSize(env).0.Ok? &&
            WorldSize(env).0.value != 1 && DeviceIndex(WorldSize(env).1).Err? ==>
              r.result == Err(EnvValueError(DeviceIndex(WorldSize(env).1).error))
    ensures EnvInt(env, "LOCAL_RANK", 0).Ok? && microBatchSize != 0 && WorldSize(env).0 == Ok(0) &&
            DeviceIndex(WorldSize(env).1).Ok? ==>
              r.result == Err(ZeroDivisionError)
    // under DDP the model sits on the device named by LOCAL_RANK as line 156 reads it
    ensures r.result.Ok? && r.result.value.ddp ==> r.result.value.deviceMap == Some(DeviceIndex(WorldSize(env).1).value)
    // the world size is the one read from the environment
    ensures r.result.Ok? ==> WorldSize(env).0.Ok? && r.result.value.worldSize == WorldSize(env).0.value
    // DDP is on exactly when the world size is not 1
    ensures r.result.Ok? ==> (r.result.value.ddp <==> r.result.value.worldSize != 1)
    ensures r.result.Ok? ==> (r.result.value.ddp <==> r.result.value.deviceMap.Some?)
    ensures r.result.Ok? ==> r.result.value.worldSize != 0
    ensures r.result.Ok? && !r.result.value.ddp ==>
              r.result.value.gradientAccumulationSteps == FloorDiv(batchSize, microBatchSize)
    ensures r.result.Ok? && r.result.value.ddp ==>
              r.result.value.gradientAccumulationSteps ==
                FloorDiv(FloorDiv(batchSize, microBatchSize), r.result.value.worldSize)
  {
    if EnvInt(env, "LOCAL_RANK", 0).Err? then SetupOutcome(Err(EnvValueError(EnvInt(env, "LOCAL_RANK", 0).error)), env)
    else if microBatchSize == 0 then SetupOutcome(Err(ZeroDivisionError), env)
    else
      var steps := FloorDiv(batchSize, microBatchSize);
      var (world, env') := WorldSize(env);
      match world
      case Err(e) => SetupOutcome(Err(EnvValueError(e)), env')
      case Ok(worldSize) =>
        if worldSize == 1 then SetupOutcome(Ok(DistConfig(worldSize, false, steps, None)), env')
        else
          match DeviceIndex(env')
          case Err(e) => SetupOutcome(Err(EnvValueError(e)), env')
          case Ok(device) =>
            if worldSize == 0 then SetupOutcome(Err(ZeroDivisionError), env')
            else SetupOutcome(Ok(DistConfig(worldSize, true, FloorDiv(steps, worldSize), Some(device))), env')
  }

  /** With positive sizes, one optimizer step covers at most batchSize
      samples across all ranks, and fewer than one more round of micro
      batches on every rank would exceed it. */
  lemma EffectiveBatchWithinRequested(env: map<string, string>, batchSize: int, microBatchSize: int)
    requires microBatchSize > 0
    requires DistributedSetup(env, batchSize, microBatchSize).result.Ok?
    requires DistributedSetup(env, batchSize, microBatchSize).result.value.worldSize > 0
    ensures var c := DistributedSetup(env, batchSize, microBatchSize).result.value;
            var perStep := microBatchSize * c.worldSize;
            perStep * c.gradientAccumulationSteps <= batchSize < perStep * c.gradientAccumulationSteps + perStep
  {
    var c := DistributedSetup(env, batchSize, microBatchSize).result.value;
    if c.ddp {
      FloorDivNested(batchSize, microBatchSize, c.worldSize);
    }
    assert microBatchSize * c.worldSize > 0;
  }

  /** In a Kubernetes pod, PMI_SIZE=0 means a single process. */
  lemma K8sZeroPmiIsSingleProcess(env: map<string, string>, batchSize: int, microBatchSize: int)
    requires IsK8s(env) && microBatchSize != 0
    requires EnvInt(env, "LOCAL_RANK", 0).Ok?
    requires "PMI_SIZE" in env && env["PMI_SIZE"] == "0"
    ensures var r := DistributedSetup(env, batchSize, microBatchSize);
            && r.result == Ok(DistConfig(1, false, FloorDiv(batchSize, microBatchSize), None))
            && r.environ == env
  {
    assert ParseInt("0") == Some(0);
  }

  /** In a Kubernetes pod without PMI_SIZE the world size is -1, DDP is on,
      and the step count is negated by the floor division. */
  lemma K8sUnsetPmiNegatesSteps(env: map<string, string>, batchSize: int, microBatchSize: int)
    requires IsK8s(env) && microBatchSize != 0
    requires EnvInt(env, "LOCAL_RANK", 0).Ok?
    requires "PMI_SIZE" !in env
    requires DeviceIndex(env).Ok?
    ensures var r := DistributedSetup(env, batchSize, microBatchSize);
            && r.result == Ok(DistConfig(-1, true, -FloorDiv(batchSize, microBatchSize), Some(DeviceIndex(env).value)))
            && r.environ == env
  {
    FloorDivByMinusOne(FloorDiv(batchSize, microBatchSize));
  }

  /** In a Kubernetes pod the setup writes nothing but WORLD_SIZE, and that
      only as the decimal form of a positive PMI_SIZE; once lines 104 and 134
      pass, a positive PMI_SIZE is always written. */
  lemma K8sWritesWorldSizeIffPositive(env: map<string, string>, batchSize: int, microBatchSize: int)
    requires IsK8s(env)
    ensures var r := DistributedSetup(env, batchSize, microBatchSize);
            || r.environ == env
            || (&& "PMI_SIZE" in env
                && ParseInt(env["PMI_SIZE"]).Some? && ParseInt(env["PMI_SIZE"]).value > 0
                && r.environ == env["WORLD_SIZE" := IntToString(ParseInt(env["PMI_SIZE"]).value)])
    ensures EnvInt(env, "LOCAL_RANK", 0).Ok? && microBatchSize != 0 &&
            "PMI_SIZE" in env && ParseInt(env["PMI_SIZE"]).Some? && ParseInt(env["PMI_SIZE"]).value > 0 ==>
              DistributedSetup(env, batchSize, microBatchSize).environ ==
                env["WORLD_SIZE" := IntToString(ParseInt(env["PMI_SIZE"]).value)]
  {
  }

  /** A standalone run writes its local rank into LOCAL_RANK before line 156
      reads it back, so with DDP the device is the local rank, and the
      written WORLD_SIZE reads back as the world size. */
  lemma StandaloneDeviceIsLocalRank(env: map<string, string>, batchSize: int, microBatchSize: int)
    requires !IsK8s(env) && microBatchSize != 0
    requires EnvInt(env, "LOCAL_RANK", 0).Ok?
    requires StandaloneLookups(env).Ok?
    ensures var s := StandaloneLookups(env).value;
            var r := DistributedSetup(env, batchSize, microBatchSize);
            && r.environ == StandaloneEnv(env, s)
            && ParseInt(r.environ["WORLD_SIZE"]) == Some(s.worldSize)
            && (s.worldSize != 1 && s.worldSize != 0 ==> r.result.Ok? && r.result.value.deviceMap == Some(s.localRank))
  {
    var s := StandaloneLookups(env).value;
    var env' := StandaloneEnv(env, s);
    assert env'["LOCAL_RANK"] == IntToString(s.localRank);
    assert env'["WORLD_SIZE"] == IntToString(s.worldSize);
    StrIntRoundTrip(s.localRank);
    StrIntRoundTrip(s.worldSize);
    assert IntToString(s.localRank) != "";
  }

  /** A standalone run with WORLD_SIZE=0 accepts the 0 (line 60), turns
      DDP on, and divides by zero at line 157. */
  lemma StandaloneZeroWorldSizeDivides(env: map<string, string>, batchSize: int, microBatchSize: int)
    requires !IsK8s(env) && microBatchSize != 0
    requires EnvInt(env, "LOCAL_RANK", 0).Ok?
    requires "WORLD_SIZE" in env && env["WORLD_SIZE"] == "0"
    requires EnvLookup(env, ["LOCAL_RANK", "MPI_LOCALRANKID"], "0").Ok?
    requires EnvLookup(env, ["MASTER_PORT"], "29500").Ok?
    ensures DistributedSetup(env, batchSize, microBatchSize).result == Err(ZeroDivisionError)
  {
    assert ParseInt("0") == Some(0);
    var localRank := EnvLookup(env, ["LOCAL_RANK", "MPI_LOCALRANKID"], "0").value;
    assert localRank >= 0 by {
      assert ParseInt("0") == Some(0);
    }
    var env' := StandaloneEnv(env, StandaloneLookups(env).value);
    StrIntRoundTrip(localRank);
    assert DeviceIndex(env') == Ok(localRank);
  }

  /** Lines 104, 134 and 138-157 as the script runs them: reads and writes
      `environ` in place. */
  method ConfigureTraining(environ: Environ, batchSize: int, microBatchSize: int)
    returns (r: Result<DistConfig, SetupError>)
    modifies environ
    ensures SetupOutcome(r, environ.vars) == DistributedSetup(old(environ.vars), batchSize, microBatchSize)
  {
    var printRank := EnvInt(environ.vars, "LOCAL_RANK", 0);
    if printRank.Err? {
      return Err(EnvValueError(printRank.error));
    }
    if microBatchSize == 0 {
      return Err(ZeroDivisionError);
    }
    var gradientAccumulationSteps := FloorDiv(batchSize, microBatchSize);
    var worldSize: int;
    if "LOCAL_POD_NAME" in environ.vars && environ.vars["LOCAL_POD_NAME"] != "" {
      var pmi := EnvInt(environ.vars, "PMI_SIZE", -1);
      if pmi.Err? {
        return Err(EnvValueError(pmi.error));
      }
      if pmi.value > 0 {
        environ.vars := environ.vars["WORLD_SIZE" := IntToString(pmi.value)];
      }
      worldSize := if pmi.value == 0 then 1 else pmi.value;
    } else {
      var localRank := GetIntFromEnv(environ, ["LOCAL_RANK", "MPI_LOCALRANKID"], "0");
      if localRank.Err? {
        return Err(EnvValueError(localRank.error));
      }
      var world := GetIntFromEnv(environ, ["WORLD_SIZE", "PMI_SIZE"], "1");
      if world.Err? {
        return Err(EnvValueError(world.error));
      }
      var port := GetIntFromEnv(environ, ["MASTER_PORT"], "29500");
      if port.Err? {
        return Err(EnvValueError(port.error));
      }
      environ.vars := environ.vars["LOCAL_RANK" := IntToString(localRank.value)];
      environ.vars := environ.vars["WORLD_SIZE" := IntToString(world.value)];
      environ.vars := environ.vars["RANK" := IntToString(localRank.value)];
      environ.vars := environ.vars["MASTER_PORT" := IntToString(port.value)];
      worldSize := world.value;
    }
    var ddp := worldSize != 1;
    var deviceMap := None;
    if ddp {
      var device := DeviceIndex(environ.vars);
      if device.Err? {
        return Err(EnvValueError(device.error));
      }
      deviceMap := Some(device.value);
      if worldSize == 0 {
        return Err(ZeroDivisionError);
      }
      gradientAccumulationSteps := FloorDiv(gradientAccumulationSteps, worldSize);
    }
    r := Ok(DistConfig(worldSize, ddp, gradientAccumulationSteps, deviceMap));
  }
}
