/**
 * Whole lifecycles of a sandbox, put together from the operations of the
 * host side, with what they leave in the metrics.
 */
module Lifecycle {
  import V = Values
  import opened Host
  import opened Metrics
  import opened WasmSandboxes
  import opened ProtoSandbox
  import opened Builder

  /**
   * Build a default sandbox, start the runtime, load a module file, unload
   * it and drop the resulting `WasmSandbox`, on a fresh recorder, with
   * every step succeeding. Afterwards all eight metrics have been touched,
   * no sandbox is active, and the totals count one proto sandbox, two Wasm
   * sandboxes (one from starting, one from unloading), one loaded sandbox,
   * one load and one unload.
   */
  method LoadAndUnloadOnce(
    defaults: SandboxConfiguration, runtime: GuestBinary,
    create: (GuestBinary, V.Option<SandboxConfiguration>) -> Result<Uninitialized>,
    registerPrint: (Uninitialized, HostFunction) -> Result<()>,
    serialize: seq<V.HostFunctionDefinition> -> V.Option<seq<V.Byte>>,
    startRuntime: Uninitialized -> Result<MultiUse>,
    callInit: (MultiUse, seq<V.Byte>) -> Result<V.Int32>,
    mapped: Result<V.UInt64>, read: Result<seq<V.Byte>>, guest: GuestCalls,
    evolve: MultiUse -> Result<MultiUse>, devolve: MultiUse -> Result<MultiUse>)
    returns (metrics: Recorder)
    requires create(runtime, V.Some(NewBuilder(defaults).config)).Ok?
    requires serialize([HOST_PRINT_DEFINITION]).Some?
    requires startRuntime(create(runtime, V.Some(NewBuilder(defaults).config)).value).Ok?
    requires var started := startRuntime(create(runtime, V.Some(NewBuilder(defaults).config)).value).value;
      && callInit(started, serialize([HOST_PRINT_DEFINITION]).value) == Ok(0)
      && FileTransition(mapped, read, guest).Ok?
      && evolve(started).Ok?
      && devolve(evolve(started).value).Ok?
    ensures fresh(metrics)
    ensures metrics.values.Keys == GAUGES + COUNTERS && |metrics.values| == 8
    ensures forall name <- GAUGES :: metrics.Value(name) == 0
    ensures metrics.Value(TotalProtoWasmSandboxes) == 1
    ensures metrics.Value(TotalWasmSandboxes) == 2
    ensures metrics.Value(TotalLoadedWasmSandboxes) == 1
    ensures metrics.Value(SandboxLoads) == 1 && metrics.Value(SandboxUnloads) == 1
  {
    metrics := new Recorder();
    var proto := DefaultSandbox(defaults, true, metrics, runtime, create, registerPrint);
    assert proto.Ok?;
    ghost var v1 := metrics.values;
    assert v1 == Bumped(Bumped(map[], ActiveProtoWasmSandboxes, 1), TotalProtoWasmSandboxes, 1);
    var wasm := proto.value.LoadRuntime(serialize, startRuntime, callInit);
    assert wasm.Ok?;
    ghost var v2 := metrics.values;
    assert v2 == Bumped(Bumped(Bumped(v1, ActiveWasmSandboxes, 1), TotalWasmSandboxes, 1), ActiveProtoWasmSandboxes, -1);
    var loaded := wasm.value.LoadModule(mapped, read, guest, evolve);
    assert loaded.Ok?;
    ghost var v3 := metrics.values;
    var unloaded := loaded.value.UnloadModule(devolve);
    assert unloaded.Ok?;
    ghost var v4 := metrics.values;
    unloaded.value.Drop();
    OnceValues(v1, v2, v3, v4, metrics.values);
  }

  /** The metrics after each step of `LoadAndUnloadOnce`. */
  lemma OnceValues(v1: map<Metric, int>, v2: map<Metric, int>, v3: map<Metric, int>, v4: map<Metric, int>, v5: map<Metric, int>)
    requires v1 == Bumped(Bumped(map[], ActiveProtoWasmSandboxes, 1), TotalProtoWasmSandboxes, 1)
    requires v2 == Bumped(Bumped(Bumped(v1, ActiveWasmSandboxes, 1), TotalWasmSandboxes, 1), ActiveProtoWasmSandboxes, -1)
    requires v3 == Bumped(Bumped(Bumped(Bumped(v2, SandboxLoads, 1), ActiveLoadedWasmSandboxes, 1),
      TotalLoadedWasmSandboxes, 1), ActiveWasmSandboxes, -1)
    requires v4 == Bumped(Bumped(Bumped(Bumped(v3, ActiveWasmSandboxes, 1), TotalWasmSandboxes, 1),
      ActiveLoadedWasmSandboxes, -1), SandboxUnloads, 1)
    requires v5 == Bumped(v4, ActiveWasmSandboxes, -1)
    ensures v5.Keys == GAUGES + COUNTERS && |v5| == 8
    ensures forall name <- GAUGES :: ValueIn(v5, name) == 0
    ensures ValueIn(v5, TotalProtoWasmSandboxes) == 1
    ensures ValueIn(v5, TotalWasmSandboxes) == 2
    ensures ValueIn(v5, TotalLoadedWasmSandboxes) == 1
    ensures ValueIn(v5, SandboxLoads) == 1 && ValueIn(v5, SandboxUnloads) == 1
  {
    EightDistinctMetrics();
  }

  /** The metrics `n` load-and-unload cycles add: one load, unload and creation of each kind per cycle. */
  function CycleDelta(name: Metric, n: nat): int {
    if name in {SandboxLoads, SandboxUnloads, TotalLoadedWasmSandboxes, TotalWasmSandboxes} then n else 0
  }

  /**
   * Reuse a `WasmSandbox` `n` times: load a module from `buffer`, unload it,
   * and go on with the `WasmSandbox` the unload gives back. When every load
   * and unload succeeds, each cycle counts one load, one unload, one loaded
   * sandbox and one Wasm sandbox created, and leaves every gauge as it was.
   */
  method LoadUnloadCycles(
    sandbox: WasmSandbox, n: nat, buffer: seq<V.Byte>, guest: GuestCalls,
    evolve: MultiUse -> Result<MultiUse>, devolve: MultiUse -> Result<MultiUse>)
    returns (last: WasmSandbox)
    requires !sandbox.dropped && sandbox.inner.Some?
    requires BufferTransition(buffer, guest).Ok?
    requires forall m :: evolve(m).Ok? && devolve(m).Ok?
    modifies sandbox, sandbox.metrics
    ensures last.metrics == sandbox.metrics && !last.dropped && last.inner.Some?
    ensures n > 0 ==> fresh(last) && sandbox.dropped
    ensures forall name ::
      ValueIn(sandbox.metrics.values, name) == ValueIn(old(sandbox.metrics.values), name) + CycleDelta(name, n)
  {
    var metrics := sandbox.metrics;
    last := sandbox;
    var i := 0;
    while i < n
      invariant 0 <= i <= n
      invariant last.metrics == metrics && !last.dropped && last.inner.Some?
      invariant i == 0 ==> last == sandbox
      invariant i > 0 ==> fresh(last) && sandbox.dropped
      invariant forall name ::
        ValueIn(metrics.values, name) == ValueIn(old(metrics.values), name) + CycleDelta(name, i)
    {
      ghost var v0 := metrics.values;
      var loaded := last.LoadModuleFromBuffer(buffer, guest, evolve);
      ghost var v1 := metrics.values;
      var unloaded := loaded.value.UnloadModule(devolve);
      CycleValues(v0, v1, metrics.values, i);
      last := unloaded.value;
      i := i + 1;
    }
  }

  /** One load-and-unload cycle adds one to each of the counters `CycleDelta` names. */
  lemma CycleValues(v0: map<Metric, int>, v1: map<Metric, int>, v2: map<Metric, int>, i: nat)
    requires v1 == Bumped(Bumped(Bumped(Bumped(v0, SandboxLoads, 1), ActiveLoadedWasmSandboxes, 1),
      TotalLoadedWasmSandboxes, 1), ActiveWasmSandboxes, -1)
    requires v2 == Bumped(Bumped(Bumped(Bumped(v1, ActiveWasmSandboxes, 1), TotalWasmSandboxes, 1),
      ActiveLoadedWasmSandboxes, -1), SandboxUnloads, 1)
    ensures forall name :: ValueIn(v2, name) - ValueIn(v0, name) == CycleDelta(name, i + 1) - CycleDelta(name, i)
  {
  }
}
