/**
 * The sandbox metrics: three gauges counting the sandboxes alive in each
 * state, and five counters of sandboxes created and of module loads and
 * unloads over the life of the process. The recorder maps each metric to
 * its value; a metric appears in it once it has been touched.
 */
module Metrics {
  /** Gauges: sandboxes currently alive, per state. */
  const ACTIVE_PROTO_WASM_SANDBOXES: string := "active_proto_wasm_sandboxes"
  const ACTIVE_WASM_SANDBOXES: string := "active_wasm_sandboxes"
  const ACTIVE_LOADED_WASM_SANDBOXES: string := "active_loaded_wasm_sandboxes"

  /** Counters: sandboxes created, per state. */
  const TOTAL_PROTO_WASM_SANDBOXES: string := "proto_wasm_sandboxes_total"
  const TOTAL_WASM_SANDBOXES: string := "wasm_sandboxes_total"
  const TOTAL_LOADED_WASM_SANDBOXES: string := "loaded_wasm_sandboxes_total"

  /** Counters: module loads and unloads. */
  const SANDBOX_LOADS: string := "sandbox_loads_total"
  const SANDBOX_UNLOADS: string := "sandbox_unloads_total"

  /** The eight metrics, each recorded under its name. */
  datatype Metric =
    | ActiveProtoWasmSandboxes | ActiveWasmSandboxes | ActiveLoadedWasmSandboxes
    | TotalProtoWasmSandboxes | TotalWasmSandboxes | TotalLoadedWasmSandboxes
    | SandboxLoads | SandboxUnloads
  {
    function Name(): string {
      match this
      case ActiveProtoWasmSandboxes => ACTIVE_PROTO_WASM_SANDBOXES
      case ActiveWasmSandboxes => ACTIVE_WASM_SANDBOXES
      case ActiveLoadedWasmSandboxes => ACTIVE_LOADED_WASM_SANDBOXES
      case TotalProtoWasmSandboxes => TOTAL_PROTO_WASM_SANDBOXES
      case TotalWasmSandboxes => TOTAL_WASM_SANDBOXES
      case TotalLoadedWasmSandboxes => TOTAL_LOADED_WASM_SANDBOXES
      case SandboxLoads => SANDBOX_LOADS
      case SandboxUnloads => SANDBOX_UNLOADS
    }

    /** Gauges go up and down; counters only go up. */
    predicate IsGauge() {
      ActiveProtoWasmSandboxes? || ActiveWasmSandboxes? || ActiveLoadedWasmSandboxes?
    }
  }

  const GAUGES: set<Metric> := {ActiveProtoWasmSandboxes, ActiveWasmSandboxes, ActiveLoadedWasmSandboxes}
  const COUNTERS: set<Metric> :=
    {TotalProtoWasmSandboxes, TotalWasmSandboxes, TotalLoadedWasmSandboxes, SandboxLoads, SandboxUnloads}

  /**
   * The eight metrics are recorded under eight different names: three
   * gauges and five counters.
   */
  lemma EightDistinctMetrics()
    ensures GAUGES !! COUNTERS && |GAUGES + COUNTERS| == 8
    ensures forall m: Metric :: m in GAUGES + COUNTERS && (m in GAUGES <==> m.IsGauge())
    ensures forall m1: Metric, m2: Metric :: m1.Name() == m2.Name() ==> m1 == m2
  {
    assert |GAUGES| == 3;
    assert |COUNTERS| == 5;
    forall m: Metric
      ensures m in GAUGES + COUNTERS && (m in GAUGES <==> m.IsGauge())
    {
      match m
      case ActiveProtoWasmSandboxes =>
      case ActiveWasmSandboxes =>
      case ActiveLoadedWasmSandboxes =>
      case TotalProtoWasmSandboxes =>
      case TotalWasmSandboxes =>
      case TotalLoadedWasmSandboxes =>
      case SandboxLoads =>
      case SandboxUnloads =>
    }
    forall m1: Metric, m2: Metric | m1 != m2
      ensures m1.Name() != m2.Name()
    {
    }
  }

  /** The value of a metric in a snapshot; untouched metrics read as 0. */
  function ValueIn(values: map<Metric, int>, m: Metric): int {
    if m in values then values[m] else 0
  }

  /** A snapshot with one metric moved by `delta` and every other metric as it was. */
  function Bumped(values: map<Metric, int>, m: Metric, delta: int): map<Metric, int> {
    values[m := ValueIn(values, m) + delta]
  }

  /** The process-wide metrics recorder. */
  class Recorder {
    var values: map<Metric, int>

    constructor ()
      ensures values == map[]
    {
      values := map[];
    }

    function Value(m: Metric): int
      reads this
    {
      ValueIn(values, m)
    }

    /** `gauge!(name).increment(1)` and `counter!(name).increment(1)`. */
    method Increment(m: Metric)
      modifies this
      ensures values == Bumped(old(values), m, 1)
    {
      values := Bumped(values, m, 1);
    }

    /** `gauge!(name).decrement(1)`. */
    method Decrement(m: Metric)
      modifies this
      ensures values == Bumped(old(values), m, -1)
    {
      values := Bumped(values, m, -1);
    }
  }
}
