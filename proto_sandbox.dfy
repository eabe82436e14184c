/**
 * `ProtoWasmSandbox`: a VM holding the Wasm runtime binary that has not
 * been started. Host functions are registered on it, and every registration
 * is also recorded as a definition; starting the runtime sends those
 * definitions to the guest and gives a `WasmSandbox`.
 */
module ProtoSandbox {
  import V = Values
  import opened Host
  import opened Metrics
  import opened WasmSandboxes

  const HOST_PRINT: string := "HostPrint"
  const INIT_WASM_RUNTIME: string := "InitWasmRuntime"
  const INNER_WAS_NONE: string := "inner sandbox was none"
  const NO_INNER_SANDBOX: string := "No inner sandbox found."
  const SERIALIZE_FAILED: string := "Failed to serialize host function details"

  /** The host library always registers `HostPrint(String) -> Int`. */
  const HOST_PRINT_DEFINITION: V.HostFunctionDefinition :=
    V.HostFunctionDefinition(HOST_PRINT, V.Some([V.ParameterType.String]), V.ReturnType.Int)

  /**
   * The started sandbox `load_runtime` produces: the definitions must
   * serialize, the inner sandbox must be there and start, and the guest's
   * `InitWasmRuntime`, given the serialized definitions, must answer 0.
   */
  function RuntimeOutcome(
    definitions: seq<V.HostFunctionDefinition>, inner: V.Option<Uninitialized>,
    serialize: seq<V.HostFunctionDefinition> -> V.Option<seq<V.Byte>>,
    evolve: Uninitialized -> Result<MultiUse>,
    callInit: (MultiUse, seq<V.Byte>) -> Result<V.Int32>): (r: Result<MultiUse>)
    ensures r.Ok? <==>
      && serialize(definitions).Some?
      && inner.Some?
      && evolve(inner.value).Ok?
      && callInit(evolve(inner.value).value, serialize(definitions).value) == Ok(0)
    ensures r.Ok? ==> r.value == evolve(inner.value).value
    ensures serialize(definitions).None? ==> r == Err(Message(SERIALIZE_FAILED))
    ensures serialize(definitions).Some? && inner.None? ==> r == Err(Message(NO_INNER_SANDBOX))
    ensures inner.Some? && evolve(inner.value).Ok? && serialize(definitions).Some? ==>
      var status := callInit(evolve(inner.value).value, serialize(definitions).value);
      status.Ok? && status.value != 0 ==> r == Err(NonZeroReturn(INIT_WASM_RUNTIME, status.value))
  {
    match serialize(definitions)
    case None => Err(Message(SERIALIZE_FAILED))
    case Some(bytes) =>
      match inner
      case None => Err(Message(NO_INNER_SANDBOX))
      case Some(uninitialized) =>
        var sandbox :- evolve(uninitialized);
        var status :- callInit(sandbox, bytes);
        if status != 0 then Err(NonZeroReturn(INIT_WASM_RUNTIME, status)) else Ok(sandbox)
  }

  class ProtoWasmSandbox {
    const metrics: Recorder
    var inner: V.Option<Uninitialized>
    /** The definitions of the registered host functions, in registration order. */
    var hostFunctionDefinitions: seq<V.HostFunctionDefinition>
    var dropped: bool

    /** Wraps a new VM, counting it as active and as created. */
    constructor (metrics: Recorder, inner: Uninitialized)
      modifies metrics
      ensures this.metrics == metrics && this.inner == V.Some(inner) && !dropped
      ensures hostFunctionDefinitions == [HOST_PRINT_DEFINITION]
      ensures metrics.values ==
        Bumped(Bumped(old(metrics.values), ActiveProtoWasmSandboxes, 1), TotalProtoWasmSandboxes, 1)
    {
      this.metrics := metrics;
      this.inner := V.Some(inner);
      hostFunctionDefinitions := [HOST_PRINT_DEFINITION];
      dropped := false;
      new;
      metrics.Increment(ActiveProtoWasmSandboxes);
      metrics.Increment(TotalProtoWasmSandboxes);
    }

    /**
     * Creates the VM from `binary` with `config`; the metrics move only
     * when the host library succeeds.
     */
    static method New(
      metrics: Recorder, config: V.Option<SandboxConfiguration>, binary: GuestBinary,
      create: (GuestBinary, V.Option<SandboxConfiguration>) -> Result<Uninitialized>)
      returns (r: Result<ProtoWasmSandbox>)
      modifies metrics
      ensures r.Ok? <==> create(binary, config).Ok?
      ensures r.Err? ==> r.error == create(binary, config).error && metrics.values == old(metrics.values)
      ensures r.Ok? ==>
        && fresh(r.value) && r.value.metrics == metrics && !r.value.dropped
        && r.value.inner == V.Some(create(binary, config).value)
        && r.value.hostFunctionDefinitions == [HOST_PRINT_DEFINITION]
        && metrics.values ==
             Bumped(Bumped(old(metrics.values), ActiveProtoWasmSandboxes, 1), TotalProtoWasmSandboxes, 1)
    {
      var created := create(binary, config);
      if created.Err? {
        return Err(created.error);
      }
      var proto := new ProtoWasmSandbox(metrics, created.value);
      r := Ok(proto);
    }

    /**
     * Registers a host function: its definition is recorded whether or not
     * the host library accepts the registration, and the outcome is the
     * library's.
     */
    method Register(
      name: string, parameterTypes: seq<V.ParameterType>, returnType: V.ReturnType,
      register: (Uninitialized, string) -> Result<()>) returns (r: Result<()>)
      requires !dropped
      modifies this
      ensures hostFunctionDefinitions ==
        old(hostFunctionDefinitions) + [V.HostFunctionDefinition(name, V.Some(parameterTypes), returnType)]
      ensures inner == old(inner) && !dropped
      ensures inner.None? ==> r == Err(Message(INNER_WAS_NONE))
      ensures inner.Some? ==> r == register(inner.value, name)
    {
      hostFunctionDefinitions :=
        hostFunctionDefinitions + [V.HostFunctionDefinition(name, V.Some(parameterTypes), returnType)];
      match inner {
        case None => r := Err(Message(INNER_WAS_NONE));
        case Some(uninitialized) => r := register(uninitialized, name);
      }
    }

    /** `Registerable::register_host_function`: the same as `Register`. */
    method RegisterHostFunction(
      name: string, parameterTypes: seq<V.ParameterType>, returnType: V.ReturnType,
      register: (Uninitialized, string) -> Result<()>) returns (r: Result<()>)
      requires !dropped
      modifies this
      ensures hostFunctionDefinitions ==
        old(hostFunctionDefinitions) + [V.HostFunctionDefinition(name, V.Some(parameterTypes), returnType)]
      ensures inner == old(inner) && !dropped
      ensures inner.None? ==> r == Err(Message(INNER_WAS_NONE))
      ensures inner.Some? ==> r == register(inner.value, name)
    {
      r := Register(name, parameterTypes, returnType, register);
    }

    /**
     * Replaces the implementation of `HostPrint`. Its definition is recorded
     * from the start, so no definition is added and nothing here changes.
     */
    method RegisterPrint(printFn: HostFunction, registerPrint: (Uninitialized, HostFunction) -> Result<()>)
      returns (r: Result<()>)
      requires !dropped
      ensures inner.None? ==> r == Err(Message(INNER_WAS_NONE))
      ensures inner.Some? ==> r == registerPrint(inner.value, printFn)
    {
      match inner {
        case None => r := Err(Message(INNER_WAS_NONE));
        case Some(uninitialized) => r := registerPrint(uninitialized, printFn);
      }
    }

    /**
     * Consumes this sandbox: takes the recorded definitions, serializes them,
     * starts the VM and calls `InitWasmRuntime` with the serialized
     * definitions. On success a new `WasmSandbox`, active and counted, holds
     * the started VM. Either way this sandbox is dropped and no longer
     * active.
     */
    method LoadRuntime(
      serialize: seq<V.HostFunctionDefinition> -> V.Option<seq<V.Byte>>,
      evolve: Uninitialized -> Result<MultiUse>,
      callInit: (MultiUse, seq<V.Byte>) -> Result<V.Int32>) returns (r: Result<WasmSandbox>)
      requires !dropped
      modifies this, metrics
      ensures dropped && hostFunctionDefinitions == []
      ensures var outcome := RuntimeOutcome(old(hostFunctionDefinitions), old(inner), serialize, evolve, callInit);
        && (r.Ok? <==> outcome.Ok?)
        && (r.Err? ==> r.error == outcome.error)
        && (r.Ok? ==> (fresh(r.value) && r.value.metrics == metrics
              && r.value.inner == V.Some(outcome.value) && !r.value.dropped))
        && (metrics.values ==
              if outcome.Ok? then
                Bumped(Bumped(Bumped(old(metrics.values),
                  ActiveWasmSandboxes, 1), TotalWasmSandboxes, 1), ActiveProtoWasmSandboxes, -1)
              else
                Bumped(old(metrics.values), ActiveProtoWasmSandboxes, -1))
    {
      var definitions := hostFunctionDefinitions;
      hostFunctionDefinitions := [];
      var bytes := serialize(definitions);
      if bytes.None? {
        r := Err(Message(SERIALIZE_FAILED));
      } else {
        var taken := inner;
        inner := V.None;
        if taken.None? {
          r := Err(Message(NO_INNER_SANDBOX));
        } else {
          var started := evolve(taken.value);
          if started.Err? {
            r := Err(started.error);
          } else {
            var status := callInit(started.value, bytes.value);
            if status.Err? {
              r := Err(status.error);
            } else if status.value != 0 {
              r := Err(NonZeroReturn(INIT_WASM_RUNTIME, status.value));
            } else {
              var wasm := new WasmSandbox(metrics, started.value);
              r := Ok(wasm);
            }
          }
        }
      }
      Drop();
    }

    /** Dropping a sandbox makes it no longer active. */
    method Drop()
      requires !dropped
      modifies this, metrics
      ensures dropped && inner == old(inner) && hostFunctionDefinitions == old(hostFunctionDefinitions)
      ensures metrics.values == Bumped(old(metrics.values), ActiveProtoWasmSandboxes, -1)
    {
      dropped := true;
      metrics.Decrement(ActiveProtoWasmSandboxes);
    }
  }
}
