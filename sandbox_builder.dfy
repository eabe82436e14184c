/**
 * `SandboxBuilder`: the configuration a `ProtoWasmSandbox` is built with.
 * The builder raises the host library's defaults for the guest input
 * buffer and heap to minimums large enough for the Wasm runtime, and
 * ignores requests for an input buffer, stack or heap at or below those
 * minimums.
 */
module Builder {
  import V = Values
  import opened Host
  import opened Metrics
  import opened ProtoSandbox

  const MIN_STACK_SIZE: V.UInt64 := 64 * 1024
  const MIN_INPUT_DATA_SIZE: nat := 192 * 1024
  const MIN_HEAP_SIZE: V.UInt64 := 1024 * 1024

  /** The input buffer and heap are at least their minimums. */
  predicate AtLeastMinimums(config: SandboxConfiguration) {
    config.inputDataSize >= MIN_INPUT_DATA_SIZE && config.heapSize >= MIN_HEAP_SIZE
  }

  datatype SandboxBuilder = SandboxBuilder(config: SandboxConfiguration, hostPrintFn: V.Option<HostFunction>)
  {
    /** The guest listens for gdb on `port` (only in builds with gdb support). */
    function WithDebuggingEnabled(port: V.UInt16): (r: SandboxBuilder)
      ensures r.config.guestDebugPort == V.Some(port)
      ensures r == this.(config := config.(guestDebugPort := V.Some(port)))
    {
      this.(config := config.(guestDebugPort := V.Some(port)))
    }

    /** Printing from the guest goes to `f` instead of the host library's default. */
    function WithHostPrintFn(f: HostFunction): (r: SandboxBuilder)
      ensures r.hostPrintFn == V.Some(f) && r.config == config
    {
      this.(hostPrintFn := V.Some(f))
    }

    function WithGuestOutputBufferSize(size: nat): (r: SandboxBuilder)
      ensures r.config.outputDataSize == size
      ensures r == this.(config := config.(outputDataSize := size))
    {
      this.(config := config.(outputDataSize := size))
    }

    /** Takes `size` only above the minimum; a smaller request changes nothing. */
    function WithGuestInputBufferSize(size: nat): (r: SandboxBuilder)
      ensures size > MIN_INPUT_DATA_SIZE ==> r == this.(config := config.(inputDataSize := size))
      ensures size <= MIN_INPUT_DATA_SIZE ==> r == this
      ensures AtLeastMinimums(config) ==> AtLeastMinimums(r.config)
    {
      if size > MIN_INPUT_DATA_SIZE then this.(config := config.(inputDataSize := size)) else this
    }

    /** Takes `size` only above the minimum; a smaller request changes nothing. */
    function WithGuestStackSize(size: V.UInt64): (r: SandboxBuilder)
      ensures size > MIN_STACK_SIZE ==> r == this.(config := config.(stackSize := size))
      ensures size <= MIN_STACK_SIZE ==> r == this
      ensures AtLeastMinimums(config) ==> AtLeastMinimums(r.config)
    {
      if size > MIN_STACK_SIZE then this.(config := config.(stackSize := size)) else this
    }

    /** Takes `size` only above the minimum; a smaller request changes nothing. */
    function WithGuestHeapSize(size: V.UInt64): (r: SandboxBuilder)
      ensures size > MIN_HEAP_SIZE ==> r == this.(config := config.(heapSize := size))
      ensures size <= MIN_HEAP_SIZE ==> r == this
      ensures AtLeastMinimums(config) ==> AtLeastMinimums(r.config)
    {
      if size > MIN_HEAP_SIZE then this.(config := config.(heapSize := size)) else this
    }

    /** A core dump is written when the guest crashes (only in builds with crashdump support). */
    function WithCrashdumpEnabled(enabled: bool): (r: SandboxBuilder)
      ensures r.config.guestCoreDump == enabled
      ensures r == this.(config := config.(guestCoreDump := enabled))
    {
      this.(config := config.(guestCoreDump := enabled))
    }

    function WithFunctionDefinitionSize(size: nat): (r: SandboxBuilder)
      ensures r.config.hostFunctionDefinitionSize == size
      ensures r == this.(config := config.(hostFunctionDefinitionSize := size))
    {
      this.(config := config.(hostFunctionDefinitionSize := size))
    }
  }

  /**
   * A new builder: the host library's `defaults`, with the input buffer and
   * heap raised to their minimums, and the default print function.
   */
  function NewBuilder(defaults: SandboxConfiguration): (r: SandboxBuilder)
    ensures AtLeastMinimums(r.config)
    ensures r.config.inputDataSize == MIN_INPUT_DATA_SIZE && r.config.heapSize == MIN_HEAP_SIZE
    ensures r.config.stackSize == defaults.stackSize && r.config.outputDataSize == defaults.outputDataSize
    ensures r.hostPrintFn == V.None
  {
    SandboxBuilder(defaults.(inputDataSize := MIN_INPUT_DATA_SIZE, heapSize := MIN_HEAP_SIZE), V.None)
  }

  /** One call on a builder. */
  datatype BuilderStep =
    | DebuggingEnabled(port: V.UInt16)
    | HostPrintFn(f: HostFunction)
    | GuestOutputBufferSize(outputSize: nat)
    | GuestInputBufferSize(inputSize: nat)
    | GuestStackSize(stackSize: V.UInt64)
    | GuestHeapSize(heapSize: V.UInt64)
    | CrashdumpEnabled(enabled: bool)
    | FunctionDefinitionSize(definitionSize: nat)

  function Apply(b: SandboxBuilder, step: BuilderStep): SandboxBuilder {
    match step
    case DebuggingEnabled(port) => b.WithDebuggingEnabled(port)
    case HostPrintFn(f) => b.WithHostPrintFn(f)
    case GuestOutputBufferSize(size) => b.WithGuestOutputBufferSize(size)
    case GuestInputBufferSize(size) => b.WithGuestInputBufferSize(size)
    case GuestStackSize(size) => b.WithGuestStackSize(size)
    case GuestHeapSize(size) => b.WithGuestHeapSize(size)
    case CrashdumpEnabled(enabled) => b.WithCrashdumpEnabled(enabled)
    case FunctionDefinitionSize(size) => b.WithFunctionDefinitionSize(size)
  }

  /** A chain of builder calls, first step first. */
  function ApplyAll(b: SandboxBuilder, steps: seq<BuilderStep>): SandboxBuilder
    decreases |steps|
  {
    if steps == [] then b else ApplyAll(Apply(b, steps[0]), steps[1..])
  }

  /** No chain of builder calls takes the input buffer or heap below its minimum. */
  lemma {:induction false} StepsKeepMinimums(b: SandboxBuilder, steps: seq<BuilderStep>)
    requires AtLeastMinimums(b.config)
    ensures AtLeastMinimums(ApplyAll(b, steps).config)
    decreases |steps|
  {
    if steps != [] {
      StepsKeepMinimums(Apply(b, steps[0]), steps[1..]);
    }
  }

  /** Every builder made by `NewBuilder` and any chain of calls has the minimum input buffer and heap. */
  lemma BuiltConfigHasMinimums(defaults: SandboxConfiguration, steps: seq<BuilderStep>)
    ensures AtLeastMinimums(ApplyAll(NewBuilder(defaults), steps).config)
  {
    StepsKeepMinimums(NewBuilder(defaults), steps);
  }

  /**
   * The stack size is the host library's default until a request above the
   * minimum is made, and after that always above the minimum.
   */
  lemma {:induction false} StackIsDefaultOrAboveMinimum(b: SandboxBuilder, steps: seq<BuilderStep>, default: V.UInt64)
    requires b.config.stackSize == default || b.config.stackSize > MIN_STACK_SIZE
    ensures var s := ApplyAll(b, steps).config.stackSize; s == default || s > MIN_STACK_SIZE
    decreases |steps|
  {
    if steps != [] {
      StackIsDefaultOrAboveMinimum(Apply(b, steps[0]), steps[1..], default);
    }
  }

  /**
   * Builds the sandbox: fails with `NoHypervisorFound` when there is no
   * hypervisor, creates the VM from the Wasm runtime binary with the
   * builder's configuration, and installs the print function if one was
   * given. A failed installation drops the new sandbox, so it is counted
   * as created but not as active.
   */
  method Build(
    b: SandboxBuilder, hypervisorPresent: bool, metrics: Recorder, runtime: GuestBinary,
    create: (GuestBinary, V.Option<SandboxConfiguration>) -> Result<Uninitialized>,
    registerPrint: (Uninitialized, HostFunction) -> Result<()>) returns (r: Result<ProtoWasmSandbox>)
    modifies metrics
    ensures !hypervisorPresent ==> r == Err(NoHypervisorFound) && metrics.values == old(metrics.values)
    ensures hypervisorPresent && create(runtime, V.Some(b.config)).Err? ==>
      r.Err? && r.error == create(runtime, V.Some(b.config)).error && metrics.values == old(metrics.values)
    ensures hypervisorPresent && create(runtime, V.Some(b.config)).Ok? ==>
      var created := create(runtime, V.Some(b.config)).value;
      var bumped := Bumped(Bumped(old(metrics.values), ActiveProtoWasmSandboxes, 1), TotalProtoWasmSandboxes, 1);
      if b.hostPrintFn.Some? && registerPrint(created, b.hostPrintFn.value).Err? then
        && r.Err? && r.error == registerPrint(created, b.hostPrintFn.value).error
        && metrics.values == Bumped(bumped, ActiveProtoWasmSandboxes, -1)
      else
        && r.Ok? && fresh(r.value) && r.value.metrics == metrics && !r.value.dropped
        && r.value.inner == V.Some(created)
        && r.value.hostFunctionDefinitions == [HOST_PRINT_DEFINITION]
        && metrics.values == bumped
  {
    if !hypervisorPresent {
      return Err(NoHypervisorFound);
    }
    r := ProtoWasmSandbox.New(metrics, V.Some(b.config), runtime, create);
    if r.Ok? && b.hostPrintFn.Some? {
      var proto := r.value;
      var registered := proto.RegisterPrint(b.hostPrintFn.value, registerPrint);
      if registered.Err? {
        proto.Drop();
        r := Err(registered.error);
      }
    }
  }

  /**
   * `ProtoWasmSandbox::default()`: builds with a new builder and panics if
   * that fails.
   */
  method DefaultSandbox(
    defaults: SandboxConfiguration, hypervisorPresent: bool, metrics: Recorder, runtime: GuestBinary,
    create: (GuestBinary, V.Option<SandboxConfiguration>) -> Result<Uninitialized>,
    registerPrint: (Uninitialized, HostFunction) -> Result<()>) returns (r: Result<ProtoWasmSandbox>)
    modifies metrics
    ensures r.Ok? <==> hypervisorPresent && create(runtime, V.Some(NewBuilder(defaults).config)).Ok?
    ensures r.Err? ==> r.error == Panic(V.UNWRAP_FAILED) && metrics.values == old(metrics.values)
    ensures r.Ok? ==>
      && fresh(r.value) && r.value.metrics == metrics && !r.value.dropped
      && r.value.inner == V.Some(create(runtime, V.Some(NewBuilder(defaults).config)).value)
      && r.value.hostFunctionDefinitions == [HOST_PRINT_DEFINITION]
      && metrics.values ==
           Bumped(Bumped(old(metrics.values), ActiveProtoWasmSandboxes, 1), TotalProtoWasmSandboxes, 1)
  {
    r := Build(NewBuilder(defaults), hypervisorPresent, metrics, runtime, create, registerPrint);
    if r.Err? {
      r := Err(Panic(V.UNWRAP_FAILED));
    }
  }
}
