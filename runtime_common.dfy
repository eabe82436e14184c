/**
 * What the two guest runtimes (core-module and component) share: the
 * wasmtime engine configuration and the argument check of the
 * `LoadWasmModule` / `LoadWasmModulePhys` guest functions.
 */
module RuntimeCommon {
  import opened Values

  const INVALID_LOAD: string := "Invalid parameters passed to LoadWasmModule"
  const INVALID_LOAD_PHYS: string := "Invalid parameters passed to LoadWasmModulePhys"
  const UNWRAP_NONE: string := "called `Option::unwrap()` on a `None` value"
  const INDEX_ZERO_OF_EMPTY: string := "index out of bounds: the len is 0 but the index is 0"
  const INDEX_ONE_OF_ONE: string := "index out of bounds: the len is 1 but the index is 1"

  /** The wasmtime `Config` settings the runtime makes. */
  datatype Config = Config(
    memoryReservation: nat,
    memoryGuardSize: nat,
    memoryReservationForGrowth: nat,
    guardBeforeLinearMemory: bool,
    customCodeMemory: bool)

  /**
   * No reservation, no guard pages, no room reserved for growth, no guard
   * before linear memory, and code memory provided by the platform layer:
   * the guest has no lazy commit and no guard pages.
   */
  const RUNTIME_CONFIG: Config := Config(0, 0, 0, false, true)

  datatype Engine = Engine(config: Config)

  /** The guest functions the runtimes register at start-up, in order. */
  const PRINT_OUTPUT: GuestFunctionDefinition :=
    GuestFunctionDefinition("PrintOutput", [ParameterType.String], ReturnType.Int)
  const INIT_WASM_RUNTIME: GuestFunctionDefinition :=
    GuestFunctionDefinition("InitWasmRuntime", [], ReturnType.Int)
  const LOAD_WASM_MODULE: GuestFunctionDefinition :=
    GuestFunctionDefinition("LoadWasmModule", [ParameterType.VecBytes, ParameterType.Int], ReturnType.Int)
  const LOAD_WASM_MODULE_PHYS: GuestFunctionDefinition :=
    GuestFunctionDefinition("LoadWasmModulePhys", [ParameterType.ULong, ParameterType.ULong], ReturnType.Void)

  /**
   * The first two parameters of a load call, taken the way the `if let`
   * takes them: `parameters.unwrap()[0]` and `[1]` are evaluated before the
   * pattern is matched, so a missing list or a short list panics whatever
   * the types are.
   */
  function FirstTwo(call: FunctionCall): (r: Result<(ParameterValue, ParameterValue)>)
    ensures r.Ok? <==> call.parameters.Some? && |call.parameters.value| >= 2
    ensures r.Ok? ==> r.value == (call.parameters.value[0], call.parameters.value[1])
    ensures r.Fail? ==> IsPanic(r)
  {
    match call.parameters
    case None => Fail(Panic(UNWRAP_NONE))
    case Some(ps) =>
      if |ps| == 0 then Fail(Panic(INDEX_ZERO_OF_EMPTY))
      else if |ps| == 1 then Fail(Panic(INDEX_ONE_OF_ONE))
      else Ok((ps[0], ps[1]))
  }

  /**
   * `load_wasm_module`'s guard: a byte vector and an Int (the length,
   * which is not used), and an engine. Yields the bytes to deserialize.
   */
  function LoadBytesArgs(call: FunctionCall, hasEngine: bool): (r: Result<seq<Byte>>)
    ensures r.Ok? <==> (call.parameters.Some? && |call.parameters.value| >= 2 &&
                        call.parameters.value[0].VecBytes? && call.parameters.value[1].Int? && hasEngine)
    ensures r.Ok? ==> r.value == call.parameters.value[0].bytes
    ensures FirstTwo(call).Ok? && r.Fail? ==> r == Fail(Error(GuestFunctionParameterTypeMismatch, INVALID_LOAD))
    ensures FirstTwo(call).Fail? ==> IsPanic(r)
  {
    var two :- FirstTwo(call);
    var (p0, p1) := two;
    if p0.VecBytes? && p1.Int? && hasEngine then Ok(p0.bytes)
    else Fail(Error(GuestFunctionParameterTypeMismatch, INVALID_LOAD))
  }

  /**
   * `load_wasm_module_phys`'s guard: two ULongs (guest-physical address and
   * length) and an engine.
   */
  function LoadPhysArgs(call: FunctionCall, hasEngine: bool): (r: Result<(UInt64, UInt64)>)
    ensures r.Ok? <==> (call.parameters.Some? && |call.parameters.value| >= 2 &&
                        call.parameters.value[0].ULong? && call.parameters.value[1].ULong? && hasEngine)
    ensures r.Ok? ==> r.value == (call.parameters.value[0].ul, call.parameters.value[1].ul)
    ensures FirstTwo(call).Ok? && r.Fail? ==> r == Fail(Error(GuestFunctionParameterTypeMismatch, INVALID_LOAD_PHYS))
    ensures FirstTwo(call).Fail? ==> IsPanic(r)
  {
    var two :- FirstTwo(call);
    var (p0, p1) := two;
    if p0.ULong? && p1.ULong? && hasEngine then Ok((p0.ul, p1.ul))
    else Fail(Error(GuestFunctionParameterTypeMismatch, INVALID_LOAD_PHYS))
  }

  /**
   * The length argument of `LoadWasmModule` is ignored: two calls that
   * differ only in it load the same bytes.
   */
  lemma LoadIgnoresLength(bytes: seq<Byte>, n1: Int32, n2: Int32, rest: seq<ParameterValue>, hasEngine: bool)
    ensures LoadBytesArgs(FunctionCall("LoadWasmModule", Some([ParameterValue.VecBytes(bytes), ParameterValue.Int(n1)] + rest), ReturnType.Int), hasEngine)
         == LoadBytesArgs(FunctionCall("LoadWasmModule", Some([ParameterValue.VecBytes(bytes), ParameterValue.Int(n2)] + rest), ReturnType.Int), hasEngine)
  {
    var c1 := FunctionCall("LoadWasmModule", Some([ParameterValue.VecBytes(bytes), ParameterValue.Int(n1)] + rest), ReturnType.Int);
    var c2 := FunctionCall("LoadWasmModule", Some([ParameterValue.VecBytes(bytes), ParameterValue.Int(n2)] + rest), ReturnType.Int);
    assert FirstTwo(c1) == Ok((ParameterValue.VecBytes(bytes), ParameterValue.Int(n1)));
    assert FirstTwo(c2) == Ok((ParameterValue.VecBytes(bytes), ParameterValue.Int(n2)));
  }
}
