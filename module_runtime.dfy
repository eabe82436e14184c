/**
 * The core-module guest runtime (`module.rs`): the engine, linker and
 * module globals, `InitWasmRuntime`, `LoadWasmModule`,
 * `LoadWasmModulePhys`, the start-up registrations and the dispatch of
 * every other guest call to an export of the loaded module.
 *
 * wasmtime itself is not modelled: compiling a module, linking it and
 * running one of its functions are oracle parameters.
 */
module ModuleRuntime {
  import opened Values
  import opened GuestMemory
  import opened Marshal
  import opened RuntimeCommon
  import HostFuncs
  import Wasip1

  const NOT_INITIALIZED: string := "Wasm runtime is not initialized"
  const NO_LINKER: string := "impossible: wasm runtime has no valid linker"
  const NO_MODULE: string := "No wasm module loaded"
  const FUNCTION_NOT_FOUND: string := "Function not found"
  /** wasmtime refuses to define the same `(module, name)` import twice. */
  const DEFINED_TWICE: string := "import defined twice"
  /** The import module host functions are linked under. */
  const ENV: string := "env"

  /** A linear memory of a 32-bit module below 2 GiB: every address is a non-negative `i32`. */
  type Image = m: seq<Byte> | |m| < TWO_31

  /** What a linker entry forwards to: a WASI shim, or a host function with its lowered signature. */
  datatype Handler = WasiShim | HostCall(def: HostFunctionDefinition, ty: FuncType)

  datatype Import = Import(moduleName: string, name: string, handler: Handler)

  /** A wasmtime `Linker`: the imports defined so far, in definition order. */
  datatype Linker = Linker(engine: Engine, imports: seq<Import>)

  /**
   * A compiled module as far as the runtime looks at it: the initial
   * linear memory, which of `memory`, `malloc` and `free` it exports, and
   * the names of its exported functions.
   */
  datatype WasmModule = WasmModule(image: Image, hasMemory: bool, hasMalloc: bool, hasFree: bool, funcs: set<string>)

  /** What running an export leaves behind: the result slots and the linear memory. */
  datatype Execution = Execution(results: seq<Val>, memory: Image)

  // ---------------------------------------------------------------------
  // The linker
  // ---------------------------------------------------------------------

  predicate Defined(l: Linker, moduleName: string, name: string) {
    exists k :: 0 <= k < |l.imports| && l.imports[k].moduleName == moduleName && l.imports[k].name == name
  }

  /** `func_wrap` / `func_new`: add one import unless that name is taken. */
  function Define(l: Linker, imp: Import): (r: Result<Linker>)
    ensures r.Ok? <==> !Defined(l, imp.moduleName, imp.name)
    ensures r.Ok? ==> r.value.engine == l.engine && r.value.imports == l.imports + [imp]
    ensures r.Fail? ==> r == Fail(Error(GuestError, DEFINED_TWICE))
  {
    if Defined(l, imp.moduleName, imp.name) then Fail(Error(GuestError, DEFINED_TWICE))
    else Ok(Linker(l.engine, l.imports + [imp]))
  }

  /** Define each import in turn, stopping at the first refusal. */
  function DefineAll(l: Linker, imps: seq<Import>): Result<Linker>
    decreases |imps|
  {
    if imps == [] then Ok(l)
    else
      var l1 :- Define(l, imps[0]);
      DefineAll(l1, imps[1..])
  }

  /** The WASI preview 1 shims `register_handlers` defines, in order. */
  function WasiImports(): (r: seq<Import>)
    ensures |r| == |Wasip1.HANDLERS|
    ensures forall k :: 0 <= k < |r| ==>
      r[k] == Import(Wasip1.HANDLERS[k].0, Wasip1.HANDLERS[k].1, WasiShim)
  {
    seq(|Wasip1.HANDLERS|, k requires 0 <= k < |Wasip1.HANDLERS| =>
      Import(Wasip1.HANDLERS[k].0, Wasip1.HANDLERS[k].1, WasiShim))
  }

  /** `register_handlers` on a fresh linker succeeds and defines exactly the four shims. */
  lemma RegisterHandlersOnFreshLinker(e: Engine)
    ensures DefineAll(Linker(e, []), WasiImports()) == Ok(Linker(e, WasiImports()))
  {
    var w := WasiImports();
    assert w == [Import(Wasip1.WASI_MODULE, "fd_seek", WasiShim), Import(Wasip1.WASI_MODULE, "fd_write", WasiShim),
                 Import(Wasip1.WASI_MODULE, "fd_close", WasiShim), Import(Wasip1.WASI_MODULE, "fd_fdstat_get", WasiShim)];
    var l0 := Linker(e, []);
    var l1 := Linker(e, w[..1]);
    var l2 := Linker(e, w[..2]);
    var l3 := Linker(e, w[..3]);
    DefineFresh(l0, w[0]);
    assert l0.imports + [w[0]] == w[..1];
    DefineFresh(l1, w[1]);
    assert l1.imports + [w[1]] == w[..2];
    DefineFresh(l2, w[2]);
    assert l2.imports + [w[2]] == w[..3];
    DefineFresh(l3, w[3]);
    assert l3.imports + [w[3]] == w;
    assert w[1..][1..][1..][1..] == [];
  }

  /** Defining a name no earlier import under the same module has succeeds. */
  lemma DefineFresh(l: Linker, imp: Import)
    requires forall k :: 0 <= k < |l.imports| ==> l.imports[k].name != imp.name
    ensures Define(l, imp) == Ok(Linker(l.engine, l.imports + [imp]))
  {
  }

  /**
   * The loop of `init_wasm_runtime`: for each host function, lower its
   * signature (`hostfunc_type`), then define it under `env`; the first
   * failure of either aborts.
   */
  function LinkEnv(l: Linker, defs: seq<HostFunctionDefinition>): Result<Linker>
    decreases |defs|
  {
    if defs == [] then Ok(l)
    else
      var ty :- HostFuncs.HostfuncTypeSpec(defs[0]);
      var l1 :- Define(l, Import(ENV, defs[0].functionName, HostCall(defs[0], ty)));
      LinkEnv(l1, defs[1..])
  }

  /** One step of the linking loop, at position `i`. */
  lemma LinkEnvUnfold(l: Linker, defs: seq<HostFunctionDefinition>, i: nat)
    requires i < |defs|
    ensures var t := HostFuncs.HostfuncTypeSpec(defs[i]);
      LinkEnv(l, defs[i..]) ==
        if t.Fail? then Fail(t.failure)
        else
          var n := Define(l, Import(ENV, defs[i].functionName, HostCall(defs[i], t.value)));
          if n.Fail? then Fail(n.failure) else LinkEnv(n.value, defs[i + 1..])
  {
    assert defs[i..][0] == defs[i];
    assert defs[i..][1..] == defs[i + 1..];
  }

  /** The `env` import for one host function whose signature lowers. */
  function EnvImport(d: HostFunctionDefinition): Import
    requires HostFuncs.HostfuncTypeSpec(d).Ok?
  {
    Import(ENV, d.functionName, HostCall(d, HostFuncs.HostfuncTypeSpec(d).value))
  }

  predicate AllLower(defs: seq<HostFunctionDefinition>) {
    forall k :: 0 <= k < |defs| ==> HostFuncs.HostfuncTypeSpec(defs[k]).Ok?
  }

  predicate DistinctNames(defs: seq<HostFunctionDefinition>) {
    forall i, j :: 0 <= i < j < |defs| ==> defs[i].functionName != defs[j].functionName
  }

  predicate NoneDefined(l: Linker, defs: seq<HostFunctionDefinition>) {
    forall k :: 0 <= k < |defs| ==> !Defined(l, ENV, defs[k].functionName)
  }

  /**
   * Linking the host functions succeeds exactly when every signature
   * lowers, no two share a name and none is already defined under `env`.
   */
  lemma {:induction false} LinkEnvSucceeds(l: Linker, defs: seq<HostFunctionDefinition>)
    ensures LinkEnv(l, defs).Ok? <==> AllLower(defs) && DistinctNames(defs) && NoneDefined(l, defs)
    decreases |defs|
  {
    if defs != [] {
      var d := defs[0];
      var rest := defs[1..];
      if HostFuncs.HostfuncTypeSpec(d).Ok? && !Defined(l, ENV, d.functionName) {
        var l1 := Linker(l.engine, l.imports + [EnvImport(d)]);
        assert LinkEnv(l, defs) == LinkEnv(l1, rest);
        LinkEnvSucceeds(l1, rest);
        AllLowerCons(defs);
        ConditionsCons(l, defs, l1);
      } else if HostFuncs.HostfuncTypeSpec(d).Fail? {
        assert !AllLower(defs);
      } else {
        assert !NoneDefined(l, defs);
      }
    }
  }

  /** After appending `imp`, a name is defined under a module iff it was, or `imp` is that name. */
  lemma DefinedAfterAppend(l: Linker, imp: Import, moduleName: string, n: string)
    ensures Defined(Linker(l.engine, l.imports + [imp]), moduleName, n) <==>
      Defined(l, moduleName, n) || (imp.moduleName == moduleName && imp.name == n)
  {
    var l1 := Linker(l.engine, l.imports + [imp]);
    if Defined(l1, moduleName, n) {
      var k :| 0 <= k < |l1.imports| && l1.imports[k].moduleName == moduleName && l1.imports[k].name == n;
      if k < |l.imports| {
        assert l.imports[k] == l1.imports[k];
      }
    }
    if imp.moduleName == moduleName && imp.name == n {
      assert l1.imports[|l.imports|] == imp;
    }
    if Defined(l, moduleName, n) {
      var k :| 0 <= k < |l.imports| && l.imports[k].moduleName == moduleName && l.imports[k].name == n;
      assert l1.imports[k] == l.imports[k];
    }
  }

  lemma AllLowerCons(defs: seq<HostFunctionDefinition>)
    requires defs != [] && HostFuncs.HostfuncTypeSpec(defs[0]).Ok?
    ensures AllLower(defs) <==> AllLower(defs[1..])
  {
    var rest := defs[1..];
    if AllLower(rest) {
      forall k | 0 <= k < |defs| ensures HostFuncs.HostfuncTypeSpec(defs[k]).Ok? {
        if k > 0 { assert defs[k] == rest[k - 1]; }
      }
    }
  }

  lemma ConditionsCons(l: Linker, defs: seq<HostFunctionDefinition>, l1: Linker)
    requires defs != [] && HostFuncs.HostfuncTypeSpec(defs[0]).Ok? && !Defined(l, ENV, defs[0].functionName)
    requires l1 == Linker(l.engine, l.imports + [EnvImport(defs[0])])
    ensures DistinctNames(defs) && NoneDefined(l, defs) <==> DistinctNames(defs[1..]) && NoneDefined(l1, defs[1..])
  {
    var rest := defs[1..];
    if DistinctNames(rest) && NoneDefined(l1, rest) {
      forall i, j | 0 <= i < j < |defs| ensures defs[i].functionName != defs[j].functionName {
        assert defs[j] == rest[j - 1];
        DefinedAfterAppend(l, EnvImport(defs[0]), ENV, defs[j].functionName);
        if i > 0 { assert defs[i] == rest[i - 1]; }
      }
      forall k | 0 <= k < |defs| ensures !Defined(l, ENV, defs[k].functionName) {
        if k > 0 {
          assert defs[k] == rest[k - 1];
          DefinedAfterAppend(l, EnvImport(defs[0]), ENV, defs[k].functionName);
        }
      }
    }
    if DistinctNames(defs) && NoneDefined(l, defs) {
      forall k | 0 <= k < |rest| ensures !Defined(l1, ENV, rest[k].functionName) {
        assert rest[k] == defs[k + 1];
        assert defs[0].functionName != defs[k + 1].functionName;
        DefinedAfterAppend(l, EnvImport(defs[0]), ENV, rest[k].functionName);
      }
    }
  }

  /**
   * A successful link appends one `env` import per host function, in
   * definition order, and keeps what was already defined.
   */
  lemma {:induction false} LinkEnvAppends(l: Linker, defs: seq<HostFunctionDefinition>)
    requires LinkEnv(l, defs).Ok?
    ensures AllLower(defs)
    ensures LinkEnv(l, defs).value.engine == l.engine
    ensures LinkEnv(l, defs).value.imports == l.imports + seq(|defs|, k requires 0 <= k < |defs| && AllLower(defs) => EnvImport(defs[k]))
    decreases |defs|
  {
    LinkEnvSucceeds(l, defs);
    if defs != [] {
      var rest := defs[1..];
      var l1 := Linker(l.engine, l.imports + [EnvImport(defs[0])]);
      assert LinkEnv(l, defs) == LinkEnv(l1, rest);
      LinkEnvAppends(l1, rest);
      var tail := seq(|rest|, k requires 0 <= k < |rest| && AllLower(rest) => EnvImport(rest[k]));
      var all := seq(|defs|, k requires 0 <= k < |defs| && AllLower(defs) => EnvImport(defs[k]));
      assert all == [EnvImport(defs[0])] + tail by {
        forall k | 0 <= k < |all| ensures all[k] == ([EnvImport(defs[0])] + tail)[k] {
          if k > 0 { assert defs[k] == rest[k - 1]; }
        }
      }
    }
  }

  // ---------------------------------------------------------------------
  // Guest parameters
  // ---------------------------------------------------------------------

  /** A call's parameters; an absent list counts as empty. */
  function ParamsOf(call: FunctionCall): seq<ParameterValue> {
    match call.parameters
    case None => []
    case Some(ps) => ps
  }

  /** Prefix already-marshalled values to the outcome of marshalling the rest. */
  function PrependArgs(vs: seq<Val>, r: (Result<seq<Val>>, seq<Byte>)): (Result<seq<Val>>, seq<Byte>) {
    (if r.0.Ok? then Ok(vs + r.0.value) else r.0, r.1)
  }

  lemma PrependArgsTwice(a: seq<Val>, b: seq<Val>, r: (Result<seq<Val>>, seq<Byte>))
    ensures PrependArgs(a, PrependArgs(b, r)) == PrependArgs(a + b, r)
  {
    if r.0.Ok? {
      assert a + (b + r.0.value) == (a + b) + r.0.value;
    }
  }

  /**
   * The parameter loop of `guest_dispatch_function`: `hl_param_to_val` on
   * `ps[i..]` in order, threading linear memory; the `i`-th allocation is
   * answered by `replies(i)`; the first failure aborts.
   */
  function MarshalParams(ps: seq<ParameterValue>, i: nat, hasMalloc: bool, hasMemory: bool, m: seq<Byte>,
                         replies: nat -> Result<Int32>): (r: (Result<seq<Val>>, seq<Byte>))
    requires i <= |ps|
    ensures |r.1| == |m|
    decreases |ps| - i
  {
    if i == |ps| then (Ok([]), m)
    else
      var (v, m1) := ParamToValSpec(ps[i], hasMalloc, hasMemory, m, replies(i));
      if v.Fail? then (Fail(v.failure), m1)
      else PrependArgs([v.value], MarshalParams(ps, i + 1, hasMalloc, hasMemory, m1, replies))
  }

  /** One step of the parameter loop. */
  lemma MarshalStep(ps: seq<ParameterValue>, i: nat, hasMalloc: bool, hasMemory: bool, m: seq<Byte>,
                    replies: nat -> Result<Int32>)
    requires i < |ps|
    ensures var (v, m1) := ParamToValSpec(ps[i], hasMalloc, hasMemory, m, replies(i));
      MarshalParams(ps, i, hasMalloc, hasMemory, m, replies) ==
        if v.Fail? then (Fail(v.failure), m1)
        else PrependArgs([v.value], MarshalParams(ps, i + 1, hasMalloc, hasMemory, m1, replies))
  {
  }

  /**
   * Every parameter becomes exactly one `Val`, in order: scalars by their
   * fixed encoding, strings and byte vectors as an `I32` guest address.
   */
  lemma {:induction false} MarshalParamsShape(ps: seq<ParameterValue>, i: nat, hasMalloc: bool, hasMemory: bool,
                                              m: seq<Byte>, replies: nat -> Result<Int32>)
    requires i <= |ps|
    ensures var r := MarshalParams(ps, i, hasMalloc, hasMemory, m, replies).0;
      r.Ok? ==> (|r.value| == |ps| - i &&
                 forall k :: 0 <= k < |r.value| ==>
                   (IsScalarParam(ps[i + k]) ==> r.value[k] == ParamScalarToVal(ps[i + k])) &&
                   (!IsScalarParam(ps[i + k]) ==> r.value[k].I32?))
    decreases |ps| - i
  {
    if i < |ps| {
      var (v, m1) := ParamToValSpec(ps[i], hasMalloc, hasMemory, m, replies(i));
      if v.Ok? {
        MarshalParamsShape(ps, i + 1, hasMalloc, hasMemory, m1, replies);
      }
    }
  }

  /** A String parameter holding a NUL byte makes the whole call fail. */
  lemma {:induction false} MarshalParamsNulFails(ps: seq<ParameterValue>, i: nat, hasMalloc: bool, hasMemory: bool,
                                                 m: seq<Byte>, replies: nat -> Result<Int32>, j: nat)
    requires i <= j < |ps| && ps[j].String? && 0 in ps[j].s
    ensures MarshalParams(ps, i, hasMalloc, hasMemory, m, replies).0.Fail?
    decreases |ps| - i
  {
    if i < j {
      var (v, m1) := ParamToValSpec(ps[i], hasMalloc, hasMemory, m, replies(i));
      if v.Ok? {
        MarshalParamsNulFails(ps, i + 1, hasMalloc, hasMemory, m1, replies, j);
      }
    }
  }

  /** The result slots handed to `func.call`: none for Void, one `I32(0)` otherwise. */
  function ResultSlots(rt: ReturnType): (r: seq<Val>)
    ensures |r| <= 1 && (|r| == 0 <==> rt.Void?)
    ensures forall v :: v in r ==> v == I32(0)
  {
    if rt.Void? then [] else [I32(0)]
  }

  // ---------------------------------------------------------------------
  // Dispatch
  // ---------------------------------------------------------------------

  /**
   * The outcome of one dispatch: its result, the arguments the export was
   * invoked with (if it was), and the return allocations it tracked.
   */
  datatype Dispatch = Dispatch(result: Result<ReturnValue>, invoked: Option<seq<Val>>, tracked: seq<Int32>)

  function Refuse(f: Failure): Dispatch {
    Dispatch(Fail(f), None, [])
  }

  /**
   * `guest_dispatch_function`: check engine, linker and module in that
   * order; instantiate the module in a fresh store (its memory starts as
   * the module's image); look the function up; marshal the parameters;
   * run it (`run` answers for wasmtime and the guest code); decode the
   * result from the memory the run left.
   */
  function DispatchSpec(engine: Option<Engine>, linker: Option<Linker>, wasmModule: Option<WasmModule>, call: FunctionCall,
                        instantiate: Result<()>, replies: nat -> Result<Int32>,
                        run: (seq<Val>, seq<Val>, Image) -> Result<Execution>): (d: Dispatch)
    ensures engine.None? ==> d == Refuse(Error(GuestError, NOT_INITIALIZED))
    ensures engine.Some? && linker.None? ==> d == Refuse(Error(GuestError, NO_LINKER))
    ensures engine.Some? && linker.Some? && wasmModule.None? ==> d == Refuse(Error(GuestError, NO_MODULE))
    ensures engine.Some? && linker.Some? && wasmModule.Some? && instantiate.Ok? && call.functionName !in wasmModule.value.funcs ==>
      d == Refuse(Error(GuestError, FUNCTION_NOT_FOUND))
    ensures d.invoked.Some? ==>
      engine.Some? && linker.Some? && wasmModule.Some? && instantiate.Ok? && call.functionName in wasmModule.value.funcs
    ensures d.result.Ok? ==> d.invoked.Some?
  {
    if engine.None? then Refuse(Error(GuestError, NOT_INITIALIZED))
    else if linker.None? then Refuse(Error(GuestError, NO_LINKER))
    else if wasmModule.None? then Refuse(Error(GuestError, NO_MODULE))
    else if instantiate.Fail? then Refuse(instantiate.failure)
    else if call.functionName !in wasmModule.value.funcs then Refuse(Error(GuestError, FUNCTION_NOT_FOUND))
    else
      var md := wasmModule.value;
      var (args, m1) := MarshalParams(ParamsOf(call), 0, md.hasMalloc, md.hasMemory, md.image, replies);
      if args.Fail? then Refuse(args.failure)
      else
        match run(args.value, ResultSlots(call.expectedReturnType), m1)
        case Fail(f) => Dispatch(Fail(f), Some(args.value), [])
        case Ok(ex) =>
          Dispatch(ResultSpec(call.expectedReturnType, ex.results, md.hasMemory, ex.memory), Some(args.value),
                   TrackedBy(call.expectedReturnType, ex.results))
  }

  /**
   * An export that is invoked receives exactly one argument per call
   * parameter, scalars by their fixed encoding.
   */
  lemma DispatchArguments(engine: Option<Engine>, linker: Option<Linker>, wasmModule: Option<WasmModule>, call: FunctionCall,
                          instantiate: Result<()>, replies: nat -> Result<Int32>,
                          run: (seq<Val>, seq<Val>, Image) -> Result<Execution>)
    ensures var d := DispatchSpec(engine, linker, wasmModule, call, instantiate, replies, run);
      d.invoked.Some? ==> (|d.invoked.value| == |ParamsOf(call)| &&
                           forall k :: 0 <= k < |ParamsOf(call)| && IsScalarParam(ParamsOf(call)[k]) ==>
                             d.invoked.value[k] == ParamScalarToVal(ParamsOf(call)[k]))
  {
    var d := DispatchSpec(engine, linker, wasmModule, call, instantiate, replies, run);
    if d.invoked.Some? {
      var md := wasmModule.value;
      MarshalParamsShape(ParamsOf(call), 0, md.hasMalloc, md.hasMemory, md.image, replies);
    }
  }

  /**
   * The guest runtime's globals and the registrations made at start-up.
   * `allocs` is the return-value allocation list of the marshalling layer.
   */
  class Runtime {
    var engine: Option<Engine>
    var linker: Option<Linker>
    var wasmModule: Option<WasmModule>
    /** Guest functions registered with the guest library, in order. */
    var functions: seq<GuestFunctionDefinition>
    var pageFaultHandlerRegistered: bool
    const allocs: ReturnAllocations

    constructor ()
      ensures engine == None && linker == None && wasmModule == None
      ensures functions == [] && !pageFaultHandlerRegistered
      ensures fresh(allocs) && allocs.addrs == []
    {
      engine := None;
      linker := None;
      wasmModule := None;
      functions := [];
      pageFaultHandlerRegistered := false;
      allocs := new ReturnAllocations();
    }

    /** `hyperlight_main`: the page-fault handler, then the four guest functions. */
    method HyperlightMain()
      modifies this
      ensures pageFaultHandlerRegistered
      ensures functions == old(functions) + [PRINT_OUTPUT, INIT_WASM_RUNTIME, LOAD_WASM_MODULE, LOAD_WASM_MODULE_PHYS]
      ensures engine == old(engine) && linker == old(linker) && wasmModule == old(wasmModule)
    {
      pageFaultHandlerRegistered := true;
      functions := functions + [PRINT_OUTPUT];
      functions := functions + [INIT_WASM_RUNTIME];
      functions := functions + [LOAD_WASM_MODULE];
      functions := functions + [LOAD_WASM_MODULE_PHYS];
    }

    /**
     * `init_wasm_runtime` as written: engine, linker and WASI shims, then
     * `get_host_function_details`, which panics, so the globals are never
     * set. `engineCreation` answers for `Engine::new`.
     */
    method InitWasmRuntimeAsWritten(engineCreation: Result<()>) returns (r: Result<ReturnValue>)
      ensures engineCreation.Fail? ==> r == Fail(engineCreation.failure)
      ensures engineCreation.Ok? ==> r == Fail(Panic(HostFuncs.DETAILS_MISSING))
    {
      if engineCreation.Fail? {
        return Fail(engineCreation.failure);
      }
      // `register_handlers` on the fresh linker cannot fail (RegisterHandlersOnFreshLinker).
      var details := HostFuncs.GetHostFunctionDetails();
      r := Fail(details.failure);
    }

    /**
     * `init_wasm_runtime` with the host-function definitions the host
     * passes: engine, WASI shims, one `env` import per host function; on
     * success the engine and linker globals are set and 0 is returned.
     */
    method InitWasmRuntime(hostFunctions: Option<seq<HostFunctionDefinition>>, engineCreation: Result<()>)
      returns (r: Result<ReturnValue>)
      modifies this`engine, this`linker
      ensures var s := InitSpec(hostFunctions, engineCreation);
        (s.Ok? ==> r == Ok(ReturnValue.Int(0)) && engine == Some(Engine(RUNTIME_CONFIG)) && linker == Some(s.value)) &&
        (s.Fail? ==> r == Fail(s.failure) && engine == old(engine) && linker == old(linker))
    {
      if engineCreation.Fail? {
        return Fail(engineCreation.failure);
      }
      var e := Engine(RUNTIME_CONFIG);
      // `register_handlers` on the fresh linker always succeeds.
      RegisterHandlersOnFreshLinker(e);
      var l := Linker(e, WasiImports());
      var defs := match hostFunctions case None => [] case Some(ds) => ds;
      ghost var spec := InitSpec(hostFunctions, engineCreation);
      var i := 0;
      assert defs[i..] == defs;
      while i < |defs|
        invariant 0 <= i <= |defs|
        invariant spec == LinkEnv(l, defs[i..])
        invariant engine == old(engine) && linker == old(linker)
      {
        LinkEnvUnfold(l, defs, i);
        var ty := HostFuncs.HostfuncType(defs[i]);
        if ty.Fail? {
          return Fail(ty.failure);
        }
        var next := Define(l, Import(ENV, defs[i].functionName, HostCall(defs[i], ty.value)));
        if next.Fail? {
          return Fail(next.failure);
        }
        l := next.value;
        i := i + 1;
      }
      assert defs[i..] == [];
      engine := Some(e);
      linker := Some(l);
      r := Ok(ReturnValue.Int(0));
    }

    /** `load_wasm_module`: `deserialize` answers for `Module::deserialize`. */
    method LoadWasmModule(call: FunctionCall, deserialize: seq<Byte> -> Result<WasmModule>) returns (r: Result<ReturnValue>)
      modifies this`wasmModule
      ensures var a := LoadBytesArgs(call, engine.Some?);
        (a.Fail? ==> r == Fail(a.failure) && wasmModule == old(wasmModule)) &&
        (a.Ok? && deserialize(a.value).Fail? ==> r == Fail(deserialize(a.value).failure) && wasmModule == old(wasmModule)) &&
        (a.Ok? && deserialize(a.value).Ok? ==> r == Ok(ReturnValue.Int(0)) && wasmModule == Some(deserialize(a.value).value))
    {
      var bytes :- LoadBytesArgs(call, engine.Some?);
      var m :- deserialize(bytes);
      wasmModule := Some(m);
      r := Ok(ReturnValue.Int(0));
    }

    /**
     * `load_wasm_module_phys`: `deserializeAt` answers for mapping the
     * guest-physical range and `Module::deserialize_raw` on it.
     */
    method LoadWasmModulePhys(call: FunctionCall, deserializeAt: (UInt64, UInt64) -> Result<WasmModule>)
      returns (r: Result<ReturnValue>)
      modifies this`wasmModule
      ensures var a := LoadPhysArgs(call, engine.Some?);
        (a.Fail? ==> r == Fail(a.failure) && wasmModule == old(wasmModule)) &&
        (a.Ok? && deserializeAt(a.value.0, a.value.1).Fail? ==>
           r == Fail(deserializeAt(a.value.0, a.value.1).failure) && wasmModule == old(wasmModule)) &&
        (a.Ok? && deserializeAt(a.value.0, a.value.1).Ok? ==>
           r == Ok(ReturnValue.Void) && wasmModule == Some(deserializeAt(a.value.0, a.value.1).value))
    {
      var range :- LoadPhysArgs(call, engine.Some?);
      var m :- deserializeAt(range.0, range.1);
      wasmModule := Some(m);
      r := Ok(ReturnValue.Void);
    }

    /**
     * `guest_dispatch_function`. Only the return-allocation list changes:
     * every dispatch works on a fresh instance of the module.
     */
    method GuestDispatchFunction(call: FunctionCall, instantiate: Result<()>, replies: nat -> Result<Int32>,
                                 run: (seq<Val>, seq<Val>, Image) -> Result<Execution>)
      returns (r: Result<ReturnValue>, invoked: Option<seq<Val>>)
      modifies allocs
      ensures var d := DispatchSpec(engine, linker, wasmModule, call, instantiate, replies, run);
        r == d.result && invoked == d.invoked && allocs.addrs == old(allocs.addrs) + d.tracked
    {
      ghost var before := allocs.addrs;
      assert before + [] == before;
      if engine.None? {
        return Fail(Error(GuestError, NOT_INITIALIZED)), None;
      }
      if linker.None? {
        return Fail(Error(GuestError, NO_LINKER)), None;
      }
      if wasmModule.None? {
        return Fail(Error(GuestError, NO_MODULE)), None;
      }
      if instantiate.Fail? {
        return Fail(instantiate.failure), None;
      }
      var md := wasmModule.value;
      if call.functionName !in md.funcs {
        return Fail(Error(GuestError, FUNCTION_NOT_FOUND)), None;
      }
      var inst := new Instance(md.image, md.hasMemory, md.hasMalloc, md.hasFree);
      var ps := ParamsOf(call);
      ghost var spec := MarshalParams(ps, 0, md.hasMalloc, md.hasMemory, md.image, replies);
      var args: seq<Val> := [];
      var i := 0;
      if spec.0.Ok? {
        assert args + spec.0.value == spec.0.value;
      }
      while i < |ps|
        invariant 0 <= i <= |ps|
        invariant inst.Valid() && inst.hasMalloc == md.hasMalloc && inst.hasMemory == md.hasMemory
        invariant spec == PrependArgs(args, MarshalParams(ps, i, md.hasMalloc, md.hasMemory, inst.memory[..], replies))
        invariant allocs.addrs == before
      {
        MarshalStep(ps, i, md.hasMalloc, md.hasMemory, inst.memory[..], replies);
        var v := HlParamToVal(inst, ps[i], replies(i));
        if v.Fail? {
          return Fail(v.failure), None;
        }
        PrependArgsTwice(args, [v.value], MarshalParams(ps, i + 1, md.hasMalloc, md.hasMemory, inst.memory[..], replies));
        args := args + [v.value];
        i := i + 1;
      }
      assert args + [] == args;
      var exec := run(args, ResultSlots(call.expectedReturnType), inst.memory[..]);
      if exec.Fail? {
        return Fail(exec.failure), Some(args);
      }
      var out := new Instance(exec.value.memory, md.hasMemory, md.hasMalloc, md.hasFree);
      r := ValToHlResult(out, allocs, call.expectedReturnType, exec.value.results);
      invoked := Some(args);
    }
  }

  /** What `init_wasm_runtime` links when given the host's definitions. */
  function InitSpec(hostFunctions: Option<seq<HostFunctionDefinition>>, engineCreation: Result<()>): Result<Linker> {
    if engineCreation.Fail? then Fail(engineCreation.failure)
    else
      var l :- DefineAll(Linker(Engine(RUNTIME_CONFIG), []), WasiImports());
      LinkEnv(l, match hostFunctions case None => [] case Some(ds) => ds)
  }

  /**
   * Initialisation succeeds exactly when every host function's signature
   * lowers and their names are distinct; the linker then holds the four
   * WASI shims followed by one `env` import per host function, in order.
   */
  lemma InitLinksHostFunctions(defs: seq<HostFunctionDefinition>)
    ensures InitSpec(Some(defs), Ok(())).Ok? <==> AllLower(defs) && DistinctNames(defs)
    ensures InitSpec(Some(defs), Ok(())).Ok? ==>
      InitSpec(Some(defs), Ok(())).value ==
        Linker(Engine(RUNTIME_CONFIG), WasiImports() + seq(|defs|, k requires 0 <= k < |defs| && AllLower(defs) => EnvImport(defs[k])))
  {
    var e := Engine(RUNTIME_CONFIG);
    RegisterHandlersOnFreshLinker(e);
    var l := Linker(e, WasiImports());
    assert InitSpec(Some(defs), Ok(())) == LinkEnv(l, defs);
    LinkEnvSucceeds(l, defs);
    assert NoneDefined(l, defs) by {
      forall k | 0 <= k < |defs| ensures !Defined(l, ENV, defs[k].functionName) {
        forall j | 0 <= j < |l.imports| ensures l.imports[j].moduleName != ENV {
          assert l.imports[j].moduleName == Wasip1.WASI_MODULE;
        }
      }
    }
    if LinkEnv(l, defs).Ok? {
      LinkEnvAppends(l, defs);
    }
  }
}
