/**
 * The component-model guest runtime (`component.rs`): the engine, linker,
 * store and instance globals, the start-up sequence, component loading and
 * the fallback dispatch. The bindings generated for a particular component
 * world (`hyperlight_guest_wasm_init`) are not modelled beyond the point at
 * which they run.
 */
module ComponentRuntime {
  import opened Values
  import opened RuntimeCommon

  /** A component linker; the generated bindings add its imports. */
  datatype ComponentLinker = ComponentLinker(engine: Engine)

  /** A compiled component, identified by the exports it offers. */
  datatype Component = Component(exports: set<string>)

  /** A store created for one instantiation. */
  datatype Store = Store(engine: Engine)

  datatype ComponentInstance = ComponentInstance(component: Component)

  /** The steps `hyperlight_main` takes, in the order it takes them. */
  datatype MainStep =
    | RegisterPageFaultHandler
    | SetEngine
    | SetLinker
    /** The generated initialisation, with whether engine and linker were set when it ran. */
    | GuestWasmInit(engineSet: bool, linkerSet: bool)
    | Register(def: GuestFunctionDefinition)

  /** The steps of a start-up whose engine creation succeeds. */
  const MAIN_STEPS: seq<MainStep> := [
    RegisterPageFaultHandler, SetEngine, SetLinker, GuestWasmInit(true, true),
    Register(INIT_WASM_RUNTIME), Register(LOAD_WASM_MODULE), Register(LOAD_WASM_MODULE_PHYS)]

  /** `init_wasm_runtime`: a placeholder kept for the module-loading protocol; it always returns 0. */
  function InitWasmRuntime(call: FunctionCall): (r: Result<ReturnValue>)
    ensures r == Ok(ReturnValue.Int(0))
  {
    Ok(ReturnValue.Int(0))
  }

  /**
   * `guest_dispatch_function`: every call the generated bindings do not
   * handle is refused with the function's name as the message.
   */
  function GuestDispatchFunction(call: FunctionCall): (r: Result<ReturnValue>)
    ensures r.Fail? && r.failure.Error? && r.failure.code == GuestFunctionNotFound
    ensures r.failure.message == call.functionName
  {
    Fail(Error(GuestFunctionNotFound, call.functionName))
  }

  class Runtime {
    var engine: Option<Engine>
    var linker: Option<ComponentLinker>
    var store: Option<Store>
    var instance: Option<ComponentInstance>
    /** What `hyperlight_main` has done so far. */
    var steps: seq<MainStep>

    constructor ()
      ensures engine == None && linker == None && store == None && instance == None && steps == []
    {
      engine := None;
      linker := None;
      store := None;
      instance := None;
      steps := [];
    }

    /**
     * `hyperlight_main`: page-fault handler, engine (`Engine::new(..).unwrap()`,
     * answered by `engineCreation`), linker, the generated initialisation,
     * then the three loading functions.
     */
    method HyperlightMain(engineCreation: Result<()>) returns (r: Result<()>)
      modifies this
      ensures engineCreation.Fail? ==> r == Fail(Panic(UNWRAP_FAILED)) && steps == old(steps) + [RegisterPageFaultHandler]
      ensures engineCreation.Fail? ==> engine == old(engine) && linker == old(linker)
      ensures engineCreation.Ok? ==> r == Ok(()) && steps == old(steps) + MAIN_STEPS
      ensures engineCreation.Ok? ==>
        var k := |old(steps)| + 3;
        && steps[k] == GuestWasmInit(true, true)
        && SetEngine in steps[..k] && SetLinker in steps[..k]
        && Register(LOAD_WASM_MODULE) in steps[k + 1..] && Register(LOAD_WASM_MODULE_PHYS) in steps[k + 1..]
      ensures engineCreation.Ok? ==>
        engine == Some(Engine(RUNTIME_CONFIG)) && linker == Some(ComponentLinker(Engine(RUNTIME_CONFIG)))
      ensures store == old(store) && instance == old(instance)
    {
      steps := steps + [RegisterPageFaultHandler];
      if engineCreation.Fail? {
        return Fail(Panic(UNWRAP_FAILED));
      }
      var e := Engine(RUNTIME_CONFIG);
      engine := Some(e);
      steps := steps + [SetEngine];
      linker := Some(ComponentLinker(e));
      steps := steps + [SetLinker];
      steps := steps + [GuestWasmInit(engine.Some?, linker.Some?)];
      steps := steps + [Register(INIT_WASM_RUNTIME)];
      steps := steps + [Register(LOAD_WASM_MODULE)];
      steps := steps + [Register(LOAD_WASM_MODULE_PHYS)];
      assert steps == old(steps) + MAIN_STEPS;
      StartUpOrder(old(steps), steps);
      r := Ok(());
    }

    /**
     * `load_component_common`: instantiate in a fresh store with the
     * current linker (a missing linker panics), then make that store and
     * instance current. `instantiate` answers for wasmtime.
     */
    method LoadComponentCommon(e: Engine, c: Component, instantiate: Component -> Result<ComponentInstance>)
      returns (r: Result<()>)
      modifies this`store, this`instance
      ensures linker.None? ==> r == Fail(Panic(UNWRAP_NONE)) && store == old(store) && instance == old(instance)
      ensures linker.Some? && instantiate(c).Fail? ==>
        r == Fail(instantiate(c).failure) && store == old(store) && instance == old(instance)
      ensures linker.Some? && instantiate(c).Ok? ==>
        r == Ok(()) && store == Some(Store(e)) && instance == Some(instantiate(c).value)
    {
      var newStore := Store(e);
      if linker.None? {
        return Fail(Panic(UNWRAP_NONE));
      }
      var inst :- instantiate(c);
      store := Some(newStore);
      instance := Some(inst);
      r := Ok(());
    }

    /** `load_wasm_module`: `deserialize` answers for `Component::deserialize`. */
    method LoadWasmModule(call: FunctionCall, deserialize: seq<Byte> -> Result<Component>,
                          instantiate: Component -> Result<ComponentInstance>)
      returns (r: Result<ReturnValue>)
      modifies this`store, this`instance
      ensures var a := LoadBytesArgs(call, engine.Some?);
        (a.Fail? ==> r == Fail(a.failure) && store == old(store) && instance == old(instance)) &&
        (a.Ok? && deserialize(a.value).Fail? ==>
           r == Fail(deserialize(a.value).failure) && store == old(store) && instance == old(instance)) &&
        (a.Ok? && deserialize(a.value).Ok? ==>
           var c := deserialize(a.value).value;
           (linker.None? ==> r == Fail(Panic(UNWRAP_NONE)) && store == old(store) && instance == old(instance)) &&
           (linker.Some? && instantiate(c).Fail? ==>
              r == Fail(instantiate(c).failure) && store == old(store) && instance == old(instance)) &&
           (linker.Some? && instantiate(c).Ok? ==>
              r == Ok(ReturnValue.Int(0)) && store == Some(Store(engine.value)) && instance == Some(instantiate(c).value)))
    {
      var bytes :- LoadBytesArgs(call, engine.Some?);
      var c :- deserialize(bytes);
      var loaded := LoadComponentCommon(engine.value, c, instantiate);
      if loaded.Fail? {
        return Fail(loaded.failure);
      }
      r := Ok(ReturnValue.Int(0));
    }

    /**
     * `load_wasm_module_phys`: `deserializeAt` answers for mapping the
     * guest-physical range and `Component::deserialize_raw` on it.
     */
    method LoadWasmModulePhys(call: FunctionCall, deserializeAt: (UInt64, UInt64) -> Result<Component>,
                              instantiate: Component -> Result<ComponentInstance>)
      returns (r: Result<ReturnValue>)
      modifies this`store, this`instance
      ensures var a := LoadPhysArgs(call, engine.Some?);
        (a.Fail? ==> r == Fail(a.failure) && store == old(store) && instance == old(instance)) &&
        (a.Ok? && deserializeAt(a.value.0, a.value.1).Fail? ==>
           r == Fail(deserializeAt(a.value.0, a.value.1).failure) && store == old(store) && instance == old(instance)) &&
        (a.Ok? && deserializeAt(a.value.0, a.value.1).Ok? ==>
           var c := deserializeAt(a.value.0, a.value.1).value;
           (linker.None? ==> r == Fail(Panic(UNWRAP_NONE)) && store == old(store) && instance == old(instance)) &&
           (linker.Some? && instantiate(c).Fail? ==>
              r == Fail(instantiate(c).failure) && store == old(store) && instance == old(instance)) &&
           (linker.Some? && instantiate(c).Ok? ==>
              r == Ok(ReturnValue.Void) && store == Some(Store(engine.value)) && instance == Some(instantiate(c).value)))
    {
      var range :- LoadPhysArgs(call, engine.Some?);
      var c :- deserializeAt(range.0, range.1);
      var loaded := LoadComponentCommon(engine.value, c, instantiate);
      if loaded.Fail? {
        return Fail(loaded.failure);
      }
      r := Ok(ReturnValue.Void);
    }
  }

  /** In a start-up recorded after `prior`, the generated initialisation sits between the globals and the loaders. */
  lemma StartUpOrder(prior: seq<MainStep>, steps: seq<MainStep>)
    requires steps == prior + MAIN_STEPS
    ensures var k := |prior| + 3;
      && steps[k] == GuestWasmInit(true, true)
      && SetEngine in steps[..k] && SetLinker in steps[..k]
      && Register(LOAD_WASM_MODULE) in steps[k + 1..] && Register(LOAD_WASM_MODULE_PHYS) in steps[k + 1..]
  {
    var k := |prior| + 3;
    assert steps[..k][k - 2] == SetEngine && steps[..k][k - 1] == SetLinker;
    assert steps[k + 1..][1] == Register(LOAD_WASM_MODULE) && steps[k + 1..][2] == Register(LOAD_WASM_MODULE_PHYS);
  }
}
