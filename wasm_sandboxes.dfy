/**
 * `WasmSandbox` (the Wasm engine is running, no module is loaded) and
 * `LoadedWasmSandbox` (a module is loaded and its functions can be called),
 * with the transitions between them and the metrics each one moves.
 *
 * Rust moves a sandbox into the operation that consumes it and drops it at
 * the end of that operation. Here a consumed sandbox is marked `dropped`,
 * every consuming operation requires a sandbox not yet dropped, and the
 * drop's effect on the gauges is part of the operation's contract.
 *
 * The host library's steps are answers passed in: `evolve` and `devolve`
 * give the sandbox the library produces from a given one, and `GuestCalls`
 * gives what the guest functions `LoadWasmModule` and `LoadWasmModulePhys`
 * answer.
 */
module WasmSandboxes {
  import V = Values
  import opened Host
  import opened Metrics

  /** The guest address at which a module file or host buffer is mapped. */
  const MAPPED_BINARY_VA: V.UInt64 := 0x1_0000_0000

  const LOAD_WASM_MODULE: string := "LoadWasmModule"
  const NO_WASM_SANDBOX: string := "WasmSandbox is None, cannot load module"
  const NO_INNER_TO_CALL: string := "No inner MultiUseSandbox to call_guest_function"
  const NO_INNER_TO_DEVOLVE: string := "No inner MultiUseSandbox to devolve"

  /** What the guest's loading functions answer for given arguments. */
  datatype GuestCalls = GuestCalls(
    loadWasmModule: (seq<V.Byte>, V.Int32) -> Result<V.Int32>,
    loadWasmModulePhys: (V.UInt64, V.UInt64) -> Result<()>)

  /**
   * The call made while loading from bytes in host memory: the bytes are
   * copied into the guest with their length, and a non-zero status from the
   * guest is an error. The length is converted with `as i32`, so it is the
   * true length for every buffer shorter than 2 GiB.
   */
  function BufferTransition(buffer: seq<V.Byte>, guest: GuestCalls): (r: Result<()>)
    ensures var answer := guest.loadWasmModule(buffer, V.UsizeAsI32(|buffer|));
      && (r.Ok? <==> answer == Ok(0))
      && (answer.Err? ==> r == Err(answer.error))
      && (answer.Ok? && answer.value != 0 ==> r == Err(NonZeroReturn(LOAD_WASM_MODULE, answer.value)))
    ensures |buffer| < V.TWO_31 ==> (r.Ok? <==> guest.loadWasmModule(buffer, |buffer|) == Ok(0))
  {
    var status :- guest.loadWasmModule(buffer, V.UsizeAsI32(|buffer|));
    if status != 0 then Err(NonZeroReturn(LOAD_WASM_MODULE, status)) else Ok(())
  }

  /**
   * The call made while loading a module file: map the file copy-on-write at
   * `MAPPED_BINARY_VA` and let the guest load it in place; only if mapping
   * fails, read the file and load its bytes as a buffer. `mapped` is the
   * mapping's outcome (the mapped length), `read` the file read's.
   */
  function FileTransition(mapped: Result<V.UInt64>, read: Result<seq<V.Byte>>, guest: GuestCalls): (r: Result<()>)
    ensures mapped.Ok? ==> r == guest.loadWasmModulePhys(MAPPED_BINARY_VA, mapped.value)
    ensures mapped.Err? && read.Err? ==> r == Err(read.error)
    ensures mapped.Err? && read.Ok? ==> r == BufferTransition(read.value, guest)
  {
    match mapped
    case Ok(len) => guest.loadWasmModulePhys(MAPPED_BINARY_VA, len)
    case Err(_) =>
      var bytes :- read;
      BufferTransition(bytes, guest)
  }

  /** A file that maps is never read: the outcome does not depend on the read. */
  lemma MappedFileIsNotRead(mapped: Result<V.UInt64>, read1: Result<seq<V.Byte>>, read2: Result<seq<V.Byte>>, guest: GuestCalls)
    requires mapped.Ok?
    ensures FileTransition(mapped, read1, guest) == FileTransition(mapped, read2, guest)
  {
  }

  /**
   * The region that maps `len` bytes of host memory at `base` into the guest
   * at `MAPPED_BINARY_VA`: readable and executable by the guest, never
   * writable, so the guest cannot change the host's buffer. The host end
   * wraps around as `wrapping_add` does.
   */
  function MappingRegion(base: V.UInt64, len: nat): (r: MemoryRegion)
    requires len < V.TWO_63
    ensures r.guestStart == MAPPED_BINARY_VA && r.guestEnd - r.guestStart == len
    ensures r.hostStart == base
    ensures base + len < V.TWO_64 ==> r.hostEnd - r.hostStart == len
    ensures Write !in r.flags && r.flags == {Read, Execute}
    ensures r.regionType == Heap
  {
    MemoryRegion(base, (base + len) % V.TWO_64, MAPPED_BINARY_VA, MAPPED_BINARY_VA + len,
      {Read, Execute}, Heap)
  }

  /**
   * The call made while loading from host memory by mapping: map the region
   * and let the guest load it in place; if mapping fails, copy the `len`
   * bytes at `base` (here `hostBytes`) and load them as a buffer. The caller
   * of the unsafe operation vouches that `len` bytes at `base` are readable,
   * which Rust's slice rules bound by `isize::MAX`.
   */
  function MappingTransition(
    base: V.UInt64, len: nat, hostBytes: seq<V.Byte>,
    mapRegion: MemoryRegion -> Result<()>, guest: GuestCalls): (r: Result<()>)
    requires len < V.TWO_63 && |hostBytes| == len
    ensures mapRegion(MappingRegion(base, len)).Ok? ==>
      r == guest.loadWasmModulePhys(MAPPED_BINARY_VA, len)
    ensures mapRegion(MappingRegion(base, len)).Err? ==>
      r == BufferTransition(hostBytes, guest)
  {
    if mapRegion(MappingRegion(base, len)).Ok? then
      guest.loadWasmModulePhys(MAPPED_BINARY_VA, len)
    else
      BufferTransition(hostBytes, guest)
  }

  /**
   * The sandbox a load produces from the inner sandbox: none without an
   * inner sandbox, the transition's error if loading fails, otherwise what
   * the host library makes of the sandbox after the transition.
   */
  function LoadOutcome(inner: V.Option<MultiUse>, transition: Result<()>, evolve: MultiUse -> Result<MultiUse>): (r: Result<MultiUse>)
    ensures r.Ok? <==> inner.Some? && transition.Ok? && evolve(inner.value).Ok?
    ensures r.Ok? ==> r.value == evolve(inner.value).value
    ensures inner.None? ==> r == Err(Message(NO_WASM_SANDBOX))
    ensures inner.Some? && transition.Err? ==> r == Err(transition.error)
  {
    match inner
    case None => Err(Message(NO_WASM_SANDBOX))
    case Some(sandbox) =>
      if transition.Err? then Err(transition.error) else evolve(sandbox)
  }

  /** What a guest call through a loaded sandbox answers. */
  function CallOutcome(
    inner: V.Option<MultiUse>, name: string, args: seq<V.ParameterValue>,
    callGuest: (MultiUse, string, seq<V.ParameterValue>) -> Result<V.ReturnValue>): (r: Result<V.ReturnValue>)
    ensures inner.None? ==> r == Err(Message(NO_INNER_TO_CALL))
    ensures inner.Some? ==> r == callGuest(inner.value, name, args)
  {
    match inner
    case None => Err(Message(NO_INNER_TO_CALL))
    case Some(sandbox) => callGuest(sandbox, name, args)
  }

  /** The sandbox an unload produces from the inner sandbox. */
  function DevolveOutcome(inner: V.Option<MultiUse>, devolve: MultiUse -> Result<MultiUse>): (r: Result<MultiUse>)
    ensures r.Ok? <==> inner.Some? && devolve(inner.value).Ok?
    ensures inner.None? ==> r == Err(Message(NO_INNER_TO_DEVOLVE))
    ensures inner.Some? ==> r == devolve(inner.value)
  {
    match inner
    case None => Err(Message(NO_INNER_TO_DEVOLVE))
    case Some(sandbox) => devolve(sandbox)
  }

  /** A sandbox with the Wasm engine running and no module loaded. */
  class WasmSandbox {
    const metrics: Recorder
    var inner: V.Option<MultiUse>
    var dropped: bool

    /** Wraps a started sandbox, counting it as active and as created. */
    constructor (metrics: Recorder, inner: MultiUse)
      modifies metrics
      ensures this.metrics == metrics && this.inner == V.Some(inner) && !dropped
      ensures metrics.values ==
        Bumped(Bumped(old(metrics.values), ActiveWasmSandboxes, 1), TotalWasmSandboxes, 1)
    {
      this.metrics := metrics;
      this.inner := V.Some(inner);
      dropped := false;
      new;
      metrics.Increment(ActiveWasmSandboxes);
      metrics.Increment(TotalWasmSandboxes);
    }

    /**
     * Consumes this sandbox to load a module with the given transition. On
     * success the load is counted and a new loaded sandbox, active and
     * counted, holds the evolved sandbox. Either way this sandbox is dropped
     * and no longer active.
     */
    method LoadModuleInner(transition: Result<()>, evolve: MultiUse -> Result<MultiUse>) returns (r: Result<LoadedWasmSandbox>)
      requires !dropped
      modifies this, metrics
      ensures dropped && inner.None?
      ensures var outcome := LoadOutcome(old(inner), transition, evolve);
        && (r.Ok? <==> outcome.Ok?)
        && (r.Err? ==> r.error == outcome.error)
        && (r.Ok? ==> (fresh(r.value) && r.value.metrics == metrics
              && r.value.inner == V.Some(outcome.value) && !r.value.dropped))
        && (metrics.values ==
              if outcome.Ok? then
                Bumped(Bumped(Bumped(Bumped(old(metrics.values),
                  SandboxLoads, 1), ActiveLoadedWasmSandboxes, 1), TotalLoadedWasmSandboxes, 1),
                  ActiveWasmSandboxes, -1)
              else
                Bumped(old(metrics.values), ActiveWasmSandboxes, -1))
    {
      var taken := inner;
      inner := V.None;
      match taken {
        case None =>
          r := Err(Message(NO_WASM_SANDBOX));
        case Some(sandbox) =>
          if transition.Err? {
            r := Err(transition.error);
          } else {
            var evolved := evolve(sandbox);
            if evolved.Err? {
              r := Err(evolved.error);
            } else {
              metrics.Increment(SandboxLoads);
              var loaded := new LoadedWasmSandbox(metrics, evolved.value);
              r := Ok(loaded);
            }
          }
      }
      Drop();
    }

    /** Loads the module file whose mapping and reading give `mapped` and `read`. */
    method LoadModule(
      mapped: Result<V.UInt64>, read: Result<seq<V.Byte>>, guest: GuestCalls,
      evolve: MultiUse -> Result<MultiUse>) returns (r: Result<LoadedWasmSandbox>)
      requires !dropped
      modifies this, metrics
      ensures dropped
      ensures var outcome := LoadOutcome(old(inner), FileTransition(mapped, read, guest), evolve);
        && (r.Ok? <==> outcome.Ok?)
        && (r.Err? ==> r.error == outcome.error)
        && (r.Ok? ==> (fresh(r.value) && r.value.metrics == metrics
              && r.value.inner == V.Some(outcome.value) && !r.value.dropped))
        && (metrics.values ==
              if outcome.Ok? then
                Bumped(Bumped(Bumped(Bumped(old(metrics.values),
                  SandboxLoads, 1), ActiveLoadedWasmSandboxes, 1), TotalLoadedWasmSandboxes, 1),
                  ActiveWasmSandboxes, -1)
              else
                Bumped(old(metrics.values), ActiveWasmSandboxes, -1))
    {
      r := LoadModuleInner(FileTransition(mapped, read, guest), evolve);
    }

    /** Loads the module held in `len` bytes of host memory at `base`. */
    method LoadModuleByMapping(
      base: V.UInt64, len: nat, hostBytes: seq<V.Byte>, mapRegion: MemoryRegion -> Result<()>,
      guest: GuestCalls, evolve: MultiUse -> Result<MultiUse>) returns (r: Result<LoadedWasmSandbox>)
      requires !dropped
      requires len < V.TWO_63 && |hostBytes| == len
      modifies this, metrics
      ensures dropped
      ensures var outcome := LoadOutcome(old(inner), MappingTransition(base, len, hostBytes, mapRegion, guest), evolve);
        && (r.Ok? <==> outcome.Ok?)
        && (r.Err? ==> r.error == outcome.error)
        && (r.Ok? ==> (fresh(r.value) && r.value.metrics == metrics
              && r.value.inner == V.Some(outcome.value) && !r.value.dropped))
        && (metrics.values ==
              if outcome.Ok? then
                Bumped(Bumped(Bumped(Bumped(old(metrics.values),
                  SandboxLoads, 1), ActiveLoadedWasmSandboxes, 1), TotalLoadedWasmSandboxes, 1),
                  ActiveWasmSandboxes, -1)
              else
                Bumped(old(metrics.values), ActiveWasmSandboxes, -1))
    {
      r := LoadModuleInner(MappingTransition(base, len, hostBytes, mapRegion, guest), evolve);
    }

    /** Loads the module held in `buffer`. */
    method LoadModuleFromBuffer(buffer: seq<V.Byte>, guest: GuestCalls, evolve: MultiUse -> Result<MultiUse>)
      returns (r: Result<LoadedWasmSandbox>)
      requires !dropped
      modifies this, metrics
      ensures dropped
      ensures var outcome := LoadOutcome(old(inner), BufferTransition(buffer, guest), evolve);
        && (r.Ok? <==> outcome.Ok?)
        && (r.Err? ==> r.error == outcome.error)
        && (r.Ok? ==> (fresh(r.value) && r.value.metrics == metrics
              && r.value.inner == V.Some(outcome.value) && !r.value.dropped))
        && (metrics.values ==
              if outcome.Ok? then
                Bumped(Bumped(Bumped(Bumped(old(metrics.values),
                  SandboxLoads, 1), ActiveLoadedWasmSandboxes, 1), TotalLoadedWasmSandboxes, 1),
                  ActiveWasmSandboxes, -1)
              else
                Bumped(old(metrics.values), ActiveWasmSandboxes, -1))
    {
      r := LoadModuleInner(BufferTransition(buffer, guest), evolve);
    }

    /** Dropping a sandbox makes it no longer active. */
    method Drop()
      requires !dropped
      modifies this, metrics
      ensures dropped && inner == old(inner)
      ensures metrics.values == Bumped(old(metrics.values), ActiveWasmSandboxes, -1)
    {
      dropped := true;
      metrics.Decrement(ActiveWasmSandboxes);
    }
  }

  /** A sandbox with a module loaded, whose functions can be called. */
  class LoadedWasmSandbox {
    const metrics: Recorder
    var inner: V.Option<MultiUse>
    var dropped: bool

    /** Wraps a sandbox with a module loaded, counting it as active and as created. */
    constructor (metrics: Recorder, inner: MultiUse)
      modifies metrics
      ensures this.metrics == metrics && this.inner == V.Some(inner) && !dropped
      ensures metrics.values ==
        Bumped(Bumped(old(metrics.values), ActiveLoadedWasmSandboxes, 1), TotalLoadedWasmSandboxes, 1)
    {
      this.metrics := metrics;
      this.inner := V.Some(inner);
      dropped := false;
      new;
      metrics.Increment(ActiveLoadedWasmSandboxes);
      metrics.Increment(TotalLoadedWasmSandboxes);
    }

    /** Calls guest function `name` with `args` in the inner sandbox; the sandbox stays usable. */
    method CallGuestFunction(
      name: string, args: seq<V.ParameterValue>,
      callGuest: (MultiUse, string, seq<V.ParameterValue>) -> Result<V.ReturnValue>) returns (r: Result<V.ReturnValue>)
      requires !dropped
      ensures inner.None? ==> r == Err(Message(NO_INNER_TO_CALL))
      ensures inner.Some? ==> r == callGuest(inner.value, name, args)
    {
      r := CallOutcome(inner, name, args, callGuest);
    }

    /** `Callable::call`: the same as `CallGuestFunction`. */
    method Call(
      name: string, args: seq<V.ParameterValue>,
      callGuest: (MultiUse, string, seq<V.ParameterValue>) -> Result<V.ReturnValue>) returns (r: Result<V.ReturnValue>)
      requires !dropped
      ensures r == CallOutcome(inner, name, args, callGuest)
    {
      r := CallGuestFunction(name, args, callGuest);
    }

    /**
     * Consumes this sandbox, giving back a new `WasmSandbox` (active and
     * counted) that holds the devolved inner sandbox. Either way this
     * sandbox is dropped and no longer active.
     */
    method Devolve(devolve: MultiUse -> Result<MultiUse>) returns (r: Result<WasmSandbox>)
      requires !dropped
      modifies this, metrics
      ensures dropped && inner.None?
      ensures var outcome := DevolveOutcome(old(inner), devolve);
        && (r.Ok? <==> outcome.Ok?)
        && (r.Err? ==> r.error == outcome.error)
        && (r.Ok? ==> (fresh(r.value) && r.value.metrics == metrics
              && r.value.inner == V.Some(outcome.value) && !r.value.dropped))
        && (metrics.values ==
              if outcome.Ok? then
                Bumped(Bumped(Bumped(old(metrics.values),
                  ActiveWasmSandboxes, 1), TotalWasmSandboxes, 1), ActiveLoadedWasmSandboxes, -1)
              else
                Bumped(old(metrics.values), ActiveLoadedWasmSandboxes, -1))
    {
      var taken := inner;
      inner := V.None;
      match taken {
        case None =>
          r := Err(Message(NO_INNER_TO_DEVOLVE));
        case Some(sandbox) =>
          var devolved := devolve(sandbox);
          if devolved.Err? {
            r := Err(devolved.error);
          } else {
            var unloaded := new WasmSandbox(metrics, devolved.value);
            r := Ok(unloaded);
          }
      }
      Drop();
    }

    /** Unloads the module: `Devolve`, counting the unload when it succeeds. */
    method UnloadModule(devolve: MultiUse -> Result<MultiUse>) returns (r: Result<WasmSandbox>)
      requires !dropped
      modifies this, metrics
      ensures dropped
      ensures var outcome := DevolveOutcome(old(inner), devolve);
        && (r.Ok? <==> outcome.Ok?)
        && (r.Err? ==> r.error == outcome.error)
        && (r.Ok? ==> (fresh(r.value) && r.value.metrics == metrics
              && r.value.inner == V.Some(outcome.value) && !r.value.dropped))
        && (metrics.values ==
              if outcome.Ok? then
                Bumped(Bumped(Bumped(Bumped(old(metrics.values),
                  ActiveWasmSandboxes, 1), TotalWasmSandboxes, 1), ActiveLoadedWasmSandboxes, -1),
                  SandboxUnloads, 1)
              else
                Bumped(old(metrics.values), ActiveLoadedWasmSandboxes, -1))
    {
      r := Devolve(devolve);
      if r.Ok? {
        metrics.Increment(SandboxUnloads);
      }
    }

    /** Dropping a loaded sandbox makes it no longer active. */
    method Drop()
      requires !dropped
      modifies this, metrics
      ensures dropped && inner == old(inner)
      ensures metrics.values == Bumped(old(metrics.values), ActiveLoadedWasmSandboxes, -1)
    {
      dropped := true;
      metrics.Decrement(ActiveLoadedWasmSandboxes);
    }
  }
}
