/**
 * What the host side of hyperlight-wasm sees of the hyperlight host
 * library: its error type, its `Result`, and opaque handles for the
 * sandboxes it manages. The library's operations (creating, evolving and
 * devolving sandboxes, mapping memory, calling the guest) are not modelled;
 * each appears as an answer passed to the operation that uses it.
 */
module Host {
  import V = Values

  /** `HyperlightError`, as far as hyperlight-wasm tells its cases apart. */
  datatype Error =
    | NoHypervisorFound
    /** An error built from a message (`new_error!`, `log_then_return!`). */
    | Message(text: string)
    /** A guest function that answered with a non-zero status. */
    | NonZeroReturn(functionName: string, code: V.Int32)
    /** An error raised inside the host library or the file system. */
    | Foreign(id: nat)
    /** A host panic (`unwrap` of an error). */
    | Panic(reason: string)

  /** `hyperlight_host::Result`. */
  datatype Result<+T> = Ok(value: T) | Err(error: Error) {
    predicate IsFailure() {
      Err?
    }

    function PropagateFailure<U>(): Result<U>
      requires Err?
    {
      Err(error)
    }

    function Extract(): T
      requires Ok?
    {
      value
    }
  }

  /** An `UninitializedSandbox`: a VM with the guest binary, not yet started. */
  datatype Uninitialized = Uninitialized(handle: nat)

  /** A `MultiUseSandbox`: a started VM that can call guest functions. */
  datatype MultiUse = MultiUse(handle: nat)

  /** A host function the embedder supplies (for printing, say). */
  datatype HostFunction = HostFunction(id: nat)

  /** What the guest VM is started from. */
  datatype GuestBinary = Buffer(bytes: seq<V.Byte>) | FilePath(path: string)

  /**
   * The part of the host library's `SandboxConfiguration` that
   * hyperlight-wasm sets: the sizes of the guest's input and output
   * buffers, stack and heap, the gdb port, core dumps on crash, and the
   * size of the buffer for host function definitions.
   */
  datatype SandboxConfiguration = SandboxConfiguration(
    inputDataSize: nat, outputDataSize: nat,
    stackSize: V.UInt64, heapSize: V.UInt64,
    guestDebugPort: V.Option<V.UInt16>, guestCoreDump: bool,
    hostFunctionDefinitionSize: nat)

  /** `MemoryRegionFlags`. */
  datatype RegionFlag = Read | Write | Execute

  /** `MemoryRegionType`. */
  datatype RegionType = Heap | Code | Stack

  /** A `MemoryRegion`: a host address range mapped at a guest address range. */
  datatype MemoryRegion = MemoryRegion(
    hostStart: V.UInt64, hostEnd: V.UInt64,
    guestStart: nat, guestEnd: nat,
    flags: set<RegionFlag>, regionType: RegionType)
}
