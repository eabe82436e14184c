/**
 * The platform layer wasmtime is embedded on in the guest (`platform.rs`):
 * memory mapping over the guest allocator, the `mprotect` filter, the
 * `#UD` trap redirection, the unsupported memory-image API and the
 * single-threaded stand-in for thread-local storage.
 */
module Platform {
  import opened Values

  /** Mappings are page-aligned allocations. */
  const PAGE_ALIGN: nat := 0x1000
  /** `isize::MAX` on the 64-bit guest. */
  const ISIZE_MAX: nat := 0x7FFF_FFFF_FFFF_FFFF
  /**
   * Vector 6 is the invalid-opcode exception (#UD): AMD64 Architecture
   * Programmer's Manual, Volume 2, section 8.2, Table 8-1.
   */
  const UD_VECTOR: UInt64 := 6

  const REMAP_UNSUPPORTED: string := "wasmtime_mmap_remap"
  const IMAGE_MAP_AT: string := "wasmtime_memory_image_map_at"
  const IMAGE_FREE: string := "wasmtime_memory_image_free"

  /** The null pointer. */
  const NULL: UInt64 := 0

  /**
   * `Layout::from_size_align(size, 0x1000)` is accepted when the size,
   * rounded up to the alignment, does not exceed `isize::MAX`.
   */
  predicate LayoutFits(size: UInt64) {
    size <= ISIZE_MAX - (PAGE_ALIGN - 1)
  }

  /**
   * `wasmtime_mmap_new`: allocate `size` bytes aligned to a page and
   * return 0 with the allocation. `allocate(size, align)` answers for the
   * guest allocator; an unrepresentable layout panics in `unwrap`.
   */
  function MmapNew(size: UInt64, allocate: (UInt64, nat) -> UInt64): (r: Result<(Int32, UInt64)>)
    ensures r.Ok? <==> LayoutFits(size)
    ensures r.Ok? ==> r.value == (0, allocate(size, PAGE_ALIGN))
    ensures r.Fail? ==> r == Fail(Panic(UNWRAP_FAILED))
  {
    if LayoutFits(size) then Ok((0, allocate(size, PAGE_ALIGN))) else Fail(Panic(UNWRAP_FAILED))
  }

  /** `wasmtime_mmap_remap`: precommitted memory cannot be remapped; it always panics. */
  function MmapRemap(addr: UInt64, size: UInt64, protFlags: UInt32): (r: Result<Int32>)
    ensures IsPanic(r)
  {
    Fail(Panic(REMAP_UNSUPPORTED))
  }

  /** `wasmtime_munmap`: free with the same page-aligned layout and return 0. */
  function Munmap(ptr: UInt64, size: UInt64): (r: Result<Int32>)
    ensures r.Ok? <==> LayoutFits(size)
    ensures r.Ok? ==> r.value == 0
  {
    if LayoutFits(size) then Ok(0) else Fail(Panic(UNWRAP_FAILED))
  }

  /**
   * `wasmtime_mprotect`: all memory is already readable, writable and
   * executable, so only requests for read-only (1), read-write (3) and
   * read-execute (5) are accepted (and ignored); everything else fails.
   */
  function Mprotect(ptr: UInt64, size: UInt64, protFlags: UInt32): (r: Int32)
    ensures r == 0 || r == -1
  {
    if protFlags == 1 || protFlags == 3 || protFlags == 5 then 0 else -1
  }

  /**
   * With protection bits read = 1, write = 2, execute = 4: a request is
   * accepted exactly when its flags are read, read-write or read-execute
   * (1, 3 or 5); any other value, 7 and anything from 8 up included, fails.
   */
  lemma MprotectAcceptsReadable(ptr: UInt64, size: UInt64, protFlags: UInt32)
    ensures Mprotect(ptr, size, protFlags) == 0 <==> protFlags % 2 == 1 && protFlags < 7
  {
    if protFlags % 2 == 1 && protFlags < 7 {
      assert protFlags == 1 || protFlags == 3 || protFlags == 5;
    }
  }

  /** `wasmtime_memory_image_new`: memory images are unsupported, so the image is always null. */
  function MemoryImageNew(ptr: UInt64, len: UInt64): (r: (Int32, UInt64))
    ensures r.0 == 0 && r.1 == NULL
  {
    (0, NULL)
  }

  /** `wasmtime_memory_image_map_at`: unreachable while images are null; it panics. */
  function MemoryImageMapAt(image: UInt64, addr: UInt64, len: UInt64): (r: Result<Int32>)
    ensures IsPanic(r)
  {
    Fail(Panic(IMAGE_MAP_AT))
  }

  /** `wasmtime_memory_image_free`: unreachable while images are null; it panics. */
  function MemoryImageFree(image: UInt64): (r: Result<()>)
    ensures IsPanic(r)
  {
    Fail(Panic(IMAGE_FREE))
  }

  // ---------------------------------------------------------------------
  // Trap redirection
  // ---------------------------------------------------------------------

  /**
   * What the trap handler does to the interrupted state, as values:
   * whether it handled the exception, the new `rip`, the new
   * general-purpose registers. On #UD with a requested handler, execution
   * resumes at the handler with the faulting `rip` and the frame pointer
   * (`gprs[8]`) passed in `gprs[9]` and `gprs[10]`, and `gprs[11]`,
   * `gprs[12]` cleared, as the System V AMD64 calling convention expects.
   */
  function TrapSpec(requested: UInt64, exceptionNumber: UInt64, rip: UInt64, gprs: seq<UInt64>)
    : (r: (bool, UInt64, seq<UInt64>))
    requires |gprs| > 12
    ensures |r.2| == |gprs|
    ensures r.0 <==> requested != 0 && exceptionNumber == UD_VECTOR
    ensures !r.0 ==> r.1 == rip && r.2 == gprs
    ensures r.0 ==> r.1 == requested && r.2[9] == rip && r.2[10] == gprs[8] && r.2[11] == 0 && r.2[12] == 0
    ensures forall k :: 0 <= k < |gprs| && !(9 <= k <= 12) ==> r.2[k] == gprs[k]
  {
    if requested != 0 && exceptionNumber == UD_VECTOR then
      (true, requested, gprs[9 := rip][10 := gprs[8]][11 := 0][12 := 0])
    else
      (false, rip, gprs)
  }

  /** The saved instruction pointer of an exception (`ExceptionInfo`). */
  class ExceptionInfo {
    var rip: UInt64

    constructor (rip: UInt64)
      ensures this.rip == rip
    {
      this.rip := rip;
    }
  }

  /** The saved general-purpose registers of an exception (`Context`). */
  class Context {
    const gprs: array<UInt64>

    constructor (regs: seq<UInt64>)
      ensures fresh(gprs) && gprs[..] == regs
    {
      gprs := new UInt64[|regs|](i requires 0 <= i < |regs| => regs[i]);
    }
  }

  /** What a guest exception vector dispatches to. */
  datatype VectorHandler = WasmtimeTrapHandler

  /**
   * The trap-handling globals: the handler wasmtime asked for
   * (`WASMTIME_REQUESTED_TRAP_HANDLER`, 0 when none) and the guest's
   * exception-vector table.
   */
  class Traps {
    var requestedHandler: UInt64
    var vectors: map<UInt64, VectorHandler>

    constructor ()
      ensures requestedHandler == 0 && vectors == map[]
    {
      requestedHandler := 0;
      vectors := map[];
    }

    /**
     * `wasmtime_init_traps`: remember wasmtime's handler and route #UD to
     * the redirecting trap handler; returns 0.
     */
    method InitTraps(handler: UInt64) returns (r: Int32)
      modifies this
      ensures r == 0
      ensures requestedHandler == handler
      ensures vectors == old(vectors)[UD_VECTOR := WasmtimeTrapHandler]
    {
      requestedHandler := handler;
      vectors := vectors[UD_VECTOR := WasmtimeTrapHandler];
      r := 0;
    }

    /**
     * `wasmtime_trap_handler`: the register writes are made one at a
     * time, in the source's order.
     */
    method TrapHandler(exceptionNumber: UInt64, info: ExceptionInfo, ctx: Context) returns (handled: bool)
      requires ctx.gprs.Length > 12
      modifies info, ctx.gprs
      ensures (handled, info.rip, ctx.gprs[..]) ==
        TrapSpec(requestedHandler, exceptionNumber, old(info.rip), old(ctx.gprs[..]))
    {
      var requested := requestedHandler;
      if requested != 0 {
        if exceptionNumber == UD_VECTOR {
          var origRip := info.rip;
          info.rip := requested;
          ctx.gprs[9] := origRip;
          var origRbp := ctx.gprs[8];
          ctx.gprs[10] := origRbp;
          ctx.gprs[11] := 0;
          ctx.gprs[12] := 0;
          return true;
        }
      }
      handled := false;
    }
  }

  /**
   * Once wasmtime has registered a (non-null) handler, an invalid-opcode
   * trap resumes at that handler, and any other exception is declined.
   */
  lemma RegisteredHandlerCatchesUd(h: UInt64, exceptionNumber: UInt64, rip: UInt64, gprs: seq<UInt64>)
    requires h != 0 && |gprs| > 12
    ensures TrapSpec(h, UD_VECTOR, rip, gprs).0 && TrapSpec(h, UD_VECTOR, rip, gprs).1 == h
    ensures exceptionNumber != UD_VECTOR ==> TrapSpec(h, exceptionNumber, rip, gprs) == (false, rip, gprs)
  {
  }

  // ---------------------------------------------------------------------
  // Thread-local storage
  // ---------------------------------------------------------------------

  /** The guest runs one thread, so one global cell stands in for wasmtime's TLS slot. */
  class FakeTls {
    var ptr: UInt64

    constructor ()
      ensures ptr == NULL
    {
      ptr := NULL;
    }

    /** `wasmtime_tls_get`: the last pointer stored. */
    method Get() returns (p: UInt64)
      ensures p == ptr
    {
      p := ptr;
    }

    /** `wasmtime_tls_set`. */
    method Set(p: UInt64)
      modifies this
      ensures ptr == p
    {
      ptr := p;
    }
  }
}
