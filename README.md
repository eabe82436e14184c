# hyperlight-wasm, modelled in Dafny

hyperlight-wasm runs WebAssembly modules and components inside Hyperlight
micro-VMs. This project models three parts of it and proves properties of
each model.

**The host-side sandbox lifecycle.**
- A `ProtoWasmSandbox` is a VM holding the Wasm runtime binary. Host functions are registered on it, and every registration is recorded as a definition.
- `load_runtime` turns it into a `WasmSandbox`. The VM is started and the guest's `InitWasmRuntime` receives the serialized definitions.
- Loading a module (from a file, a host buffer or a mapped host region) turns a `WasmSandbox` into a `LoadedWasmSandbox`. Unloading turns it back.
- Every step moves the eight process-wide metrics: three gauges of live sandboxes and five counters.
- The `SandboxBuilder` makes the configuration. It keeps the guest input buffer and heap at or above their minimums.

**The guest-side Wasm runtime.**
- Marshalling between Hyperlight values and wasmtime `Val`s, through the guest's linear memory.
- Host functions imported under `env`.
- The WASI preview 1 shims `fd_write`, `fd_fdstat_get`, `fd_seek` and `fd_close`.
- The core-module runtime: `InitWasmRuntime`, `LoadWasmModule`, `LoadWasmModulePhys`, and dispatch to the module's exports.
- The component runtime.
- The platform layer wasmtime is embedded on: mmap, mprotect, trap redirection and TLS.

**The ahead-of-time compiler CLI (`hyperlight-wasm-aot`).**
- Target classification of a precompiled file.
- The engine settings the flags select.
- The default output path.
- Recovery of the wasmtime version from a load error.

## How it is modelled

- **Host sandboxes are classes.** A host sandbox is a Dafny `class` with the source's `inner: Option<…>` field.
  - Rust's move semantics become a `dropped` flag.
  - Each consuming operation requires a sandbox that is not yet dropped. It ends by dropping it, and its contract includes the gauge decrement the drop makes.
- **Metrics are a class.** The metrics recorder is a class holding `map<Metric, int>`. `Metric` is a datatype whose `Name()` is the recorded string.
- **Outside calls are parameters.** The host library (`UninitializedSandbox::new`, `evolve`, `devolve`, `register`, `map_region`, guest calls), wasmtime (compiling, instantiating, running an export) and the guest's own `malloc` and `free` answer through function-typed parameters or values passed in. The guest allocator's answer is all it does: it is taken not to write to or grow linear memory (see "## Left out").
- **Guest linear memory is an array.** Contracts speak of it through `ReadSpec`/`WriteSpec`/`CStrAt`.
- **Loops are methods.** Methods with a loop in the source (`read_cstr`, the iovec loop of `fd_write`, `hostfunc_type`, `init_wasm_runtime`, the parameter loop of `guest_dispatch_function`, `free_return_value_allocations`) are Dafny methods. Each is proved against a specification function, and the properties are proved about that function.
- **Rust integer casts are explicit.** The source's casts (`as i32`, `as u32`, `as usize`) and wrapping `i32` addition are written out in `Values`.

## Model

| member | source | states |
|---|---|---|
| Values.U32AsI32 | src/wasm_runtime/src/marshal.rs:201-207 | `u as i32` is the i32 congruent to `u` modulo 2^32; it is non-negative iff `u < 2^31` |
| Values.I32AsU32 | src/wasm_runtime/src/marshal.rs:243-246 | `i as u32` is congruent to `i` and undoes `U32AsI32` |
| Values.U64AsI64 | src/wasm_runtime/src/marshal.rs:201-207 | `u as i64` is congruent modulo 2^64; non-negative iff `u < 2^63` |
| Values.I64AsU64 | src/wasm_runtime/src/marshal.rs:243-246 | `i as u64` undoes `U64AsI64` |
| Values.UsizeAsI32 | src/hyperlight_wasm/src/sandbox/wasm_sandbox.rs:116 | `len as i32` keeps the low 32 bits; it is the true length below 2^31 |
| Values.WrappingAddI32 | src/wasm_runtime/src/wasip1.rs:76 | wrapping i32 addition differs from the sum by a multiple of 2^32 and equals it when no overflow happens |
| Values.ToLe | src/wasm_runtime/src/wasip1.rs:97-112 | the `width`-byte little-endian layout of `n` has that width and reads back as `n` |
| Values.ToLeFromLe | src/wasm_runtime/src/wasip1.rs:52-58 | every byte string is the layout of its own value |
| Values.I32LeRoundTrip | src/wasm_runtime/src/wasip1.rs:78-80 | `i32::from_le_bytes(i32::to_le_bytes(x)) == x` |
| Values.I32LeBytesRoundTrip | src/wasm_runtime/src/wasip1.rs:52-58 | four bytes read as an i32 and written back are the same bytes |
| Values.Utf8CharLen | src/wasm_runtime/src/wasip1.rs:63-65 | the length of the well-formed UTF-8 character at the head never exceeds the input |
| Values.AsciiIsUtf8 | src/wasm_runtime/src/wasip1.rs:63-65 | pure ASCII passes the `from_utf8` check |
| GuestMemory.ReadSpec | src/wasm_runtime/src/marshal.rs:135-154 | a read of `n` bytes succeeds iff it lies inside the memory, and yields `n` bytes |
| GuestMemory.WriteSpec | src/wasm_runtime/src/marshal.rs:114-133 | after a write the written bytes read back, and the size is unchanged |
| GuestMemory.WriteFrame | src/wasm_runtime/src/marshal.rs:114-133 | a write changes no byte outside its range |
| GuestMemory.CStrAtIff | src/wasm_runtime/src/marshal.rs:156-192 | the C string at `addr` is `s` iff `s` has no NUL and a NUL follows it inside the memory |
| GuestMemory.CStrRoundTrip | src/wasm_runtime/src/marshal.rs:156-192 | a NUL-terminated string written into memory reads back as itself |
| GuestMemory.Instance.constructor | src/wasm_runtime/src/marshal.rs:82-112 | an instance starts with the module's memory image and its export set, and empty call logs |
| GuestMemory.Instance.Malloc | src/wasm_runtime/src/marshal.rs:82-97 | no `malloc` export is an error; otherwise the guest's answer is returned and the `len as i32` request is logged |
| GuestMemory.Instance.Free | src/wasm_runtime/src/marshal.rs:99-112 | no `free` export is an error and logs nothing; otherwise the address is logged and the typed call's answer is returned, including its signature-mismatch or trap error |
| GuestMemory.Instance.Write | src/wasm_runtime/src/marshal.rs:114-133 | no `memory` export or an out-of-range write is an error and leaves memory as it was; otherwise memory becomes `WriteSpec` |
| GuestMemory.Instance.Read | src/wasm_runtime/src/marshal.rs:135-154 | the bytes `ReadSpec` gives, or the missing-memory or out-of-bounds error |
| GuestMemory.Instance.ReadCStr | src/wasm_runtime/src/marshal.rs:156-192 | the byte-by-byte loop yields exactly `CStrAt` of the memory, or the error where the memory ends first |
| Marshal.ReturnAllocations.constructor | src/wasm_runtime/src/marshal.rs:63 | the tracked-allocation list starts empty |
| Marshal.ReturnAllocations.Track | src/wasm_runtime/src/marshal.rs:66-68 | the address is appended to the list |
| Marshal.ReturnAllocations.FreeReturnValueAllocations | src/wasm_runtime/src/marshal.rs:71-80 | the list is drained whatever happens; addresses go to `free` in insertion order up to and including the first failing call, whose error is returned; with no failure every address is freed and the result is Ok |
| Marshal.FirstFailure | src/wasm_runtime/src/marshal.rs:77-79 | the index where the `?` loop stops: every earlier call succeeded, and the call there failed unless it is the end |
| Marshal.ValToHlResult | src/wasm_runtime/src/marshal.rs:233-280 | the result is `ResultSpec` of the results and memory; the pointer of a String or VecBytes result is tracked |
| Marshal.ValToHlParam | src/wasm_runtime/src/marshal.rs:287-335 | one decoding step is `DecodeParamSpec`; every failure is a panic |
| Marshal.CopyIn | src/wasm_runtime/src/marshal.rs:212-224 | `malloc` then `write`; each failure (no export, the allocator's error, no memory, out of range) leaves memory unchanged |
| Marshal.HlParamToVal | src/wasm_runtime/src/marshal.rs:199-226 | scalars become their fixed `Val` without touching memory; a string with an interior NUL panics; a string is copied with its NUL and a byte vector verbatim at the returned address |
| Marshal.HlReturnToVal | src/wasm_runtime/src/marshal.rs:342-370 | the same encoding for a host function's return value, Void becoming `I32(0)`; a String or VecBytes succeeds iff malloc and the write do, a failure leaves memory unchanged with the error `CopyInSpec` names, and one malloc request is logged whenever `malloc` is exported |
| Marshal.IntegerParamResultRoundTrip | src/wasm_runtime/src/marshal.rs:243-246 | Int, UInt, Long and ULong encoded as a `Val` decode back to the same value as a result of that kind |
| Marshal.ScalarParamDecodeRoundTrip | src/wasm_runtime/src/marshal.rs:307-313 | every scalar but Bool survives encoding then decoding as a host-call parameter, consuming exactly one `Val` |
| Marshal.BoolParamDecodeInverts | src/wasm_runtime/src/marshal.rs:311 | as written, a Bool encoded as 1/0 is decoded by `b == 0`, so it comes back negated |
| Marshal.BoolFromI32 | src/wasm_runtime/src/marshal.rs:209 | the Bool an `I32` stands for under the 1/0 encoding: true iff non-zero |
| Marshal.CorrectedScalarParamDecodeRoundTrip | src/wasm_runtime/src/marshal.rs:306-313 | with the Bool arm decoding `b != 0`, every scalar, Bool included, survives encoding then decoding and consumes one `Val` |
| Marshal.StringResultRoundTrip | src/wasm_runtime/src/marshal.rs:250-261 | a UTF-8 C string written into memory is read back as the same String result |
| Marshal.StringArmRoundTrip | src/wasm_runtime/src/marshal.rs:250-261 | the String arm on a written C string yields that string |
| Marshal.VecBytesResultLayout | src/wasm_runtime/src/marshal.rs:262-271 | a 4-byte little-endian length followed by the bytes is read back as exactly those bytes |
| Marshal.VecBytesParamThenLength | src/wasm_runtime/src/marshal.rs:295-329 | a byte vector consumes pointer and length and leaves the length pending; only a following Int takes it, without consuming a `Val` |
| Marshal.DecodeParamConsumes | src/wasm_runtime/src/marshal.rs:287-335 | each step consumes at most two `Val`s and never adds any |
| HostFuncs.GetHostFunctionDetails | src/wasm_runtime/src/hostfuncs.rs:43-45 | the placeholder always panics |
| HostFuncs.LowerParams | src/wasm_runtime/src/hostfuncs.rs:58-69 | one Wasm type per parameter, in order: integers and pointers to I32/I64, floats to F32/F64 |
| HostFuncs.ReturnLowering | src/wasm_runtime/src/hostfuncs.rs:71-91 | Void has no results and the others one; Bool, Float, Double and String are refused with a guest error that names the refused type |
| HostFuncs.UnsupportedReturnNamesType | src/wasm_runtime/src/hostfuncs.rs:82-90 | the refusal's message names the return type: two refusals are equal iff their types are |
| HostFuncs.HostfuncType | src/wasm_runtime/src/hostfuncs.rs:47-93 | the loop succeeds iff no non-Int parameter follows a byte vector and the return type lowers; it then gives the lowered signature and otherwise the matching error |
| HostFuncs.DecodeHostCallParams | src/wasm_runtime/src/hostfuncs.rs:101-108 | the `scan` over the declared types equals `DecodeAll`; any failure is a panic |
| HostFuncs.Call | src/wasm_runtime/src/hostfuncs.rs:95-112 | the host is called with exactly the decoded parameters; a decoding panic or a host failure aborts the guest |
| HostFuncs.EncodingMatchesLowering | src/wasm_runtime/src/hostfuncs.rs:58-69 | a scalar argument encoded by `hl_param_to_val` has the Wasm type its Hyperlight type lowers to; String and VecBytes lower to I32, the type of the address passed for them |
| HostFuncs.DecodeParamTyped | src/wasm_runtime/src/marshal.rs:306-329 | a decoded parameter has the declared type |
| HostFuncs.DecodeAllTyped | src/wasm_runtime/src/hostfuncs.rs:101-108 | a successful decode yields one value per declared type, each of that type |
| HostFuncs.DecodeAllAppend | src/wasm_runtime/src/hostfuncs.rs:101-108 | decoding `pre + rest` is decoding `pre`, then `rest` from the state it leaves |
| HostFuncs.VecBytesWithLengthDecodes | src/wasm_runtime/src/hostfuncs.rs:47-112 | `(VecBytes, Int)` is accepted, lowers to two I32s, and decodes to the bytes at the pointer and the length |
| HostFuncs.VecBytesAndLengthSignature | src/wasm_runtime/src/hostfuncs.rs:47-70 | `(VecBytes, Int)` passes the signature check and lowers to two I32s |
| HostFuncs.PointerAndLengthDecode | src/wasm_runtime/src/marshal.rs:295-329 | the two `Val`s of a `(VecBytes, Int)` call decode to the bytes and the length |
| HostFuncs.TrailingVecBytesPanics | src/wasm_runtime/src/hostfuncs.rs:47-70 | a trailing byte vector passes the signature check but its call panics for want of a length `Val` |
| HostFuncs.VecFlagNeverCleared | src/wasm_runtime/src/hostfuncs.rs:49-67 | after the first byte vector every parameter must be Int, so a second vector is refused |
| Wasip1.Usize | src/wasm_runtime/src/wasip1.rs:43-44 | `x as usize` is `x` for non-negative `x` and at least 2^63 otherwise |
| Wasip1.FdSeek | src/wasm_runtime/src/wasip1.rs:29-35 | always panics |
| Wasip1.FdClose | src/wasm_runtime/src/wasip1.rs:84-86 | always panics |
| Wasip1.ReadIovec | src/wasm_runtime/src/wasip1.rs:50-62 | reads the `{buf, len}` iovec and the bytes it designates, as `IovecChunk` |
| Wasip1.PrintIovecs | src/wasm_runtime/src/wasip1.rs:48-77 | the loop's outcome and printed strings equal `WriteLoop` |
| Wasip1.FdWrite | src/wasm_runtime/src/wasip1.rs:36-83 | return code, printed strings and memory afterwards equal `FdWriteSpec` |
| Wasip1.FdWriteCodes | src/wasm_runtime/src/wasip1.rs:40-81 | `fd_write` answers 0 or one of -1 to -4, and every answer but 0 leaves memory unchanged |
| Wasip1.FdWritePrintsAll | src/wasm_runtime/src/wasip1.rs:48-81 | on 0 it wrote to stdout through an exported memory and printed every iovec, in order, as UTF-8, each with a reported count |
| Wasip1.FdWriteStoresTotal | src/wasm_runtime/src/wasip1.rs:48-81 | on 0 the stored i32 at `retptr` is the sum of the host's counts modulo 2^32 |
| Wasip1.WriteLoopPrintsAll | src/wasm_runtime/src/wasip1.rs:49-77 | a loop that runs to the end printed every iovec from `i` on, in order |
| Wasip1.WriteLoopTotal | src/wasm_runtime/src/wasip1.rs:73-76 | a finished loop's total is the running total plus the reported counts, modulo 2^32 |
| Wasip1.WriteLoopCodes | src/wasm_runtime/src/wasip1.rs:63-75 | an early return carries -2, -3 or -4 |
| Wasip1.IovecLayout | src/wasm_runtime/src/wasip1.rs:50-62 | an iovec laid out little-endian designates the `len` bytes at `buf` |
| Wasip1.FdFdstatGet | src/wasm_runtime/src/wasip1.rs:87-120 | return code and memory equal `FdFdstatGetSpec` |
| Wasip1.FdstatWritesSucceed | src/wasm_runtime/src/wasip1.rs:94-114 | the four field writes succeed iff the 24-byte record lies inside memory |
| Wasip1.FdstatSucceeds | src/wasm_runtime/src/wasip1.rs:90-118 | 0 exactly for stdout, an exported memory and a record inside it; otherwise -1 or a panic |
| Wasip1.FdstatRecord | src/wasm_runtime/src/wasip1.rs:97-112 | on success the record reads back as a regular file, no flags, read/write/seek rights; the padding and the rest of memory are untouched |
| RuntimeCommon.FirstTwo | src/wasm_runtime/src/module.rs:127-128 | both parameters are taken (a missing or short list panics) before any type is checked |
| RuntimeCommon.LoadBytesArgs | src/wasm_runtime/src/module.rs:121-140 | succeeds iff `(VecBytes, Int)` with an engine, yielding the bytes; otherwise the mismatch error or a panic |
| RuntimeCommon.LoadPhysArgs | src/wasm_runtime/src/module.rs:142-157 | succeeds iff `(ULong, ULong)` with an engine, yielding address and length |
| RuntimeCommon.LoadIgnoresLength | src/wasm_runtime/src/module.rs:124 | the length argument of `LoadWasmModule` does not affect what is loaded |
| ModuleRuntime.Define | src/wasm_runtime/src/module.rs:106-114 | defining succeeds iff the `(module, name)` pair is new, and appends exactly that import |
| ModuleRuntime.WasiImports | src/wasm_runtime/src/wasip1.rs:28-122 | the four WASI shims, in definition order |
| ModuleRuntime.RegisterHandlersOnFreshLinker | src/wasm_runtime/src/module.rs:98-99 | `register_handlers` on a fresh linker succeeds and defines exactly the four shims |
| ModuleRuntime.LinkEnvSucceeds | src/wasm_runtime/src/module.rs:104-115 | linking succeeds iff every signature lowers, names are distinct and none is already under `env` |
| ModuleRuntime.LinkEnvAppends | src/wasm_runtime/src/module.rs:104-115 | a successful link appends one `env` import per host function, in order |
| ModuleRuntime.DefinedAfterAppend | src/wasm_runtime/src/module.rs:106-114 | after appending an import a name is defined iff it was, or is that import |
| ModuleRuntime.MarshalParamsShape | src/wasm_runtime/src/module.rs:66-77 | each parameter becomes one `Val`, in order: scalars by their encoding, pointers as I32 |
| ModuleRuntime.MarshalParamsNulFails | src/wasm_runtime/src/module.rs:66-77 | a String parameter holding a NUL makes the call fail |
| ModuleRuntime.ResultSlots | src/wasm_runtime/src/module.rs:78-80 | no slot for Void, one `I32(0)` otherwise |
| ModuleRuntime.DispatchSpec | src/wasm_runtime/src/module.rs:41-88 | engine, linker and module are checked in that order with their errors; a missing function is refused; only a found function is invoked |
| ModuleRuntime.DispatchArguments | src/wasm_runtime/src/module.rs:66-81 | an invoked export receives one argument per parameter, scalars by their encoding |
| ModuleRuntime.Runtime.constructor | src/wasm_runtime/src/module.rs:37-39 | no engine, linker or module, nothing registered |
| ModuleRuntime.Runtime.HyperlightMain | src/wasm_runtime/src/module.rs:159-190 | page-fault handler, then PrintOutput, InitWasmRuntime, LoadWasmModule and LoadWasmModulePhys registered in order |
| ModuleRuntime.Runtime.InitWasmRuntimeAsWritten | src/wasm_runtime/src/module.rs:90-119 | as written, initialisation always ends in the placeholder's panic once the engine exists |
| ModuleRuntime.Runtime.InitWasmRuntime | src/wasm_runtime/src/module.rs:90-119 | with the host's definitions: the loop links as `InitSpec`; on success engine and linker are set and 0 returned, otherwise the globals are unchanged |
| ModuleRuntime.InitLinksHostFunctions | src/wasm_runtime/src/module.rs:97-118 | initialisation succeeds iff every signature lowers and names are distinct; the linker holds the WASI shims then one `env` import per host function |
| ModuleRuntime.Runtime.LoadWasmModule | src/wasm_runtime/src/module.rs:121-140 | a bad argument or a deserialization error leaves the module unchanged; success sets it and returns Int 0 |
| ModuleRuntime.Runtime.LoadWasmModulePhys | src/wasm_runtime/src/module.rs:142-157 | the same for a guest-physical range, returning Void |
| ModuleRuntime.Runtime.GuestDispatchFunction | src/wasm_runtime/src/module.rs:41-88 | result and arguments equal `DispatchSpec`; only the allocation list grows, by the tracked pointer |
| ComponentRuntime.InitWasmRuntime | src/wasm_runtime/src/component.rs:45-48 | always returns Int 0 |
| ComponentRuntime.GuestDispatchFunction | src/wasm_runtime/src/component.rs:137-143 | every call reaching it is refused as not found, with the function's name |
| ComponentRuntime.Runtime.constructor | src/wasm_runtime/src/component.rs:38-41 | all globals empty |
| ComponentRuntime.Runtime.HyperlightMain | src/wasm_runtime/src/component.rs:100-135 | the recorded steps: handler, engine, linker, the generated initialisation (run with engine and linker set), then the three registrations, so both loaders come after it; a failed engine creation panics after the handler |
| ComponentRuntime.Runtime.LoadComponentCommon | src/wasm_runtime/src/component.rs:50-59 | a missing linker panics; store and instance change only on a successful instantiation |
| ComponentRuntime.Runtime.LoadWasmModule | src/wasm_runtime/src/component.rs:61-80 | each failure (arguments, deserialization, linker, instantiation) leaves store and instance; success makes the new instance current |
| ComponentRuntime.Runtime.LoadWasmModulePhys | src/wasm_runtime/src/component.rs:82-98 | the same for a guest-physical range, returning Void |
| Platform.MmapNew | src/wasm_runtime/src/platform.rs:29-33 | succeeds iff the page-aligned layout is representable, returning 0 and the allocation |
| Platform.MmapRemap | src/wasm_runtime/src/platform.rs:37-43 | always panics |
| Platform.Munmap | src/wasm_runtime/src/platform.rs:45-49 | returns 0 iff the layout is representable |
| Platform.Mprotect | src/wasm_runtime/src/platform.rs:51-59 | answers 0 or -1 |
| Platform.MprotectAcceptsReadable | src/wasm_runtime/src/platform.rs:51-59 | accepted iff the flags are exactly read, read-write or read-execute (1, 3 or 5); every other value, 7 and any value from 8 up included, returns -1 |
| Platform.MemoryImageNew | src/wasm_runtime/src/platform.rs:119-127 | always a null image and 0 |
| Platform.MemoryImageMapAt | src/wasm_runtime/src/platform.rs:129-138 | always panics |
| Platform.MemoryImageFree | src/wasm_runtime/src/platform.rs:140-145 | always panics |
| Platform.TrapSpec | src/wasm_runtime/src/platform.rs:70-98 | handled iff a handler is requested and the exception is #UD; then rip is the handler, gprs[9] the old rip, gprs[10] the frame pointer, gprs[11..12] zero, and nothing else changes |
| Platform.Traps.constructor | src/wasm_runtime/src/platform.rs:69 | no handler requested, no vector installed |
| Platform.Traps.InitTraps | src/wasm_runtime/src/platform.rs:100-116 | records the handler, installs vector 6, returns 0 |
| Platform.Traps.TrapHandler | src/wasm_runtime/src/platform.rs:70-98 | the register writes in place equal `TrapSpec` |
| Platform.RegisteredHandlerCatchesUd | src/wasm_runtime/src/platform.rs:76-97 | with a handler, #UD resumes at it and any other exception is declined |
| Platform.ExceptionInfo.constructor | src/wasm_runtime/src/platform.rs:84-85 | holds the saved rip |
| Platform.Context.constructor | src/wasm_runtime/src/platform.rs:87-91 | holds the saved registers |
| Platform.FakeTls.constructor | src/wasm_runtime/src/platform.rs:149 | starts null |
| Platform.FakeTls.Get | src/wasm_runtime/src/platform.rs:150-153 | the last pointer stored |
| Platform.FakeTls.Set | src/wasm_runtime/src/platform.rs:154-157 | stores the pointer |
| Aot.GetAotTarget | src/hyperlight_wasm_aot/src/main.rs:244-280 | x86_64 is native; RISC-V 64 with the Pulley-64 bit is pulley64; every other case gets its own error |
| Aot.ClassifiesEmittedTarget | src/hyperlight_wasm_aot/src/main.rs:244-280 | a file emitted for a target is classified as that target |
| Aot.AcceptedFilesAreEmitted | src/hyperlight_wasm_aot/src/main.rs:244-280 | every accepted file is one a supported target emits |
| Aot.ConfigFor | src/hyperlight_wasm_aot/src/main.rs:209-234 | the target's triple; debug iff debug info and no optimisation; minimal iff no address map and no unwind info |
| Aot.GetConfig | src/hyperlight_wasm_aot/src/main.rs:209-234 | the step-by-step configuration equals `ConfigFor` |
| Aot.CheckConfigMatchesCompile | src/hyperlight_wasm_aot/src/main.rs:152-162 | checking uses the configuration the file was compiled with (without `minimal`) |
| Aot.LastIndexOf | src/hyperlight_wasm_aot/src/main.rs:104-106 | the last occurrence, or -1 |
| Aot.FileNameSpan | src/hyperlight_wasm_aot/src/main.rs:104-106 | under Unix path rules, a file name lies after a slash, holds none, and is not `.` or `..` |
| Aot.StemLength | src/hyperlight_wasm_aot/src/main.rs:104-106 | a non-empty name has a non-empty stem no longer than it |
| Aot.FileNameIsLastComponent | src/hyperlight_wasm_aot/src/main.rs:104-106 | the file name is the last component when it is neither `.` nor `..` |
| Aot.SetExtensionOfFile | src/hyperlight_wasm_aot/src/main.rs:104-106 | `dir/stem.prior` becomes `dir/stem.ext` |
| Aot.DefaultOutputReplacesExtension | src/hyperlight_wasm_aot/src/main.rs:101-108 | without an output, `dir/stem.ext` is compiled to `dir/stem.aot` |
| Aot.SetExtensionIdempotent | src/hyperlight_wasm_aot/src/main.rs:104-106 | setting the extension twice is setting it once |
| Aot.TrimStartMatches | src/hyperlight_wasm_aot/src/main.rs:184 | a suffix of the input that no longer starts with the pattern |
| Aot.Trim | src/hyperlight_wasm_aot/src/main.rs:184 | no whitespace at either end |
| Aot.VersionFromError | src/hyperlight_wasm_aot/src/main.rs:176-189 | a version iff the error starts with the incompatible-version text, trimmed |
| Aot.VersionRoundTrip | src/hyperlight_wasm_aot/src/main.rs:176-189 | a version written after the prefix, with trailing whitespace, is recovered exactly |
| Aot.Compile | src/hyperlight_wasm_aot/src/main.rs:93-131 | output path (given, or input with `.aot`), pulley64 iff `--pulley`, and the configuration of the flags |
| Aot.CheckWasmtimeVersion | src/hyperlight_wasm_aot/src/main.rs:132-204 | each report arises exactly under its conditions; for a precompiled module of a valid target the report is fixed: a load gives the tool's version, a version-mismatch error the parsed version, any other error `LoadFailed` with that message |
| Metrics.EightDistinctMetrics | src/hyperlight_wasm/src/sandbox/metrics.rs:22-33 | three gauges and five counters under eight distinct names |
| Metrics.Recorder.constructor | src/hyperlight_wasm/src/sandbox/metrics.rs:44-46 | a fresh recorder holds nothing |
| Metrics.Recorder.Increment | src/hyperlight_wasm/src/sandbox/wasm_sandbox.rs:53-54 | one metric goes up by one, the others are unchanged |
| Metrics.Recorder.Decrement | src/hyperlight_wasm/src/sandbox/wasm_sandbox.rs:164 | one metric goes down by one, the others are unchanged |
| WasmSandboxes.BufferTransition | src/hyperlight_wasm/src/sandbox/wasm_sandbox.rs:112-126 | succeeds iff the guest's `LoadWasmModule` answers 0; a non-zero status is an error; below 2 GiB the true length is passed |
| WasmSandboxes.FileTransition | src/hyperlight_wasm/src/sandbox/wasm_sandbox.rs:64-71 | a mapped file is loaded in place at the fixed address; otherwise it is read and loaded as a buffer |
| WasmSandboxes.MappedFileIsNotRead | src/hyperlight_wasm/src/sandbox/wasm_sandbox.rs:65-66 | once the file maps, the outcome does not depend on reading it |
| WasmSandboxes.MappingRegion | src/hyperlight_wasm/src/sandbox/wasm_sandbox.rs:92-98 | guest range at the fixed address of the given length; read and execute, never write; heap; the host end wraps |
| WasmSandboxes.MappingTransition | src/hyperlight_wasm/src/sandbox/wasm_sandbox.rs:91-106 | a mapped region is loaded in place; otherwise the bytes are copied and loaded as a buffer |
| WasmSandboxes.LoadOutcome | src/hyperlight_wasm/src/sandbox/wasm_sandbox.rs:140-153 | succeeds iff there is an inner sandbox, the transition succeeds and the library evolves it |
| WasmSandboxes.CallOutcome | src/hyperlight_wasm/src/sandbox/loaded_wasm_sandbox.rs:53-62 | the guest's answer, or the missing-inner error |
| WasmSandboxes.DevolveOutcome | src/hyperlight_wasm/src/sandbox/loaded_wasm_sandbox.rs:92-98 | the library's devolved sandbox, or the missing-inner error |
| WasmSandboxes.WasmSandbox.constructor | src/hyperlight_wasm/src/sandbox/wasm_sandbox.rs:52-56 | holds the sandbox; active and total Wasm sandboxes go up by one |
| WasmSandboxes.WasmSandbox.LoadModuleInner | src/hyperlight_wasm/src/sandbox/wasm_sandbox.rs:140-153 | consumes the sandbox; on success a new loaded sandbox holds the evolved one and loads, active and total loaded go up; active Wasm goes down either way |
| WasmSandboxes.WasmSandbox.LoadModule | src/hyperlight_wasm/src/sandbox/wasm_sandbox.rs:63-73 | `LoadModuleInner` with the file transition |
| WasmSandboxes.WasmSandbox.LoadModuleByMapping | src/hyperlight_wasm/src/sandbox/wasm_sandbox.rs:86-108 | `LoadModuleInner` with the mapping transition |
| WasmSandboxes.WasmSandbox.LoadModuleFromBuffer | src/hyperlight_wasm/src/sandbox/wasm_sandbox.rs:133-138 | `LoadModuleInner` with the buffer transition |
| WasmSandboxes.WasmSandbox.Drop | src/hyperlight_wasm/src/sandbox/wasm_sandbox.rs:162-166 | the active Wasm gauge goes down by one |
| WasmSandboxes.LoadedWasmSandbox.constructor | src/hyperlight_wasm/src/sandbox/loaded_wasm_sandbox.rs:70-74 | active and total loaded sandboxes go up by one |
| WasmSandboxes.LoadedWasmSandbox.CallGuestFunction | src/hyperlight_wasm/src/sandbox/loaded_wasm_sandbox.rs:53-62 | the guest's answer, or the missing-inner error; the sandbox stays usable |
| WasmSandboxes.LoadedWasmSandbox.Call | src/hyperlight_wasm/src/sandbox/loaded_wasm_sandbox.rs:77-85 | the same answer as `CallGuestFunction` |
| WasmSandboxes.LoadedWasmSandbox.Devolve | src/hyperlight_wasm/src/sandbox/loaded_wasm_sandbox.rs:92-98 | consumes the sandbox; on success a new Wasm sandbox holds the devolved one; active loaded goes down either way |
| WasmSandboxes.LoadedWasmSandbox.UnloadModule | src/hyperlight_wasm/src/sandbox/loaded_wasm_sandbox.rs:64-68 | `Devolve`, counting one unload on success only |
| WasmSandboxes.LoadedWasmSandbox.Drop | src/hyperlight_wasm/src/sandbox/loaded_wasm_sandbox.rs:101-105 | the active loaded gauge goes down by one |
| ProtoSandbox.RuntimeOutcome | src/hyperlight_wasm/src/sandbox/proto_wasm_sandbox.rs:100-125 | succeeds iff the definitions serialize, the inner sandbox exists and starts, and `InitWasmRuntime` answers 0; each failure has its error |
| ProtoSandbox.ProtoWasmSandbox.constructor | src/hyperlight_wasm/src/sandbox/proto_wasm_sandbox.rs:77-91 | the only recorded definition is `HostPrint(String) -> Int`; active and total proto sandboxes go up |
| ProtoSandbox.ProtoWasmSandbox.New | src/hyperlight_wasm/src/sandbox/proto_wasm_sandbox.rs:72-92 | succeeds iff the VM is created; the metrics move only on success |
| ProtoSandbox.ProtoWasmSandbox.Register | src/hyperlight_wasm/src/sandbox/proto_wasm_sandbox.rs:130-146 | the definition is appended whatever the outcome; the outcome is the library's, or the missing-inner error |
| ProtoSandbox.ProtoWasmSandbox.RegisterHostFunction | src/hyperlight_wasm/src/sandbox/proto_wasm_sandbox.rs:42-58 | the same as `Register` |
| ProtoSandbox.ProtoWasmSandbox.RegisterPrint | src/hyperlight_wasm/src/sandbox/proto_wasm_sandbox.rs:150-161 | replaces the print function without recording a definition |
| ProtoSandbox.ProtoWasmSandbox.LoadRuntime | src/hyperlight_wasm/src/sandbox/proto_wasm_sandbox.rs:100-125 | consumes the sandbox and takes its definitions; on success a new Wasm sandbox holds the started VM; active proto goes down either way |
| ProtoSandbox.ProtoWasmSandbox.Drop | src/hyperlight_wasm/src/sandbox/proto_wasm_sandbox.rs:170-174 | the active proto gauge goes down by one |
| Builder.SandboxBuilder.WithDebuggingEnabled | src/hyperlight_wasm/src/sandbox/sandbox_builder.rs:63-69 | sets the debug port, nothing else |
| Builder.SandboxBuilder.WithHostPrintFn | src/hyperlight_wasm/src/sandbox/sandbox_builder.rs:72-78 | sets the print function, configuration unchanged |
| Builder.SandboxBuilder.WithGuestOutputBufferSize | src/hyperlight_wasm/src/sandbox/sandbox_builder.rs:81-84 | sets the output size, nothing else |
| Builder.SandboxBuilder.WithGuestInputBufferSize | src/hyperlight_wasm/src/sandbox/sandbox_builder.rs:91-96 | takes the size only above the minimum, otherwise nothing changes; the minimums are kept |
| Builder.SandboxBuilder.WithGuestStackSize | src/hyperlight_wasm/src/sandbox/sandbox_builder.rs:102-107 | takes the size only above the minimum, otherwise nothing changes |
| Builder.SandboxBuilder.WithGuestHeapSize | src/hyperlight_wasm/src/sandbox/sandbox_builder.rs:113-118 | takes the size only above the minimum, otherwise nothing changes; the minimums are kept |
| Builder.SandboxBuilder.WithCrashdumpEnabled | src/hyperlight_wasm/src/sandbox/sandbox_builder.rs:123-127 | sets core dumps on or off, nothing else |
| Builder.SandboxBuilder.WithFunctionDefinitionSize | src/hyperlight_wasm/src/sandbox/sandbox_builder.rs:132-135 | sets the definition buffer size, nothing else |
| Builder.NewBuilder | src/hyperlight_wasm/src/sandbox/sandbox_builder.rs:38-47 | the defaults with the input buffer and heap at their minimums, no print function |
| Builder.StepsKeepMinimums | src/hyperlight_wasm/src/sandbox/sandbox_builder.rs:81-135 | no chain of builder calls takes the input buffer or heap below its minimum |
| Builder.BuiltConfigHasMinimums | src/hyperlight_wasm/src/sandbox/sandbox_builder.rs:38-47 | every builder from `NewBuilder` and any calls has the minimum input buffer and heap |
| Builder.StackIsDefaultOrAboveMinimum | src/hyperlight_wasm/src/sandbox/sandbox_builder.rs:102-107 | the stack size is the default or above the minimum after any chain of calls |
| Builder.Build | src/hyperlight_wasm/src/sandbox/sandbox_builder.rs:138-150 | no hypervisor is an error with no metric moved; a creation error is returned; a failed print registration drops the new sandbox |
| Builder.DefaultSandbox | src/hyperlight_wasm/src/sandbox/proto_wasm_sandbox.rs:196-200 | succeeds iff a hypervisor is present and the VM is created; otherwise the `unwrap` panics |
| Lifecycle.LoadAndUnloadOnce | src/hyperlight_wasm/src/sandbox/metrics.rs:41-61 | after default, load runtime, load module and unload: all eight metrics recorded, every gauge 0, totals 1/2/1, one load and one unload |
| Lifecycle.OnceValues | src/hyperlight_wasm/src/sandbox/metrics.rs:48-60 | the metric values after each step of that scenario |
| Lifecycle.LoadUnloadCycles | src/hyperlight_wasm/src/sandbox/loaded_wasm_sandbox.rs:154-253 | `n` successful load/unload cycles on one sandbox add `n` loads, unloads, loaded and Wasm sandboxes and leave every gauge as it was |
| Lifecycle.CycleValues | src/hyperlight_wasm/src/sandbox/wasm_sandbox.rs:140-153 | one cycle adds one to each counter it touches and leaves the gauges |

## Left out

- The flatbuffer encodings of `FunctionCall`, `ReturnValue` and `HostFunctionDetails` are not modelled. The decoded values stand for them, and the serializer is a parameter of `ProtoSandbox.ProtoWasmSandbox.LoadRuntime`.
- wasmtime itself is not modelled: compiling, deserializing, instantiating and running an export answer through parameters. The same holds for the host library (`UninitializedSandbox`, `MultiUseSandbox::evolve`/`devolve`, `map_file_cow`, `map_region`, guest calls) and the guest's own `malloc` and `free`, whose only modelled effect is their answer. Host sandbox handles are opaque.
- Error messages built with `format!` are represented by their parts. Examples: `NonZeroReturn(name, code)` for "… Failed with error code", `HostFuncs.UnsupportedReturn(rt)` with the return type's `{:?}` name spliced in, a fixed string for the panics of `fd_seek`/`fd_close`.
- Floating-point values are carried as their IEEE-754 bit patterns. `to_bits`/`from_bits` are then the identity.
- GuestMemory.Instance.constructor: requires a linear memory below 2 GiB, so every address is a non-negative `i32`. Larger 32-bit memories are not modelled.
- Marshal.ValToHlResult: the result is the decoded `ReturnValue`, not its flatbuffer bytes.
- GuestMemory.Instance.Malloc: the guest allocator is taken to leave linear memory's contents and size unchanged: no bookkeeping writes and no `memory.grow`. Its frame is only the request log. The contracts of `Marshal.CopyIn`, `Marshal.HlParamToVal` and `Marshal.HlReturnToVal` depend on this: the success condition is checked against the size before the call, a failure leaves memory unchanged, and success gives `WriteSpec` of the memory before the call.
- Marshal.ValToHlParam: keeps the Bool arm as written (`b == 0`, see Findings), and so does the host-call decoder built on it. The corrected step is `Marshal.DecodeParamSpecCorrected`. It is stated beside that decoder and not threaded through `HostFuncs`, so that the host-call results describe the code as it stands.
- HostFuncs.Call: the host's answer is discarded by `expect`. The conversion that follows passes the declared return type and the result slots to `hl_return_to_val`, which takes a `ReturnValue` (src/wasm_runtime/src/marshal.rs:342-346), so that call does not match the signature and is not modelled. `Marshal.HlReturnToVal` models the conversion on its own.
- Marshal.ReturnAllocations.FreeReturnValueAllocations: it has no caller in the guest runtime's own sources, so it is modelled on its own.
- `wasmtime_page_size` returns a constant of the guest library and is not modelled.
- `register_page_fault_handler` and `map_buffer` are called from `module.rs`/`component.rs` but defined outside the platform layer's source. The page-fault handler appears only as a recorded start-up step, and `map_buffer` is folded into the `deserializeAt` parameter.
- The generated component bindings (`hyperlight_guest_wasm_init`) are not modelled beyond the point at which they run.
- The `SandboxConfiguration` defaults and any clamping in its setters belong to the host library and are not modelled. The setters are plain field writes.
- Builder.SandboxBuilder.WithDebuggingEnabled: exists only in builds with gdb support. This is not modelled as a build condition.
- Builder.SandboxBuilder.WithCrashdumpEnabled: exists only with the crashdump feature. This is not modelled as a build condition.
- `BuildInfo::log`, the CLI's console output and the process exit status of `check-wasmtime-version` are left out: they are output only.
- The `cargo metadata` lookup is reduced to the tool's wasmtime version, or its absence (`Aot.CheckWasmtimeVersion`).
- Aot.GetConfig: `Config::target(..).unwrap()` is taken to succeed for both supported triples.
- Aot.Compile: reading the input, precompiling and writing the output are wasmtime's and the file system's. The contract covers only the plan: input, output path, target and configuration.
- Aot.FileNameSpan: only Unix path rules are modelled, with `/` as the sole separator. On a Windows host `Path::file_name` and `with_extension` also split at `\` and after a drive prefix (`C:`). So for `dir.x\file` the default output there is `dir.x\file.aot`, while the model gives `dir.aot`. The same holds for `Aot.ComponentEnd`, `Aot.SetExtension` and the default output path of `Aot.Compile`.
- Aot.GetAotTarget: ELF parsing is the `object` crate's. The parsed architecture and header flags are its input.
- Lifecycle.LoadUnloadCycles: the source's threaded test moves sandboxes between threads through queues. The model runs the same load/unload sequence on one thread. Concurrency and the metric recorder's atomicity are not modelled.
- Wasip1.FdWrite: the host's answer to each `HostPrint` call is a parameter.
- Wasip1.FdWrite: `total_written += written` is modelled as the wrapping addition of a release build. The guest runtime is built with the host's own profile (src/hyperlight_wasm/build.rs:35-60), and in a dev build an overflowing total panics instead; that panic is not modelled.
- The guest functions a module runtime registers are recorded as definitions. Their function pointers are not modelled.

## Findings

| source | as written | input that shows it | evidently intended | confidence | as-written member | corrected member |
|---|---|---|---|---|---|---|
| src/wasm_runtime/src/module.rs:101-103 | `init_wasm_runtime` takes the host functions from `get_host_function_details()`, a `todo!()` (src/wasm_runtime/src/hostfuncs.rs:43-45), so it panics | any `InitWasmRuntime` call once the engine is created | link one `env` import per host-function definition, as `load_runtime` passes them serialized (src/hyperlight_wasm/src/sandbox/proto_wasm_sandbox.rs:101-116) | not executed | ModuleRuntime.Runtime.InitWasmRuntimeAsWritten | ModuleRuntime.Runtime.InitWasmRuntime |
| src/wasm_runtime/src/marshal.rs:311 | `val_to_hl_param` decodes a Bool parameter as `*b == 0`, while `hl_param_to_val` and `hl_return_to_val` encode true as 1 (src/wasm_runtime/src/marshal.rs:209, 352) | a host function taking a Bool called with `I32(1)` receives `false` | decode `*b != 0`, the inverse of the encoding | not executed | Marshal.BoolParamDecodeInverts | Marshal.CorrectedScalarParamDecodeRoundTrip |
