/**
 * Parameter and return-value marshalling between Hyperlight values and
 * wasmtime `Val`s (src/wasm_runtime/src/marshal.rs). Scalars map to
 * `Val`s directly; strings and byte vectors live in the guest's linear
 * memory in three layouts: NUL-terminated C strings, a 4-byte
 * little-endian length followed by the bytes (guest return buffers), and
 * a pointer/length pair of `Val`s (host-function byte-vector parameters).
 */
module Marshal {
  import opened Values
  import opened GuestMemory

  const MISSING_VECTOR_LENGTH: string := "Host function details missing expected vector buffer length"
  const MISSING_PARAMETER: string := "Host function call missing parameter of type"
  const MISSING_VECBYTES_LENGTH: string := "Host function call missing vecbytes length parameter"
  const UNSUPPORTED_PARAMETER: string := "Host function return type combination unsupported"
  const UNSUPPORTED_RESULT: string := "Hyperlight/wasm function return type combination unsupported"
  const NON_UTF8_RETURN: string := "non-UTF-8 c string in guest function return"
  const INDEX_OUT_OF_BOUNDS: string := "index out of bounds: the len is 0 but the index is 0"
  const NUL_IN_STRING: string := "nul byte found in provided data"

  // ---------------------------------------------------------------------
  // Return-value allocation tracking
  // ---------------------------------------------------------------------

  /**
   * The global list of guest addresses returned as String or VecBytes
   * results; the host owns them and frees them on the next entry.
   */
  class ReturnAllocations {
    var addrs: seq<Int32>

    constructor ()
      ensures addrs == []
    {
      addrs := [];
    }

    /** `track_return_value_allocation` */
    method Track(addr: Int32)
      modifies this
      ensures addrs == old(addrs) + [addr]
    {
      addrs := addrs + [addr];
    }

    /**
     * `free_return_value_allocations`: drain the list, handing each address
     * to the guest's `free` in insertion order, and stop at the first
     * `free` that fails, returning its error. `replies(i)` is the answer of
     * the `i`-th call. The drain empties the list even when it stops early:
     * the addresses after the failing one are forgotten, not freed.
     */
    method FreeReturnValueAllocations(inst: Instance, replies: nat -> Result<()>) returns (r: Result<()>)
      modifies this, inst`freed
      ensures addrs == []
      ensures old(addrs) == [] ==> r == Ok(()) && inst.freed == old(inst.freed)
      ensures !inst.hasFree && old(addrs) != [] ==>
        r == Fail(Error(GuestError, FREE_MISSING)) && inst.freed == old(inst.freed)
      ensures inst.hasFree ==>
        var n := |old(addrs)|;
        var k := FirstFailure(replies, 0, n);
        && (k == n ==> r == Ok(()) && inst.freed == old(inst.freed) + old(addrs))
        && (k < n ==> r == replies(k) && inst.freed == old(inst.freed) + old(addrs)[..k + 1])
    {
      var pending := addrs;
      addrs := [];
      var i := 0;
      while i < |pending|
        invariant 0 <= i <= |pending|
        invariant inst.freed == old(inst.freed) + pending[..i]
        invariant i > 0 ==> inst.hasFree
        invariant forall j :: 0 <= j < i ==> replies(j).Ok?
        invariant addrs == []
      {
        var res := inst.Free(pending[i], replies(i));
        if res.Fail? {
          assert pending[..i] + [pending[i]] == pending[..i + 1];
          return res;
        }
        i := i + 1;
      }
      assert pending[..i] == pending;
      r := Ok(());
    }
  }

  /**
   * The index of the first failing answer among calls `i` up to `n`, or
   * `n` when none of them fails.
   */
  function FirstFailure(replies: nat -> Result<()>, i: nat, n: nat): (k: nat)
    ensures i <= k && (i <= n ==> k <= n)
    ensures forall j :: i <= j < k ==> replies(j).Ok?
    ensures k < n ==> replies(k).Fail?
    decreases n - i
  {
    if i >= n || replies(i).Fail? then i else FirstFailure(replies, i + 1, n)
  }

  // ---------------------------------------------------------------------
  // Scalar encodings
  // ---------------------------------------------------------------------

  predicate IsScalarParam(p: ParameterValue) {
    !p.String? && !p.VecBytes?
  }

  /** The scalar arms of `hl_param_to_val`: bit-casts for the unsigned kinds, 1/0 for Bool. */
  function ParamScalarToVal(p: ParameterValue): Val
    requires IsScalarParam(p)
  {
    match p
    case Int(i) => I32(i)
    case UInt(u) => I32(U32AsI32(u))
    case Long(l) => I64(l)
    case ULong(u) => I64(U64AsI64(u))
    case Bool(b) => I32(if b then 1 else 0)
    case Float(f) => F32(f)
    case Double(d) => F64(d)
  }

  predicate IsScalarReturn(v: ReturnValue) {
    !v.String? && !v.VecBytes?
  }

  /** The scalar arms of `hl_return_to_val`; Void becomes `I32(0)`. */
  function ReturnScalarToVal(v: ReturnValue): Val
    requires IsScalarReturn(v)
  {
    match v
    case Int(i) => I32(i)
    case UInt(u) => I32(U32AsI32(u))
    case Long(l) => I64(l)
    case ULong(u) => I64(U64AsI64(u))
    case Bool(b) => I32(if b then 1 else 0)
    case Float(f) => F32(f)
    case Double(d) => F64(d)
    case Void => I32(0)
  }

  /** The return type naming the same kind as a parameter type (every kind but Void). */
  function AsReturnType(t: ParameterType): (rt: ReturnType)
    ensures !rt.Void?
  {
    match t
    case Int => ReturnType.Int
    case UInt => ReturnType.UInt
    case Long => ReturnType.Long
    case ULong => ReturnType.ULong
    case Float => ReturnType.Float
    case Double => ReturnType.Double
    case String => ReturnType.String
    case Bool => ReturnType.Bool
    case VecBytes => ReturnType.VecBytes
  }

  /** The return value carrying the same payload as a parameter value. */
  function AsReturnValue(p: ParameterValue): ReturnValue {
    match p
    case Int(i) => ReturnValue.Int(i)
    case UInt(u) => ReturnValue.UInt(u)
    case Long(l) => ReturnValue.Long(l)
    case ULong(u) => ReturnValue.ULong(u)
    case Float(f) => ReturnValue.Float(f)
    case Double(d) => ReturnValue.Double(d)
    case String(s) => ReturnValue.String(s)
    case Bool(b) => ReturnValue.Bool(b)
    case VecBytes(b) => ReturnValue.VecBytes(b)
  }

  // ---------------------------------------------------------------------
  // Guest results (val_to_hl_result)
  // ---------------------------------------------------------------------

  /**
   * What `val_to_hl_result` makes of the guest's results `rvs` for the
   * expected return type `rt`, reading guest memory `m` (`hasMemory` says
   * whether a `memory` export exists). The flatbuffer encoding of the
   * result is not modelled: the decoded `ReturnValue` stands for it.
   */
  function ResultSpec(rt: ReturnType, rvs: seq<Val>, hasMemory: bool, m: seq<Byte>): Result<ReturnValue> {
    if rt.Void? then Ok(ReturnValue.Void)
    else if |rvs| == 0 then Fail(Panic(INDEX_OUT_OF_BOUNDS))
    else
      var v := rvs[0];
      match rt
      case Int => if v.I32? then Ok(ReturnValue.Int(v.i)) else Unsupported()
      case UInt => if v.I32? then Ok(ReturnValue.UInt(I32AsU32(v.i))) else Unsupported()
      case Long => if v.I64? then Ok(ReturnValue.Long(v.l)) else Unsupported()
      case ULong => if v.I64? then Ok(ReturnValue.ULong(I64AsU64(v.l))) else Unsupported()
      case Float => if v.F32? then Ok(ReturnValue.Float(v.fbits)) else Unsupported()
      case Double => if v.F64? then Ok(ReturnValue.Double(v.dbits)) else Unsupported()
      case String => if v.I32? then StringResult(hasMemory, m, v.i) else Unsupported()
      case VecBytes => if v.I32? then VecBytesResult(hasMemory, m, v.i) else Unsupported()
      case Bool => Unsupported()
  }

  function Unsupported(): Result<ReturnValue> {
    Fail(Error(GuestError, UNSUPPORTED_RESULT))
  }

  /** The String arm of `val_to_hl_result`: the C string at `p`, which must be UTF-8. */
  function StringResult(hasMemory: bool, m: seq<Byte>, p: Int32): Result<ReturnValue> {
    if !hasMemory then Fail(Error(GuestError, MEMORY_MISSING))
    else
      match CStrAt(m, p)
      case None => Fail(Error(GuestError, READ_FAILED))
      case Some(s) =>
        if IsUtf8(s) then Ok(ReturnValue.String(s)) else Fail(Error(GuestError, NON_UTF8_RETURN))
  }

  /**
   * The VecBytes arm of `val_to_hl_result`: a 4-byte little-endian length
   * at `ret`, then that many bytes at `ret + 4`. A negative length makes
   * the `vec!` allocation panic.
   */
  function VecBytesResult(hasMemory: bool, m: seq<Byte>, ret: Int32): Result<ReturnValue> {
    if !hasMemory then Fail(Error(GuestError, MEMORY_MISSING))
    else
      match ReadSpec(m, ret, 4)
      case None => Fail(Error(GuestError, READ_FAILED))
      case Some(sizeBytes) =>
        var size := I32FromLe(sizeBytes);
        if size < 0 then Fail(Panic(CAPACITY_OVERFLOW))
        else
          match ReadSpec(m, ret + 4, size)
          case None => Fail(Error(GuestError, READ_FAILED))
          case Some(bytes) => Ok(ReturnValue.VecBytes(bytes))
  }

  /** The address `val_to_hl_result` records for later freeing: the pointer of a String or VecBytes result. */
  function TrackedBy(rt: ReturnType, rvs: seq<Val>): seq<Int32> {
    if (rt.String? || rt.VecBytes?) && |rvs| > 0 && rvs[0].I32? then [rvs[0].i] else []
  }

  /**
   * `val_to_hl_result`. The pointer of a String or VecBytes result is
   * tracked before the memory behind it is read, so it is recorded even
   * when the read fails.
   */
  method ValToHlResult(inst: Instance, allocs: ReturnAllocations, rt: ReturnType, rvs: seq<Val>)
    returns (r: Result<ReturnValue>)
    requires inst.Valid()
    modifies allocs
    ensures r == ResultSpec(rt, rvs, inst.hasMemory, inst.memory[..])
    ensures allocs.addrs == old(allocs.addrs) + TrackedBy(rt, rvs)
  {
    if rt.Void? {
      return Ok(ReturnValue.Void);
    }
    if |rvs| == 0 {
      return Fail(Panic(INDEX_OUT_OF_BOUNDS));
    }
    match (rt, rvs[0]) {
      case (Int, I32(i)) => r := Ok(ReturnValue.Int(i));
      case (UInt, I32(u)) => r := Ok(ReturnValue.UInt(I32AsU32(u)));
      case (Long, I64(l)) => r := Ok(ReturnValue.Long(l));
      case (ULong, I64(u)) => r := Ok(ReturnValue.ULong(I64AsU64(u)));
      case (Float, F32(f)) => r := Ok(ReturnValue.Float(f));
      case (Double, F64(d)) => r := Ok(ReturnValue.Double(d));
      case (String, I32(p)) =>
        allocs.Track(p);
        var s :- inst.ReadCStr(p);
        if !IsUtf8(s) {
          return Fail(Error(GuestError, NON_UTF8_RETURN));
        }
        r := Ok(ReturnValue.String(s));
      case (VecBytes, I32(ret)) =>
        allocs.Track(ret);
        var sizeBytes :- inst.Read(ret, 4);
        var size := I32FromLe(sizeBytes);
        if size < 0 {
          return Fail(Panic(CAPACITY_OVERFLOW));
        }
        // The first read succeeded, so `ret + 4` is inside a memory smaller than 2^31 and does not wrap.
        var bytes :- inst.Read(ret + 4, size);
        r := Ok(ReturnValue.VecBytes(bytes));
      case _ => r := Fail(Error(GuestError, UNSUPPORTED_RESULT));
    }
  }

  // ---------------------------------------------------------------------
  // Host-function parameters (val_to_hl_param)
  // ---------------------------------------------------------------------

  /**
   * The state `val_to_hl_param` threads through a host call: the `Val`s
   * not yet consumed, and the length of the last byte vector, pending
   * until the following `Int` parameter takes it.
   */
  datatype ScanState = ScanState(rest: seq<Val>, pendingLen: Option<UInt32>)

  /** The String arm of `val_to_hl_param`: the C string at `p`; both `unwrap`s panic on failure. */
  function StringParam(hasMemory: bool, m: seq<Byte>, p: Int32, rest: seq<Val>): Result<(ParameterValue, ScanState)> {
    if !hasMemory then Fail(Panic(UNWRAP_FAILED))
    else
      match CStrAt(m, p)
      case None => Fail(Panic(UNWRAP_FAILED))
      case Some(s) =>
        if IsUtf8(s) then Ok((ParameterValue.String(s), ScanState(rest, None)))
        else Fail(Panic(UNWRAP_FAILED))
  }

  /**
   * The VecBytes arm of `val_to_hl_param`: the next `Val` must be the
   * length; `l` bytes are read at `p` and the length is left pending.
   */
  function VecBytesParam(hasMemory: bool, m: seq<Byte>, p: Int32, rest: seq<Val>): Result<(ParameterValue, ScanState)> {
    if rest == [] || !rest[0].I32? then Fail(Panic(MISSING_VECBYTES_LENGTH))
    else
      var l := rest[0].i;
      if l < 0 then Fail(Panic(CAPACITY_OVERFLOW))
      else if !hasMemory then Fail(Panic(UNWRAP_FAILED))
      else
        match ReadSpec(m, p, l)
        case None => Fail(Panic(UNWRAP_FAILED))
        case Some(bytes) => Ok((ParameterValue.VecBytes(bytes), ScanState(rest[1..], Some(I32AsU32(l)))))
  }

  /** One step of `val_to_hl_param`: the decoded parameter and the next state, or the panic it hits. */
  function DecodeParamSpec(st: ScanState, pt: ParameterType, hasMemory: bool, m: seq<Byte>)
    : Result<(ParameterValue, ScanState)>
  {
    if st.pendingLen.Some? then
      if pt == ParameterType.Int then
        Ok((ParameterValue.Int(U32AsI32(st.pendingLen.value)), ScanState(st.rest, None)))
      else Fail(Panic(MISSING_VECTOR_LENGTH))
    else if st.rest == [] then Fail(Panic(MISSING_PARAMETER))
    else
      var v := st.rest[0];
      var rest := st.rest[1..];
      match pt
      case Int => if v.I32? then Ok((ParameterValue.Int(v.i), ScanState(rest, None))) else Mismatch()
      case UInt => if v.I32? then Ok((ParameterValue.UInt(I32AsU32(v.i)), ScanState(rest, None))) else Mismatch()
      case Long => if v.I64? then Ok((ParameterValue.Long(v.l), ScanState(rest, None))) else Mismatch()
      case ULong => if v.I64? then Ok((ParameterValue.ULong(I64AsU64(v.l)), ScanState(rest, None))) else Mismatch()
      case Bool => if v.I32? then Ok((ParameterValue.Bool(v.i == 0), ScanState(rest, None))) else Mismatch()
      case Float => if v.F32? then Ok((ParameterValue.Float(v.fbits), ScanState(rest, None))) else Mismatch()
      case Double => if v.F64? then Ok((ParameterValue.Double(v.dbits), ScanState(rest, None))) else Mismatch()
      case String => if v.I32? then StringParam(hasMemory, m, v.i, rest) else Mismatch()
      case VecBytes => if v.I32? then VecBytesParam(hasMemory, m, v.i, rest) else Mismatch()
  }

  function Mismatch(): Result<(ParameterValue, ScanState)> {
    Fail(Panic(UNSUPPORTED_PARAMETER))
  }

  /** `val_to_hl_param`: decode the next host-call parameter of type `pt`. Every failure is a panic. */
  method ValToHlParam(inst: Instance, st: ScanState, pt: ParameterType)
    returns (r: Result<(ParameterValue, ScanState)>)
    requires inst.Valid()
    ensures r == DecodeParamSpec(st, pt, inst.hasMemory, inst.memory[..])
    ensures r.Fail? ==> r.failure.Panic?
  {
    if st.pendingLen.Some? {
      if pt == ParameterType.Int {
        return Ok((ParameterValue.Int(U32AsI32(st.pendingLen.value)), ScanState(st.rest, None)));
      }
      return Fail(Panic(MISSING_VECTOR_LENGTH));
    }
    if st.rest == [] {
      return Fail(Panic(MISSING_PARAMETER));
    }
    var rest := st.rest[1..];
    match (pt, st.rest[0]) {
      case (Int, I32(i)) => r := Ok((ParameterValue.Int(i), ScanState(rest, None)));
      case (UInt, I32(u)) => r := Ok((ParameterValue.UInt(I32AsU32(u)), ScanState(rest, None)));
      case (Long, I64(l)) => r := Ok((ParameterValue.Long(l), ScanState(rest, None)));
      case (ULong, I64(u)) => r := Ok((ParameterValue.ULong(I64AsU64(u)), ScanState(rest, None)));
      case (Bool, I32(b)) => r := Ok((ParameterValue.Bool(b == 0), ScanState(rest, None)));
      case (Float, F32(f)) => r := Ok((ParameterValue.Float(f), ScanState(rest, None)));
      case (Double, F64(d)) => r := Ok((ParameterValue.Double(d), ScanState(rest, None)));
      case (String, I32(p)) =>
        var c := inst.ReadCStr(p);
        if c.Fail? || !IsUtf8(c.value) {
          return Fail(Panic(UNWRAP_FAILED));
        }
        r := Ok((ParameterValue.String(c.value), ScanState(rest, None)));
      case (VecBytes, I32(p)) =>
        if rest == [] || !rest[0].I32? {
          return Fail(Panic(MISSING_VECBYTES_LENGTH));
        }
        var l := rest[0].i;
        if l < 0 {
          return Fail(Panic(CAPACITY_OVERFLOW));
        }
        var bytes := inst.Read(p, l);
        if bytes.Fail? {
          return Fail(Panic(UNWRAP_FAILED));
        }
        r := Ok((ParameterValue.VecBytes(bytes.value), ScanState(rest[1..], Some(I32AsU32(l)))));
      case _ => r := Fail(Panic(UNSUPPORTED_PARAMETER));
    }
  }

  // ---------------------------------------------------------------------
  // Copying strings and byte vectors into the guest
  // ---------------------------------------------------------------------

  /**
   * The common tail of the String and VecBytes arms of `hl_param_to_val`
   * and `hl_return_to_val`: `malloc(|payload|)`, then write `payload` at
   * the address the guest returned.
   */
  method CopyIn(inst: Instance, payload: seq<Byte>, reply: Result<Int32>) returns (r: Result<Int32>)
    requires inst.Valid()
    modifies inst`mallocRequests, inst.memory
    ensures inst.hasMalloc ==> inst.mallocRequests == old(inst.mallocRequests) + [UsizeAsI32(|payload|)]
    ensures !inst.hasMalloc ==> inst.mallocRequests == old(inst.mallocRequests)
    ensures !inst.hasMalloc ==> r == Fail(Error(GuestError, MALLOC_MISSING)) && inst.memory[..] == old(inst.memory[..])
    ensures inst.hasMalloc && reply.Fail? ==> r == reply && inst.memory[..] == old(inst.memory[..])
    ensures inst.hasMalloc && reply.Ok? && !inst.hasMemory ==>
      r == Fail(Error(GuestError, MEMORY_MISSING)) && inst.memory[..] == old(inst.memory[..])
    ensures inst.hasMalloc && reply.Ok? && inst.hasMemory && !(0 <= reply.value && reply.value + |payload| <= inst.memory.Length) ==>
      r == Fail(Error(GuestError, WRITE_FAILED)) && inst.memory[..] == old(inst.memory[..])
    ensures inst.hasMalloc && reply.Ok? && inst.hasMemory && 0 <= reply.value && reply.value + |payload| <= inst.memory.Length ==>
      r == Ok(reply.value) && inst.memory[..] == WriteSpec(old(inst.memory[..]), reply.value, payload)
  {
    var addr :- inst.Malloc(|payload|, reply);
    var w := inst.Write(addr, payload);
    if w.Fail? {
      return Fail(w.failure);
    }
    r := Ok(addr);
  }

  /**
   * The address and the new memory that `CopyIn` produces: allocate,
   * then write the payload; any failure leaves memory as it was.
   */
  function CopyInSpec(payload: seq<Byte>, hasMalloc: bool, hasMemory: bool, m: seq<Byte>, reply: Result<Int32>)
    : (Result<Int32>, seq<Byte>)
  {
    if !hasMalloc then (Fail(Error(GuestError, MALLOC_MISSING)), m)
    else if reply.Fail? then (reply, m)
    else if !hasMemory then (Fail(Error(GuestError, MEMORY_MISSING)), m)
    else if !(0 <= reply.value && reply.value + |payload| <= |m|) then (Fail(Error(GuestError, WRITE_FAILED)), m)
    else (Ok(reply.value), WriteSpec(m, reply.value, payload))
  }

  /** The guest value and the new memory `hl_param_to_val` produces for `p` on memory `m`. */
  function ParamToValSpec(p: ParameterValue, hasMalloc: bool, hasMemory: bool, m: seq<Byte>, reply: Result<Int32>)
    : (Result<Val>, seq<Byte>)
  {
    if IsScalarParam(p) then (Ok(ParamScalarToVal(p)), m)
    else if p.String? && 0 in p.s then (Fail(Panic(NUL_IN_STRING)), m)
    else
      var payload := if p.String? then p.s + [0] else p.bytes;
      var (a, m') := CopyInSpec(payload, hasMalloc, hasMemory, m, reply);
      (if a.Ok? then Ok(I32(a.value)) else Fail(a.failure), m')
  }

  /**
   * `hl_param_to_val`. A String is copied in with its NUL terminator
   * (`CString::new(..).unwrap()` panics on an interior NUL); a byte vector
   * is copied in verbatim; both yield the guest address as an `I32`.
   */
  method HlParamToVal(inst: Instance, p: ParameterValue, reply: Result<Int32>) returns (r: Result<Val>)
    requires inst.Valid()
    modifies inst`mallocRequests, inst.memory
    ensures (r, inst.memory[..]) == ParamToValSpec(p, inst.hasMalloc, inst.hasMemory, old(inst.memory[..]), reply)
    ensures IsScalarParam(p) ==> r == Ok(ParamScalarToVal(p)) && inst.memory[..] == old(inst.memory[..]) && unchanged(inst`mallocRequests)
    ensures p.String? && 0 in p.s ==> r == Fail(Panic(NUL_IN_STRING)) && inst.memory[..] == old(inst.memory[..]) && unchanged(inst`mallocRequests)
    ensures p.String? && 0 !in p.s && r.Ok? ==>
      reply.Ok? && 0 <= reply.value && reply.value + |p.s| + 1 <= inst.memory.Length &&
      inst.mallocRequests == old(inst.mallocRequests) + [UsizeAsI32(|p.s| + 1)] &&
      r == Ok(I32(reply.value)) && inst.memory[..] == WriteSpec(old(inst.memory[..]), reply.value, p.s + [0]) &&
      CStrAt(inst.memory[..], reply.value) == Some(p.s)
    ensures p.VecBytes? && r.Ok? ==>
      reply.Ok? && 0 <= reply.value && reply.value + |p.bytes| <= inst.memory.Length &&
      inst.mallocRequests == old(inst.mallocRequests) + [UsizeAsI32(|p.bytes|)] &&
      r == Ok(I32(reply.value)) && inst.memory[..] == WriteSpec(old(inst.memory[..]), reply.value, p.bytes)
    ensures (p.String? && 0 !in p.s) || p.VecBytes? ==>
      (r.Ok? <==> inst.hasMalloc && reply.Ok? && inst.hasMemory && 0 <= reply.value &&
                  reply.value + (if p.String? then |p.s| + 1 else |p.bytes|) <= inst.memory.Length)
    ensures (p.String? && 0 !in p.s) || p.VecBytes? ==>
      var n := if p.String? then |p.s| + 1 else |p.bytes|;
      inst.mallocRequests == old(inst.mallocRequests) + (if inst.hasMalloc then [UsizeAsI32(n)] else [])
  {
    match p {
      case String(s) =>
        if 0 in s {
          return Fail(Panic(NUL_IN_STRING));
        }
        var addr :- CopyIn(inst, s + [0], reply);
        CStrRoundTrip(old(inst.memory[..]), addr, s);
        r := Ok(I32(addr));
      case VecBytes(b) =>
        var addr :- CopyIn(inst, b, reply);
        r := Ok(I32(addr));
      case _ =>
        r := Ok(ParamScalarToVal(p));
    }
  }

  /**
   * `hl_return_to_val`: the same encoding as `hl_param_to_val`, for a host
   * function's return value; Void becomes `I32(0)`.
   */
  method HlReturnToVal(inst: Instance, v: ReturnValue, reply: Result<Int32>) returns (r: Result<Val>)
    requires inst.Valid()
    modifies inst`mallocRequests, inst.memory
    ensures IsScalarReturn(v) ==> r == Ok(ReturnScalarToVal(v)) && inst.memory[..] == old(inst.memory[..]) && unchanged(inst`mallocRequests)
    ensures v.String? && 0 in v.s ==> r == Fail(Panic(NUL_IN_STRING)) && inst.memory[..] == old(inst.memory[..]) && unchanged(inst`mallocRequests)
    ensures v.String? && 0 !in v.s && r.Ok? ==>
      reply.Ok? && 0 <= reply.value && reply.value + |v.s| + 1 <= inst.memory.Length &&
      inst.mallocRequests == old(inst.mallocRequests) + [UsizeAsI32(|v.s| + 1)] &&
      r == Ok(I32(reply.value)) && inst.memory[..] == WriteSpec(old(inst.memory[..]), reply.value, v.s + [0]) &&
      CStrAt(inst.memory[..], reply.value) == Some(v.s)
    ensures v.VecBytes? && r.Ok? ==>
      reply.Ok? && 0 <= reply.value && reply.value + |v.bytes| <= inst.memory.Length &&
      inst.mallocRequests == old(inst.mallocRequests) + [UsizeAsI32(|v.bytes|)] &&
      r == Ok(I32(reply.value)) && inst.memory[..] == WriteSpec(old(inst.memory[..]), reply.value, v.bytes)
    ensures (v.String? && 0 !in v.s) || v.VecBytes? ==>
      var payload := if v.String? then v.s + [0] else v.bytes;
      && (r.Ok? <==> inst.hasMalloc && reply.Ok? && inst.hasMemory && 0 <= reply.value &&
                     reply.value + |payload| <= inst.memory.Length)
      && (r.Fail? ==> r == Fail(CopyInSpec(payload, inst.hasMalloc, inst.hasMemory, old(inst.memory[..]), reply).0.failure)
                      && inst.memory[..] == old(inst.memory[..]))
      && inst.mallocRequests == old(inst.mallocRequests) + (if inst.hasMalloc then [UsizeAsI32(|payload|)] else [])
  {
    if IsScalarReturn(v) {
      return Ok(ReturnScalarToVal(v));
    }
    if v.String? && 0 in v.s {
      return Fail(Panic(NUL_IN_STRING));
    }
    // String and VecBytes take the same path: malloc, then write the payload.
    var payload := if v.String? then v.s + [0] else v.bytes;
    var addr :- CopyIn(inst, payload, reply);
    if v.String? {
      CStrRoundTrip(old(inst.memory[..]), addr, v.s);
    }
    r := Ok(I32(addr));
  }

  // ---------------------------------------------------------------------
  // Properties of the encodings
  // ---------------------------------------------------------------------

  /**
   * Int, UInt, Long and ULong parameters survive encoding followed by
   * decoding as a guest result of the same kind: the two's-complement
   * casts undo each other.
   */
  lemma IntegerParamResultRoundTrip(p: ParameterValue, hasMemory: bool, m: seq<Byte>)
    requires p.Int? || p.UInt? || p.Long? || p.ULong?
    ensures ResultSpec(AsReturnType(TypeOfParameter(p)), [ParamScalarToVal(p)], hasMemory, m) == Ok(AsReturnValue(p))
  {
    match p {
      case UInt(u) => UnsignedRoundTrip32(u);
      case ULong(u) => UnsignedRoundTrip64(u);
      case _ =>
    }
  }

  lemma UnsignedRoundTrip32(u: UInt32)
    ensures I32AsU32(U32AsI32(u)) == u
  {
  }

  lemma UnsignedRoundTrip64(u: UInt64)
    ensures I64AsU64(U64AsI64(u)) == u
  {
  }

  /**
   * Every scalar parameter except Bool survives encoding followed by
   * decoding as a host-call parameter of its own type, consuming exactly
   * one `Val`.
   */
  lemma ScalarParamDecodeRoundTrip(p: ParameterValue, rest: seq<Val>, hasMemory: bool, m: seq<Byte>)
    requires IsScalarParam(p) && !p.Bool?
    ensures DecodeParamSpec(ScanState([ParamScalarToVal(p)] + rest, None), TypeOfParameter(p), hasMemory, m)
         == Ok((p, ScanState(rest, None)))
  {
    assert ([ParamScalarToVal(p)] + rest)[1..] == rest;
    match p {
      case UInt(u) => UnsignedRoundTrip32(u);
      case ULong(u) => UnsignedRoundTrip64(u);
      case _ =>
    }
  }

  /** Bool is encoded as 1/0 but decoded as `b == 0`, so a Bool comes back negated. */
  lemma BoolParamDecodeInverts(b: bool, rest: seq<Val>, hasMemory: bool, m: seq<Byte>)
    ensures DecodeParamSpec(ScanState([ParamScalarToVal(ParameterValue.Bool(b))] + rest, None), ParameterType.Bool, hasMemory, m)
         == Ok((ParameterValue.Bool(!b), ScanState(rest, None)))
  {
    assert ([ParamScalarToVal(ParameterValue.Bool(b))] + rest)[1..] == rest;
  }

  /** The Bool an `I32` stands for under the 1/0 encoding: any non-zero value is true. */
  function BoolFromI32(b: Int32): (r: bool)
    ensures r <==> b != 0
  {
    b != 0
  }

  /**
   * One step of `val_to_hl_param` with the Bool arm decoding `b != 0`, the
   * inverse of the 1/0 encoding; every other case is `DecodeParamSpec`.
   */
  function DecodeParamSpecCorrected(st: ScanState, pt: ParameterType, hasMemory: bool, m: seq<Byte>)
    : Result<(ParameterValue, ScanState)>
  {
    if pt == ParameterType.Bool && st.pendingLen.None? && st.rest != [] && st.rest[0].I32? then
      Ok((ParameterValue.Bool(BoolFromI32(st.rest[0].i)), ScanState(st.rest[1..], None)))
    else DecodeParamSpec(st, pt, hasMemory, m)
  }

  /**
   * With the corrected Bool arm, every scalar parameter, Bool included,
   * survives encoding followed by decoding, consuming exactly one `Val`.
   */
  lemma CorrectedScalarParamDecodeRoundTrip(p: ParameterValue, rest: seq<Val>, hasMemory: bool, m: seq<Byte>)
    requires IsScalarParam(p)
    ensures DecodeParamSpecCorrected(ScanState([ParamScalarToVal(p)] + rest, None), TypeOfParameter(p), hasMemory, m)
         == Ok((p, ScanState(rest, None)))
  {
    if p.Bool? {
      assert ([ParamScalarToVal(p)] + rest)[1..] == rest;
    } else {
      ScalarParamDecodeRoundTrip(p, rest, hasMemory, m);
    }
  }

  /** A C string written into guest memory is read back as the same string result. */
  lemma StringResultRoundTrip(m: seq<Byte>, addr: Int32, s: seq<Byte>)
    requires 0 <= addr && addr + |s| + 1 <= |m|
    requires 0 !in s && IsUtf8(s)
    ensures var m' := WriteSpec(m, addr, s + [0]);
      ResultSpec(ReturnType.String, [I32(addr)], true, m') == Ok(ReturnValue.String(s))
  {
    var m' := WriteSpec(m, addr, s + [0]);
    PointerResultArms(addr, true, m');
    StringArmRoundTrip(m, addr, s);
  }

  lemma StringArmRoundTrip(m: seq<Byte>, addr: Int32, s: seq<Byte>)
    requires 0 <= addr && addr + |s| + 1 <= |m|
    requires 0 !in s && IsUtf8(s)
    ensures StringResult(true, WriteSpec(m, addr, s + [0]), addr) == Ok(ReturnValue.String(s))
  {
    CStrRoundTrip(m, addr, s);
  }

  /** A one-pointer result of String or VecBytes type is decoded by the matching memory-reading arm. */
  lemma PointerResultArms(p: Int32, hasMemory: bool, m: seq<Byte>)
    ensures ResultSpec(ReturnType.String, [I32(p)], hasMemory, m) == StringResult(hasMemory, m, p)
    ensures ResultSpec(ReturnType.VecBytes, [I32(p)], hasMemory, m) == VecBytesResult(hasMemory, m, p)
  {
  }

  /**
   * A return buffer laid out as a 4-byte little-endian length followed by
   * that many bytes (what the guest's `ReceiveByteArray` builds) is read
   * back as exactly those bytes.
   */
  lemma VecBytesResultLayout(m: seq<Byte>, ret: Int32, b: seq<Byte>)
    requires |b| < TWO_31
    requires 0 <= ret && ret + 4 + |b| <= |m|
    ensures var m' := WriteSpec(m, ret, I32ToLe(|b|) + b);
      ResultSpec(ReturnType.VecBytes, [I32(ret)], true, m') == Ok(ReturnValue.VecBytes(b))
  {
    var m' := WriteSpec(m, ret, I32ToLe(|b|) + b);
    var framed := I32ToLe(|b|) + b;
    assert ReadSpec(m', ret, |framed|) == Some(framed);
    assert m'[ret..ret + 4] == framed[..4] == I32ToLe(|b|);
    I32LeRoundTrip(|b|);
    assert m'[ret + 4..ret + 4 + |b|] == framed[4..] == b;
  }

  /**
   * A byte-vector parameter consumes two `Val`s, the pointer and the
   * length, and leaves the length pending; the next parameter, which must
   * be Int, is that length and consumes no `Val`.
   */
  lemma VecBytesParamThenLength(p: Int32, l: Int32, rest: seq<Val>, m: seq<Byte>)
    requires 0 <= l && 0 <= p && p + l <= |m|
    ensures DecodeParamSpec(ScanState([I32(p), I32(l)] + rest, None), ParameterType.VecBytes, true, m)
         == Ok((ParameterValue.VecBytes(m[p..p + l]), ScanState(rest, Some(l))))
    ensures DecodeParamSpec(ScanState(rest, Some(l)), ParameterType.Int, true, m)
         == Ok((ParameterValue.Int(l), ScanState(rest, None)))
    ensures forall pt :: pt != ParameterType.Int ==>
      DecodeParamSpec(ScanState(rest, Some(l)), pt, true, m) == Fail(Panic(MISSING_VECTOR_LENGTH))
  {
    assert ([I32(p), I32(l)] + rest)[1..] == [I32(l)] + rest;
    assert ([I32(l)] + rest)[1..] == rest;
  }

  /** Each step consumes at most two `Val`s and never adds any. */
  lemma DecodeParamConsumes(st: ScanState, pt: ParameterType, hasMemory: bool, m: seq<Byte>)
    requires DecodeParamSpec(st, pt, hasMemory, m).Ok?
    ensures var st' := DecodeParamSpec(st, pt, hasMemory, m).value.1;
      |st.rest| - 2 <= |st'.rest| <= |st.rest| &&
      (st'.pendingLen.Some? <==> |st'.rest| == |st.rest| - 2)
  {
  }
}
