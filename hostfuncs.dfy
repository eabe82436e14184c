/**
 * Host functions as the guest runtime imports them
 * (src/wasm_runtime/src/hostfuncs.rs): lowering a Hyperlight signature to
 * a Wasm function type, and decoding the `Val`s a Wasm caller passes into
 * Hyperlight parameters before the host is called.
 */
module HostFuncs {
  import opened Values
  import opened GuestMemory
  import opened Marshal

  const VECTOR_MISSING_LENGTH: string := "Host function vector parameter missing length"
  const DETAILS_MISSING: string := "not yet implemented: replace the missing hyperlight_guest_bin::host_functions::get_host_function_details"
  const HOST_CALL_FAILED: string := "Host function call failed"

  /**
   * `get_host_function_details` is a `todo!()` placeholder: calling it
   * always panics.
   */
  function GetHostFunctionDetails(): (r: Result<seq<HostFunctionDefinition>>)
    ensures IsPanic(r)
  {
    Fail(Panic(DETAILS_MISSING))
  }

  /** The declared parameter types; an absent list counts as empty. */
  function ParamTypes(d: HostFunctionDefinition): seq<ParameterType> {
    match d.parameterTypes
    case None => []
    case Some(ps) => ps
  }

  /** The Wasm type one Hyperlight parameter lowers to; strings and byte vectors are guest pointers. */
  function LowerParam(pt: ParameterType): ValType {
    match pt
    case Int => I32Type
    case UInt => I32Type
    case Long => I64Type
    case ULong => I64Type
    case Bool => I32Type
    case Float => F32Type
    case Double => F64Type
    case String => I32Type
    case VecBytes => I32Type
  }

  /** Parameter lowering, one Wasm type per declared parameter, in order. */
  function LowerParams(ps: seq<ParameterType>): (r: seq<ValType>)
    ensures |r| == |ps|
    ensures forall i :: 0 <= i < |ps| ==> r[i] == LowerParam(ps[i])
  {
    seq(|ps|, i requires 0 <= i < |ps| => LowerParam(ps[i]))
  }

  /**
   * The signature rule `hostfunc_type` enforces: once a byte vector has
   * appeared, every later parameter must be Int (the flag is never
   * cleared); a trailing byte vector passes.
   */
  predicate ParamsAccepted(ps: seq<ParameterType>) {
    forall i, j :: 0 <= i < j < |ps| && ps[i] == ParameterType.VecBytes ==> ps[j] == ParameterType.Int
  }

  /** The `{:?}` spelling of a return type: its variant name. */
  function ReturnTypeName(rt: ReturnType): string {
    match rt
    case Int => "Int"
    case UInt => "UInt"
    case Long => "Long"
    case ULong => "ULong"
    case Float => "Float"
    case Double => "Double"
    case String => "String"
    case Bool => "Bool"
    case Void => "Void"
    case VecBytes => "VecBytes"
  }

  const UNSUPPORTED_RETURN_PREFIX: string := "Host function return type "
  const UNSUPPORTED_RETURN_SUFFIX: string := " must be (u)int or (u)long, if present"

  /** The guest error for a return type with no Wasm lowering; the message names the type. */
  function UnsupportedReturn(rt: ReturnType): Failure {
    Error(GuestError, UNSUPPORTED_RETURN_PREFIX + ReturnTypeName(rt) + UNSUPPORTED_RETURN_SUFFIX)
  }

  /** The refusal's message tells the refused return types apart: the type is not lost. */
  lemma UnsupportedReturnNamesType(a: ReturnType, b: ReturnType)
    ensures UnsupportedReturn(a) == UnsupportedReturn(b) <==> a == b
  {
    if UnsupportedReturn(a) == UnsupportedReturn(b) {
      var m := UnsupportedReturn(a).message;
      var n := |UNSUPPORTED_RETURN_PREFIX|;
      assert |ReturnTypeName(a)| == |ReturnTypeName(b)|;
      assert ReturnTypeName(a) == m[n..n + |ReturnTypeName(a)|] == ReturnTypeName(b);
    }
  }

  /** Return lowering: Void has no results; Bool, Float, Double and String are refused. */
  function ReturnLowering(rt: ReturnType): (r: Result<seq<ValType>>)
    ensures r.Ok? ==> |r.value| <= 1
    ensures r.Ok? <==> !(rt.Bool? || rt.Float? || rt.Double? || rt.String?)
    ensures r.Fail? ==> r == Fail(UnsupportedReturn(rt))
  {
    match rt
    case Void => Ok([])
    case Int => Ok([I32Type])
    case UInt => Ok([I32Type])
    case Long => Ok([I64Type])
    case ULong => Ok([I64Type])
    // a packed i64: the (wasm32) pointer in the low half, the length in the high half
    case VecBytes => Ok([I64Type])
    case _ => Fail(UnsupportedReturn(rt))
  }

  /** The Wasm signature a host function is given, or why it has none. */
  function HostfuncTypeSpec(d: HostFunctionDefinition): Result<FuncType> {
    if !ParamsAccepted(ParamTypes(d)) then Fail(Error(GuestError, VECTOR_MISSING_LENGTH))
    else
      var results :- ReturnLowering(d.returnType);
      Ok(FuncType(LowerParams(ParamTypes(d)), results))
  }

  /**
   * `hostfunc_type`: walk the parameters, failing as soon as a non-Int
   * follows a byte vector, then lower the return type.
   */
  method HostfuncType(d: HostFunctionDefinition) returns (r: Result<FuncType>)
    ensures r == HostfuncTypeSpec(d)
    ensures r.Ok? <==> ParamsAccepted(ParamTypes(d)) && ReturnLowering(d.returnType).Ok?
    ensures r.Ok? ==> r.value == FuncType(LowerParams(ParamTypes(d)), ReturnLowering(d.returnType).value)
    ensures !ParamsAccepted(ParamTypes(d)) ==> r == Fail(Error(GuestError, VECTOR_MISSING_LENGTH))
    ensures ParamsAccepted(ParamTypes(d)) && ReturnLowering(d.returnType).Fail? ==>
      r == Fail(UnsupportedReturn(d.returnType))
  {
    var ps := ParamTypes(d);
    var params: seq<ValType> := [];
    var lastWasVec := false;
    var i := 0;
    while i < |ps|
      invariant 0 <= i <= |ps|
      invariant params == LowerParams(ps[..i])
      invariant ParamsAccepted(ps[..i])
      invariant lastWasVec <==> ParameterType.VecBytes in ps[..i]
    {
      var p := ps[i];
      if lastWasVec && p != ParameterType.Int {
        var k :| 0 <= k < i && ps[k] == ParameterType.VecBytes;
        assert !ParamsAccepted(ps) by {
          assert ps[k] == ParameterType.VecBytes && ps[i] != ParameterType.Int;
        }
        return Fail(Error(GuestError, VECTOR_MISSING_LENGTH));
      }
      if p == ParameterType.VecBytes {
        lastWasVec := true;
      }
      params := params + [LowerParam(p)];
      assert ps[..i + 1] == ps[..i] + [p];
      i := i + 1;
    }
    assert ps[..i] == ps;
    var results :- ReturnLowering(d.returnType);
    r := Ok(FuncType(params, results));
  }

  // ---------------------------------------------------------------------
  // Decoding a host call's parameters
  // ---------------------------------------------------------------------

  /**
   * The `scan` in `call`: decode each declared parameter in order,
   * threading the `val_to_hl_param` state; the first panic aborts.
   */
  function DecodeAll(st: ScanState, pts: seq<ParameterType>, hasMemory: bool, m: seq<Byte>)
    : Result<seq<ParameterValue>>
    decreases |pts|
  {
    if pts == [] then Ok([])
    else
      match DecodeParamSpec(st, pts[0], hasMemory, m)
      case Fail(f) => Fail(f)
      case Ok((v, st')) =>
        match DecodeAll(st', pts[1..], hasMemory, m)
        case Fail(f) => Fail(f)
        case Ok(vs) => Ok([v] + vs)
  }

  /** The state after the first `n` declared parameters have been decoded, if none panicked. */
  function ScanAfter(st: ScanState, pts: seq<ParameterType>, hasMemory: bool, m: seq<Byte>): Option<ScanState>
    decreases |pts|
  {
    if pts == [] then Some(st)
    else
      match DecodeParamSpec(st, pts[0], hasMemory, m)
      case Fail(_) => None
      case Ok((_, st')) => ScanAfter(st', pts[1..], hasMemory, m)
  }

  /** Prepend `pre` to the values of a successful decode; a failure passes through. */
  function Then(pre: seq<ParameterValue>, r: Result<seq<ParameterValue>>): Result<seq<ParameterValue>> {
    match r
    case Fail(f) => Fail(f)
    case Ok(vs) => Ok(pre + vs)
  }

  /** Decoding `pre + rest` is decoding `pre`, then `rest` from the state `pre` leaves behind. */
  lemma {:induction false} DecodeAllAppend(st: ScanState, pre: seq<ParameterType>, rest: seq<ParameterType>, hasMemory: bool, m: seq<Byte>)
    requires DecodeAll(st, pre, hasMemory, m).Ok?
    ensures ScanAfter(st, pre, hasMemory, m).Some?
    ensures DecodeAll(st, pre + rest, hasMemory, m) ==
      Then(DecodeAll(st, pre, hasMemory, m).value, DecodeAll(ScanAfter(st, pre, hasMemory, m).value, rest, hasMemory, m))
    decreases |pre|
  {
    if pre == [] {
      assert [] + rest == rest;
      match DecodeAll(st, rest, hasMemory, m) {
        case Ok(vs) => assert [] + vs == vs;
        case Fail(_) =>
      }
    } else {
      assert (pre + rest)[0] == pre[0];
      assert (pre + rest)[1..] == pre[1..] + rest;
      var (v, st') := DecodeParamSpec(st, pre[0], hasMemory, m).value;
      DecodeAllAppend(st', pre[1..], rest, hasMemory, m);
      match DecodeAll(ScanAfter(st', pre[1..], hasMemory, m).value, rest, hasMemory, m) {
        case Ok(vs) =>
          var tail := DecodeAll(st', pre[1..], hasMemory, m).value;
          assert [v] + (tail + vs) == ([v] + tail) + vs;
        case Fail(_) =>
      }
    }
  }

  /** Decoding a single parameter. */
  lemma DecodeOne(st: ScanState, pt: ParameterType, hasMemory: bool, m: seq<Byte>)
    requires DecodeParamSpec(st, pt, hasMemory, m).Ok?
    ensures DecodeAll(st, [pt], hasMemory, m) == Ok([DecodeParamSpec(st, pt, hasMemory, m).value.0])
  {
    var (v, st') := DecodeParamSpec(st, pt, hasMemory, m).value;
    assert [pt][1..] == [];
    assert [v] + [] == [v];
  }

  /** The state after a prefix that decodes, extended by one more parameter. */
  lemma {:induction false} ScanAfterAppend(st: ScanState, pre: seq<ParameterType>, pt: ParameterType, hasMemory: bool, m: seq<Byte>)
    requires ScanAfter(st, pre, hasMemory, m).Some?
    ensures ScanAfter(st, pre + [pt], hasMemory, m) == ScanAfter(ScanAfter(st, pre, hasMemory, m).value, [pt], hasMemory, m)
    decreases |pre|
  {
    if pre == [] {
      assert [] + [pt] == [pt];
    } else {
      assert (pre + [pt])[0] == pre[0];
      assert (pre + [pt])[1..] == pre[1..] + [pt];
      var st' := DecodeParamSpec(st, pre[0], hasMemory, m).value.1;
      ScanAfterAppend(st', pre[1..], pt, hasMemory, m);
    }
  }

  /**
   * The parameter-decoding part of `call`: decode the caller's `Val`s
   * against the declared parameter types, in order.
   */
  method DecodeHostCallParams(inst: Instance, d: HostFunctionDefinition, ps: seq<Val>)
    returns (r: Result<seq<ParameterValue>>)
    requires inst.Valid()
    ensures r == DecodeAll(ScanState(ps, None), ParamTypes(d), inst.hasMemory, inst.memory[..])
    ensures r.Fail? ==> r.failure.Panic?
  {
    var pts := ParamTypes(d);
    var st := ScanState(ps, None);
    var out: seq<ParameterValue> := [];
    var i := 0;
    assert pts[..0] == [];
    while i < |pts|
      invariant 0 <= i <= |pts|
      invariant DecodeAll(ScanState(ps, None), pts[..i], inst.hasMemory, inst.memory[..]) == Ok(out)
      invariant ScanAfter(ScanState(ps, None), pts[..i], inst.hasMemory, inst.memory[..]) == Some(st)
    {
      var step := ValToHlParam(inst, st, pts[i]);
      if step.Fail? {
        assert pts == pts[..i] + pts[i..];
        assert pts[i..][0] == pts[i];
        DecodeAllAppend(ScanState(ps, None), pts[..i], pts[i..], inst.hasMemory, inst.memory[..]);
        return Fail(step.failure);
      }
      var (v, st') := step.value;
      assert pts[..i + 1] == pts[..i] + [pts[i]];
      assert [pts[i]][1..] == [];
      DecodeAllAppend(ScanState(ps, None), pts[..i], [pts[i]], inst.hasMemory, inst.memory[..]);
      DecodeOne(st, pts[i], inst.hasMemory, inst.memory[..]);
      ScanAfterAppend(ScanState(ps, None), pts[..i], pts[i], inst.hasMemory, inst.memory[..]);
      out := out + [v];
      st := st';
      i := i + 1;
    }
    assert pts[..i] == pts;
    r := Ok(out);
  }

  /**
   * The part of `call` that this model covers: decode the parameters, then
   * make the host call with them (`expect` turns a host failure into a
   * panic). The answer the host gives is the oracle `hostReply`, and
   * `expect` discards it. The conversion call that follows hands
   * `hl_return_to_val` the declared return type and the result slots
   * where that function takes a `ReturnValue`; it does not match the
   * signature and is not modelled. On success the function call the host
   * received is returned.
   */
  method Call(inst: Instance, d: HostFunctionDefinition, ps: seq<Val>, hostReply: Result<ReturnValue>)
    returns (r: Result<FunctionCall>)
    requires inst.Valid()
    ensures var dec := DecodeAll(ScanState(ps, None), ParamTypes(d), inst.hasMemory, inst.memory[..]);
      (dec.Fail? ==> r == Fail(dec.failure)) &&
      (dec.Ok? && hostReply.Fail? ==> r == Fail(Panic(HOST_CALL_FAILED))) &&
      (dec.Ok? && hostReply.Ok? ==> r == Ok(FunctionCall(d.functionName, Some(dec.value), d.returnType)))
  {
    var params :- DecodeHostCallParams(inst, d, ps);
    if hostReply.Fail? {
      return Fail(Panic(HOST_CALL_FAILED));
    }
    r := Ok(FunctionCall(d.functionName, Some(params), d.returnType));
  }

  // ---------------------------------------------------------------------
  // Properties
  // ---------------------------------------------------------------------

  /** The Wasm type of a value, if it is one of the four numeric kinds. */
  function ValTypeOf(v: Val): Option<ValType> {
    match v
    case I32(_) => Some(I32Type)
    case I64(_) => Some(I64Type)
    case F32(_) => Some(F32Type)
    case F64(_) => Some(F64Type)
    case Other => None
  }

  /**
   * A guest-function argument encoded by `hl_param_to_val` has exactly the
   * Wasm type the same Hyperlight type lowers to; pointer kinds lower to
   * `I32`, the type of the address that stands for them.
   */
  lemma EncodingMatchesLowering(p: ParameterValue)
    ensures IsScalarParam(p) ==> ValTypeOf(ParamScalarToVal(p)) == Some(LowerParam(TypeOfParameter(p)))
    ensures !IsScalarParam(p) ==> LowerParam(TypeOfParameter(p)) == I32Type
  {
  }

  /** Every successfully decoded parameter has the declared type. */
  lemma DecodeParamTyped(st: ScanState, pt: ParameterType, hasMemory: bool, m: seq<Byte>)
    requires DecodeParamSpec(st, pt, hasMemory, m).Ok?
    ensures TypeOfParameter(DecodeParamSpec(st, pt, hasMemory, m).value.0) == pt
  {
  }

  /** A successful decode yields one value per declared parameter, each of its declared type. */
  lemma {:induction false} DecodeAllTyped(st: ScanState, pts: seq<ParameterType>, hasMemory: bool, m: seq<Byte>)
    requires DecodeAll(st, pts, hasMemory, m).Ok?
    ensures var vs := DecodeAll(st, pts, hasMemory, m).value;
      |vs| == |pts| && forall i :: 0 <= i < |pts| ==> TypeOfParameter(vs[i]) == pts[i]
    decreases |pts|
  {
    if pts != [] {
      DecodeParamTyped(st, pts[0], hasMemory, m);
      var st' := DecodeParamSpec(st, pts[0], hasMemory, m).value.1;
      DecodeAllTyped(st', pts[1..], hasMemory, m);
    }
  }

  /**
   * The byte-vector convention end to end: a signature `(VecBytes, Int)`
   * is accepted, lowers to two `I32`s, and the two `Val`s a caller passes
   * decode to the bytes at the pointer and the length.
   */
  lemma VecBytesWithLengthDecodes(p: Int32, l: Int32, m: seq<Byte>)
    requires 0 <= l && 0 <= p && p + l <= |m|
    ensures ParamsAccepted([ParameterType.VecBytes, ParameterType.Int])
    ensures LowerParams([ParameterType.VecBytes, ParameterType.Int]) == [I32Type, I32Type]
    ensures DecodeAll(ScanState([I32(p), I32(l)], None), [ParameterType.VecBytes, ParameterType.Int], true, m)
         == Ok([ParameterValue.VecBytes(m[p..p + l]), ParameterValue.Int(l)])
  {
    VecBytesAndLengthSignature();
    PointerAndLengthDecode(p, l, m);
  }

  /** `(VecBytes, Int)` passes the signature check and lowers to two `I32`s. */
  lemma VecBytesAndLengthSignature()
    ensures ParamsAccepted([ParameterType.VecBytes, ParameterType.Int])
    ensures LowerParams([ParameterType.VecBytes, ParameterType.Int]) == [I32Type, I32Type]
  {
    var lowered := LowerParams([ParameterType.VecBytes, ParameterType.Int]);
    assert lowered[0] == I32Type && lowered[1] == I32Type;
  }

  /** The two `Val`s of a `(VecBytes, Int)` call decode to the bytes at the pointer and the length. */
  lemma PointerAndLengthDecode(p: Int32, l: Int32, m: seq<Byte>)
    requires 0 <= l && 0 <= p && p + l <= |m|
    ensures DecodeAll(ScanState([I32(p), I32(l)], None), [ParameterType.VecBytes, ParameterType.Int], true, m)
         == Ok([ParameterValue.VecBytes(m[p..p + l]), ParameterValue.Int(l)])
  {
    var sig := [ParameterType.VecBytes, ParameterType.Int];
    VecBytesParamThenLength(p, l, [], m);
    assert [I32(p), I32(l)] + [] == [I32(p), I32(l)];
    var vec := ParameterValue.VecBytes(m[p..p + l]);
    var pending := ScanState([], Some(l));
    assert DecodeParamSpec(ScanState([I32(p), I32(l)], None), sig[0], true, m) == Ok((vec, pending));
    assert sig[1..] == [ParameterType.Int];
    DecodeOne(pending, ParameterType.Int, true, m);
    assert DecodeAll(pending, sig[1..], true, m) == Ok([ParameterValue.Int(l)]);
    assert [vec] + [ParameterValue.Int(l)] == [vec, ParameterValue.Int(l)];
  }

  /**
   * A trailing byte vector passes the signature check, but its single
   * lowered `I32` leaves no `Val` for the length, so decoding panics.
   */
  lemma TrailingVecBytesPanics(p: Int32, hasMemory: bool, m: seq<Byte>)
    ensures ParamsAccepted([ParameterType.VecBytes])
    ensures LowerParams([ParameterType.VecBytes]) == [I32Type]
    ensures DecodeAll(ScanState([I32(p)], None), [ParameterType.VecBytes], hasMemory, m)
         == Fail(Panic(MISSING_VECBYTES_LENGTH))
  {
    assert [I32(p)][1..] == [];
  }

  /**
   * Because the byte-vector flag is never cleared, a second byte vector
   * after the first one's length is refused: every parameter after the
   * first byte vector (at `k`) must be Int.
   */
  lemma VecFlagNeverCleared(ps: seq<ParameterType>, k: nat)
    requires k < |ps| && ps[k] == ParameterType.VecBytes
    requires forall i :: 0 <= i < k ==> ps[i] != ParameterType.VecBytes
    ensures ParamsAccepted(ps) <==> forall j :: k < j < |ps| ==> ps[j] == ParameterType.Int
  {
    if ParamsAccepted(ps) {
    } else {
      var i, j :| 0 <= i < j < |ps| && ps[i] == ParameterType.VecBytes && ps[j] != ParameterType.Int;
      if i > k {
        assert ps[i] != ParameterType.Int;
      }
    }
  }
}
