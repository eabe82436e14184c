/**
 * Values shared by the guest-side Wasm runtime and the host-side sandbox:
 * fixed-width integers and Rust's `as` casts between them, little-endian
 * byte layouts, UTF-8 well-formedness, Hyperlight's parameter/return types
 * and values, wasmtime's `Val`/`ValType`, and the guest error type.
 */
module Values {

  // ---------------------------------------------------------------------
  // Fixed-width integers
  // ---------------------------------------------------------------------

  type Byte = x: int | 0 <= x < 0x100

  const TWO_16: int := 0x1_0000
  const TWO_31: int := 0x8000_0000
  const TWO_32: int := 0x1_0000_0000
  const TWO_63: int := 0x8000_0000_0000_0000
  const TWO_64: int := 0x1_0000_0000_0000_0000

  type Int32 = x: int | -0x8000_0000 <= x < 0x8000_0000
  type UInt32 = x: int | 0 <= x < 0x1_0000_0000
  type Int64 = x: int | -0x8000_0000_0000_0000 <= x < 0x8000_0000_0000_0000
  type UInt64 = x: int | 0 <= x < 0x1_0000_0000_0000_0000
  type UInt16 = x: int | 0 <= x < 0x1_0000

  /** Rust `u as i32`: the unique i32 congruent to `u` modulo 2^32. */
  function U32AsI32(u: UInt32): (r: Int32)
    ensures r == u || r == u - TWO_32
    ensures 0 <= r <==> u < TWO_31
  {
    if u < TWO_31 then u else u - TWO_32
  }

  /** Rust `i as u32`: the unique u32 congruent to `i` modulo 2^32; it undoes `U32AsI32`. */
  function I32AsU32(i: Int32): (r: UInt32)
    ensures r == i || r == i + TWO_32
    ensures U32AsI32(r) == i
  {
    if i < 0 then i + TWO_32 else i
  }

  /** Rust `u as i64`. */
  function U64AsI64(u: UInt64): (r: Int64)
    ensures r == u || r == u - TWO_64
    ensures 0 <= r <==> u < TWO_63
  {
    if u < TWO_63 then u else u - TWO_64
  }

  /** Rust `i as u64`; it undoes `U64AsI64`. */
  function I64AsU64(i: Int64): (r: UInt64)
    ensures r == i || r == i + TWO_64
    ensures U64AsI64(r) == i
  {
    if i < 0 then i + TWO_64 else i
  }

  /** Rust `n as i32` for a `usize` (or any non-negative) value: keep the low 32 bits, read them signed. */
  function UsizeAsI32(n: nat): (r: Int32)
    ensures (r - n) % TWO_32 == 0
    ensures n < TWO_31 ==> r == n
  {
    U32AsI32(n % TWO_32)
  }

  /** Wrapping i32 addition (`+` in a release build). */
  function WrappingAddI32(a: Int32, b: Int32): (r: Int32)
    ensures r == a + b || r == a + b - TWO_32 || r == a + b + TWO_32
    ensures -TWO_31 <= a + b < TWO_31 ==> r == a + b
  {
    if a + b >= TWO_31 then a + b - TWO_32
    else if a + b < -TWO_31 then a + b + TWO_32
    else a + b
  }

  /** The i32 congruent to `x` modulo 2^32: what a chain of wrapping i32 additions totalling `x` yields. */
  function WrapI32(x: int): (r: Int32)
    ensures (r - x) % TWO_32 == 0
  {
    UsizeAsI32(x % TWO_32)
  }

  /** Two i32 values congruent modulo 2^32 are equal. */
  lemma CongruentI32Equal(a: Int32, b: Int32)
    requires (a - b) % TWO_32 == 0
    ensures a == b
  {
    var q := (a - b) / TWO_32;
    assert a - b == TWO_32 * q;
  }

  // ---------------------------------------------------------------------
  // Little-endian byte layouts
  // ---------------------------------------------------------------------

  function Pow256(n: nat): (p: nat)
    ensures p >= 1
  {
    if n == 0 then 1 else 256 * Pow256(n - 1)
  }

  /** The unsigned value of a little-endian byte string. */
  function FromLe(b: seq<Byte>): (n: nat)
    ensures n < Pow256(|b|)
  {
    if b == [] then 0
    else
      var rest := FromLe(b[1..]);
      assert rest <= Pow256(|b| - 1) - 1;
      assert 256 * rest <= 256 * Pow256(|b| - 1) - 256;
      b[0] + 256 * rest
  }

  /** The `width`-byte little-endian layout of `n`; `FromLe` reads it back. */
  function ToLe(n: nat, width: nat): (b: seq<Byte>)
    requires n < Pow256(width)
    ensures |b| == width
    ensures FromLe(b) == n
  {
    if width == 0 then []
    else
      var tail := ToLe(n / 256, width - 1);
      assert ([n % 256] + tail)[1..] == tail;
      [n % 256] + tail
  }

  /** Every byte string is the layout of its own value. */
  lemma {:induction false} ToLeFromLe(b: seq<Byte>)
    ensures ToLe(FromLe(b), |b|) == b
  {
    if b != [] {
      ToLeFromLe(b[1..]);
      assert FromLe(b) / 256 == FromLe(b[1..]);
      assert FromLe(b) % 256 == b[0];
    }
  }

  /** `i32::to_le_bytes` */
  function I32ToLe(x: Int32): (b: seq<Byte>)
    ensures |b| == 4
  {
    ToLe(I32AsU32(x), 4)
  }

  /** `i32::from_le_bytes` */
  function I32FromLe(b: seq<Byte>): Int32
    requires |b| == 4
  {
    U32AsI32(FromLe(b))
  }

  /** `u16::to_le_bytes` */
  function U16ToLe(x: UInt16): (b: seq<Byte>)
    ensures |b| == 2
  {
    ToLe(x, 2)
  }

  /** `u64::to_le_bytes` */
  function U64ToLe(x: UInt64): (b: seq<Byte>)
    ensures |b| == 8
  {
    ToLe(x, 8)
  }

  /** Writing an i32 in little-endian order and reading it back gives the same i32. */
  lemma I32LeRoundTrip(x: Int32)
    ensures I32FromLe(I32ToLe(x)) == x
  {
  }

  /** Reading four bytes as an i32 and writing it back gives the same bytes. */
  lemma I32LeBytesRoundTrip(b: seq<Byte>)
    requires |b| == 4
    ensures I32ToLe(I32FromLe(b)) == b
  {
    ToLeFromLe(b);
  }

  // ---------------------------------------------------------------------
  // UTF-8 (what `core::str::from_utf8` accepts)
  // ---------------------------------------------------------------------

  predicate IsContinuation(b: Byte) {
    0x80 <= b <= 0xBF
  }

  /**
   * The length of the well-formed UTF-8 character `s` starts with, after
   * table 3-7 of the Unicode Standard, or 0 when `s` does not start with one.
   */
  function Utf8CharLen(s: seq<Byte>): (n: nat)
    ensures n <= |s|
  {
    if s == [] then 0
    else if s[0] < 0x80 then 1
    else if 0xC2 <= s[0] <= 0xDF then
      if |s| >= 2 && IsContinuation(s[1]) then 2 else 0
    else if s[0] == 0xE0 then
      if |s| >= 3 && 0xA0 <= s[1] <= 0xBF && IsContinuation(s[2]) then 3 else 0
    else if (0xE1 <= s[0] <= 0xEC) || (0xEE <= s[0] <= 0xEF) then
      if |s| >= 3 && IsContinuation(s[1]) && IsContinuation(s[2]) then 3 else 0
    else if s[0] == 0xED then
      if |s| >= 3 && 0x80 <= s[1] <= 0x9F && IsContinuation(s[2]) then 3 else 0
    else if s[0] == 0xF0 then
      if |s| >= 4 && 0x90 <= s[1] <= 0xBF && IsContinuation(s[2]) && IsContinuation(s[3]) then 4 else 0
    else if 0xF1 <= s[0] <= 0xF3 then
      if |s| >= 4 && IsContinuation(s[1]) && IsContinuation(s[2]) && IsContinuation(s[3]) then 4 else 0
    else if s[0] == 0xF4 then
      if |s| >= 4 && 0x80 <= s[1] <= 0x8F && IsContinuation(s[2]) && IsContinuation(s[3]) then 4 else 0
    else 0
  }

  /** Well-formed UTF-8: a sequence of well-formed characters (what `core::str::from_utf8` accepts). */
  predicate IsUtf8(s: seq<Byte>)
    decreases |s|
  {
    s == [] || (Utf8CharLen(s) > 0 && IsUtf8(s[Utf8CharLen(s)..]))
  }

  /** Pure ASCII is UTF-8; a byte at or above 0x80 never starts a one-byte character. */
  lemma {:induction false} AsciiIsUtf8(s: seq<Byte>)
    requires forall i :: 0 <= i < |s| ==> s[i] < 0x80
    ensures IsUtf8(s)
  {
    if s != [] {
      AsciiIsUtf8(s[1..]);
    }
  }

  // ---------------------------------------------------------------------
  // Hyperlight function types and values (hyperlight_common)
  // ---------------------------------------------------------------------

  datatype ParameterType = Int | UInt | Long | ULong | Float | Double | String | Bool | VecBytes

  datatype ReturnType = Int | UInt | Long | ULong | Float | Double | String | Bool | Void | VecBytes

  /**
   * A parameter value. Floating-point values are carried as their IEEE-754
   * bit patterns (`to_bits`/`from_bits` are then the identity); strings as
   * their UTF-8 bytes.
   */
  datatype ParameterValue =
    | Int(i: Int32)
    | UInt(u: UInt32)
    | Long(l: Int64)
    | ULong(ul: UInt64)
    | Float(fbits: UInt32)
    | Double(dbits: UInt64)
    | String(s: seq<Byte>)
    | Bool(b: bool)
    | VecBytes(bytes: seq<Byte>)

  datatype ReturnValue =
    | Int(i: Int32)
    | UInt(u: UInt32)
    | Long(l: Int64)
    | ULong(ul: UInt64)
    | Float(fbits: UInt32)
    | Double(dbits: UInt64)
    | String(s: seq<Byte>)
    | Bool(b: bool)
    | Void
    | VecBytes(bytes: seq<Byte>)

  function TypeOfParameter(p: ParameterValue): ParameterType {
    match p
    case Int(_) => ParameterType.Int
    case UInt(_) => ParameterType.UInt
    case Long(_) => ParameterType.Long
    case ULong(_) => ParameterType.ULong
    case Float(_) => ParameterType.Float
    case Double(_) => ParameterType.Double
    case String(_) => ParameterType.String
    case Bool(_) => ParameterType.Bool
    case VecBytes(_) => ParameterType.VecBytes
  }

  /** A host function's signature as the host describes it (`HostFunctionDefinition`). */
  datatype HostFunctionDefinition = HostFunctionDefinition(
    functionName: string,
    parameterTypes: Option<seq<ParameterType>>,
    returnType: ReturnType)

  /** A guest function call as the host sends it (`FunctionCall`). */
  datatype FunctionCall = FunctionCall(
    functionName: string,
    parameters: Option<seq<ParameterValue>>,
    expectedReturnType: ReturnType)

  /** A guest function registration (`GuestFunctionDefinition`) made at guest start-up. */
  datatype GuestFunctionDefinition = GuestFunctionDefinition(
    name: string,
    parameterTypes: seq<ParameterType>,
    returnType: ReturnType)

  // ---------------------------------------------------------------------
  // wasmtime values
  // ---------------------------------------------------------------------

  /** wasmtime's `Val`; `Other` stands for the kinds this runtime never produces (v128, references). */
  datatype Val = I32(i: Int32) | I64(l: Int64) | F32(fbits: UInt32) | F64(dbits: UInt64) | Other

  datatype ValType = I32Type | I64Type | F32Type | F64Type

  /** wasmtime's `FuncType`: parameter and result types. */
  datatype FuncType = FuncType(params: seq<ValType>, results: seq<ValType>)

  // ---------------------------------------------------------------------
  // Errors and results
  // ---------------------------------------------------------------------

  datatype Option<+T> = None | Some(value: T)

  datatype ErrorCode = GuestError | GuestFunctionNotFound | GuestFunctionParameterTypeMismatch

  /** A returned `HyperlightGuestError`, or a panic that aborts the guest. */
  datatype Failure = Error(code: ErrorCode, message: string) | Panic(reason: string)

  datatype Result<+T> = Ok(value: T) | Fail(failure: Failure) {
    predicate IsFailure() {
      Fail?
    }

    function PropagateFailure<U>(): Result<U>
      requires Fail?
    {
      Fail(failure)
    }

    function Extract(): T
      requires Ok?
    {
      value
    }
  }

  /** The panic raised by `unwrap()` on an error. */
  const UNWRAP_FAILED: string := "called `Result::unwrap()` on an `Err` value"
  /** The panic raised by `vec![0; n]` when `n` (a negative i32 cast to usize) is too large. */
  const CAPACITY_OVERFLOW: string := "capacity overflow"

  predicate IsPanic<T>(r: Result<T>) {
    r.Fail? && r.failure.Panic?
  }

  predicate IsGuestError<T>(r: Result<T>, message: string) {
    r == Fail(Error(GuestError, message))
  }
}
