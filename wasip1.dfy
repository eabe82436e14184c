/**
 * The four WASI preview-1 imports the module runtime links in
 * (src/wasm_runtime/src/wasip1.rs): `fd_write` prints the iovecs of
 * standard output through the host's `HostPrint`, `fd_fdstat_get`
 * describes standard output as a writable regular file, and `fd_seek` and
 * `fd_close` abort the guest.
 *
 * The host's answer to each `HostPrint` call is supplied by the caller as
 * `reply(i)` for the i-th iovec.
 */
module Wasip1 {
  import opened Values
  import opened GuestMemory

  const WASI_MODULE: string := "wasi_snapshot_preview1"

  /** The `(module, name)` pairs `register_handlers` defines, in order. */
  const HANDLERS: seq<(string, string)> := [
    (WASI_MODULE, "fd_seek"), (WASI_MODULE, "fd_write"),
    (WASI_MODULE, "fd_close"), (WASI_MODULE, "fd_fdstat_get")]

  const STDOUT: Int32 := 1

  /** `fd_write` return codes besides 0. */
  const BAD_FD: Int32 := -1
  const NOT_UTF8: Int32 := -2
  const PRINT_FAILED: Int32 := -3
  const NO_PRINT_RESULT: Int32 := -4

  /** `fdstat.fs_filetype` of a regular file. */
  const FILETYPE_REGULAR_FILE: UInt16 := 4
  /** `fdstat.fs_rights_*`: read, write and seek. */
  const RIGHTS_READ_WRITE_SEEK: UInt64 := 0x23

  /** Rust `x as usize` for an i32 on a 64-bit target. */
  function Usize(x: Int32): (n: nat)
    ensures n < TWO_64
    ensures x >= 0 ==> n == x
    ensures x < 0 ==> n >= TWO_63
  {
    if x < 0 then x + TWO_64 else x
  }

  /** `fd_seek` is not supported: it panics with its arguments. */
  function FdSeek(fd: Int32, delta: Int64, whence: Int32, retptr: Int32): (r: Result<Int32>)
    ensures IsPanic(r)
  {
    Fail(Panic("fd_seek called"))
  }

  /** `fd_close` is not supported: it panics with its argument. */
  function FdClose(fd: Int32): (r: Result<Int32>)
    ensures IsPanic(r)
  {
    Fail(Panic("fd_close called"))
  }

  // ---------------------------------------------------------------------
  // fd_write
  // ---------------------------------------------------------------------

  /** What the host made of one `HostPrint` call. */
  datatype PrintReply =
    | CallFailed          // `call_host_function` returned an error
    | NoReturnValue       // `get_host_return_value::<i32>` returned an error
    | Written(n: Int32)   // the host reports `n` bytes written

  /**
   * The bytes an iovec at `iov` designates: a little-endian i32 buffer
   * address at offset 0 and a little-endian i32 length at offset 4. A read
   * outside the memory fails an `unwrap`; a negative length, cast to
   * `usize`, makes `vec![0u8; len]` overflow its capacity.
   */
  function IovecChunk(m: seq<Byte>, iov: int): Result<seq<Byte>> {
    var bufField := ReadSpec(m, iov, 4);
    var lenField := ReadSpec(m, iov + 4, 4);
    if bufField.None? || lenField.None? then Fail(Panic(UNWRAP_FAILED))
    else
      var buf := I32FromLe(bufField.value);
      var len := I32FromLe(lenField.value);
      if len < 0 then Fail(Panic(CAPACITY_OVERFLOW))
      else
        var bytes := ReadSpec(m, Usize(buf), len);
        if bytes.None? then Fail(Panic(UNWRAP_FAILED)) else Ok(bytes.value)
  }

  /** The iovec reader over a fixed memory `m`. */
  function ChunkReader(m: seq<Byte>): int -> Result<seq<Byte>> {
    iov => IovecChunk(m, iov)
  }

  /** How the iovec loop ends: all iovecs done with a running total, or an early return code. */
  datatype LoopEnd = Finished(total: Int32) | EarlyReturn(code: Int32)

  /** The loop's outcome and the strings it handed to `HostPrint`, in order. */
  datatype WriteRun = WriteRun(outcome: Result<LoopEnd>, printed: seq<seq<Byte>>)

  function Continue(p: seq<seq<Byte>>, run: WriteRun): WriteRun {
    WriteRun(run.outcome, p + run.printed)
  }

  /**
   * The iovec loop from iteration `i` of `count`, with `total` bytes
   * reported so far. The total is accumulated with wrapping addition.
   */
  function WriteLoop(chunkAt: int -> Result<seq<Byte>>, iovs: nat, i: nat, count: nat, total: Int32,
                     reply: nat -> PrintReply): WriteRun
    decreases count - i
  {
    if i >= count then WriteRun(Ok(Finished(total)), [])
    else
      var chunk := chunkAt(iovs + 8 * i);
      if chunk.Fail? then WriteRun(Fail(chunk.failure), [])
      else if !IsUtf8(chunk.value) then WriteRun(Ok(EarlyReturn(NOT_UTF8)), [])
      else match reply(i)
        case CallFailed => WriteRun(Ok(EarlyReturn(PRINT_FAILED)), [chunk.value])
        case NoReturnValue => WriteRun(Ok(EarlyReturn(NO_PRINT_RESULT)), [chunk.value])
        case Written(n) => Continue([chunk.value], WriteLoop(chunkAt, iovs, i + 1, count, WrappingAddI32(total, n), reply))
  }

  /** The return code, the strings printed and the memory afterwards. */
  datatype FdWriteEffect = FdWriteEffect(rc: Result<Int32>, printed: seq<seq<Byte>>, memory: seq<Byte>)

  /** `fd_write(fd, iovs, iovs_len, retptr)` on a memory `m` (`hasMemory` says whether `memory` is exported). */
  function FdWriteSpec(fd: Int32, iovs: Int32, iovsLen: Int32, retptr: Int32, hasMemory: bool,
                       m: seq<Byte>, reply: nat -> PrintReply): FdWriteEffect
  {
    if fd != STDOUT || !hasMemory then FdWriteEffect(Ok(BAD_FD), [], m)
    else
      var run := WriteLoop(ChunkReader(m), Usize(iovs), 0, Usize(iovsLen), 0, reply);
      match run.outcome
      case Fail(f) => FdWriteEffect(Fail(f), run.printed, m)
      case Ok(EarlyReturn(code)) => FdWriteEffect(Ok(code), run.printed, m)
      case Ok(Finished(total)) =>
        var p := Usize(retptr);
        if p + 4 <= |m| then FdWriteEffect(Ok(0), run.printed, WriteSpec(m, p, I32ToLe(total)))
        else FdWriteEffect(Fail(Panic(UNWRAP_FAILED)), run.printed, m)
  }

  /** Read the iovec at `iov` and the bytes it designates. */
  method ReadIovec(inst: Instance, iov: int) returns (r: Result<seq<Byte>>)
    requires inst.hasMemory
    ensures r == IovecChunk(inst.memory[..], iov)
  {
    var bufField := inst.Read(iov, 4);
    if bufField.Fail? {
      return Fail(Panic(UNWRAP_FAILED));
    }
    var lenField := inst.Read(iov + 4, 4);
    if lenField.Fail? {
      return Fail(Panic(UNWRAP_FAILED));
    }
    var buf := I32FromLe(bufField.value);
    var len := I32FromLe(lenField.value);
    if len < 0 {
      return Fail(Panic(CAPACITY_OVERFLOW));
    }
    var bytes := inst.Read(Usize(buf), len);
    if bytes.Fail? {
      return Fail(Panic(UNWRAP_FAILED));
    }
    r := Ok(bytes.value);
  }

  /** `ReadIovec`, seen through a reader `chunkAt` that agrees with `IovecChunk` on this memory. */
  method ReadChunk(inst: Instance, iov: int, ghost chunkAt: int -> Result<seq<Byte>>) returns (r: Result<seq<Byte>>)
    requires inst.hasMemory
    requires forall iov {:trigger IovecChunk(inst.memory[..], iov)} :: IovecChunk(inst.memory[..], iov) == chunkAt(iov)
    ensures r == chunkAt(iov)
  {
    r := ReadIovec(inst, iov);
  }

  /**
   * The loop of the `fd_write` handler: read each of `count` iovecs from
   * `base` on, check it is UTF-8, hand it to `HostPrint` and add up the
   * byte counts the host reports.
   */
  method PrintIovecs(inst: Instance, base: nat, count: nat, reply: nat -> PrintReply,
                     ghost chunkAt: int -> Result<seq<Byte>>)
    returns (run: WriteRun)
    requires inst.hasMemory
    requires forall iov {:trigger IovecChunk(inst.memory[..], iov)} :: IovecChunk(inst.memory[..], iov) == chunkAt(iov)
    ensures run == WriteLoop(chunkAt, base, 0, count, 0, reply)
  {
    var printed: seq<seq<Byte>> := [];
    var total: Int32 := 0;
    var i: nat := 0;
    while i < count
      invariant WriteLoop(chunkAt, base, 0, count, 0, reply)
                == Continue(printed, WriteLoop(chunkAt, base, i, count, total, reply))
      decreases count - i
    {
      LoopIteration(chunkAt, base, i, count, total, reply, printed);
      var chunk := ReadChunk(inst, base + 8 * i, chunkAt);
      if chunk.Fail? {
        return WriteRun(Fail(chunk.failure), printed);
      }
      if !IsUtf8(chunk.value) {
        return WriteRun(Ok(EarlyReturn(NOT_UTF8)), printed);
      }
      match reply(i)
      case CallFailed =>
        return WriteRun(Ok(EarlyReturn(PRINT_FAILED)), printed + [chunk.value]);
      case NoReturnValue =>
        return WriteRun(Ok(EarlyReturn(NO_PRINT_RESULT)), printed + [chunk.value]);
      case Written(n) =>
        printed := printed + [chunk.value];
        total := WrappingAddI32(total, n);
      i := i + 1;
    }
    assert printed + [] == printed;
    run := WriteRun(Ok(Finished(total)), printed);
  }

  /** One iteration of the iovec loop, after `printed` has been handed to `HostPrint`. */
  lemma LoopIteration(chunkAt: int -> Result<seq<Byte>>, iovs: nat, i: nat, count: nat, total: Int32,
                      reply: nat -> PrintReply, printed: seq<seq<Byte>>)
    requires i < count
    ensures var chunk := chunkAt(iovs + 8 * i);
      var run := Continue(printed, WriteLoop(chunkAt, iovs, i, count, total, reply));
      && (chunk.Fail? ==> run == WriteRun(Fail(chunk.failure), printed))
      && (chunk.Ok? && !IsUtf8(chunk.value) ==> run == WriteRun(Ok(EarlyReturn(NOT_UTF8)), printed))
      && (chunk.Ok? && IsUtf8(chunk.value) && reply(i).CallFailed? ==>
            run == WriteRun(Ok(EarlyReturn(PRINT_FAILED)), printed + [chunk.value]))
      && (chunk.Ok? && IsUtf8(chunk.value) && reply(i).NoReturnValue? ==>
            run == WriteRun(Ok(EarlyReturn(NO_PRINT_RESULT)), printed + [chunk.value]))
      && (chunk.Ok? && IsUtf8(chunk.value) && reply(i).Written? ==>
            run == Continue(printed + [chunk.value],
                            WriteLoop(chunkAt, iovs, i + 1, count, WrappingAddI32(total, reply(i).n), reply)))
  {
    assert printed + [] == printed;
    var chunk := chunkAt(iovs + 8 * i);
    if chunk.Ok? && IsUtf8(chunk.value) && reply(i).Written? {
      var rest := WriteLoop(chunkAt, iovs, i + 1, count, WrappingAddI32(total, reply(i).n), reply);
      assert printed + ([chunk.value] + rest.printed) == (printed + [chunk.value]) + rest.printed;
    }
  }

  /** The `fd_write` handler: print each iovec, then store the total the host reported at `retptr`. */
  method FdWrite(inst: Instance, fd: Int32, iovs: Int32, iovsLen: Int32, retptr: Int32,
                 reply: nat -> PrintReply)
    returns (rc: Result<Int32>, printed: seq<seq<Byte>>)
    modifies inst.memory
    ensures var e := FdWriteSpec(fd, iovs, iovsLen, retptr, inst.hasMemory, old(inst.memory[..]), reply);
      rc == e.rc && printed == e.printed && inst.memory[..] == e.memory
  {
    if fd != STDOUT || !inst.hasMemory {
      return Ok(BAD_FD), [];
    }
    var run := PrintIovecs(inst, Usize(iovs), Usize(iovsLen), reply, ChunkReader(inst.memory[..]));
    printed := run.printed;
    match run.outcome
    case Fail(f) =>
      rc := Fail(f);
    case Ok(EarlyReturn(code)) =>
      rc := Ok(code);
    case Ok(Finished(total)) =>
      var w := inst.Write(Usize(retptr), I32ToLe(total));
      rc := if w.Fail? then Fail(Panic(UNWRAP_FAILED)) else Ok(0);
  }

  /** The sum of the byte counts the host reported for iovecs `i` up to `count`. */
  function ReportedSum(reply: nat -> PrintReply, i: nat, count: nat): int
    decreases count - i
  {
    if i >= count then 0
    else (if reply(i).Written? then reply(i).n else 0) + ReportedSum(reply, i + 1, count)
  }

  /** Adding `n` with wrap-around and then `rest` agrees with adding `n + rest`, modulo 2^32. */
  lemma TotalStep(final: int, total: Int32, n: Int32, rest: int)
    requires (final - (WrappingAddI32(total, n) + rest)) % TWO_32 == 0
    ensures (final - (total + (n + rest))) % TWO_32 == 0
  {
    var t' := WrappingAddI32(total, n);
    var q1 := (final - (t' + rest)) / TWO_32;
    var q2 := (t' - (total + n)) / TWO_32;
    assert final - (t' + rest) == TWO_32 * q1;
    assert t' - (total + n) == TWO_32 * q2;
    assert final - (total + (n + rest)) == TWO_32 * (q1 + q2);
  }

  /** One iteration of a loop that runs to the end: a UTF-8 chunk, printed, with a byte count. */
  lemma WriteLoopStep(chunkAt: int -> Result<seq<Byte>>, iovs: nat, i: nat, count: nat, total: Int32, reply: nat -> PrintReply)
    requires i < count
    requires WriteLoop(chunkAt, iovs, i, count, total, reply).outcome.Ok?
    requires WriteLoop(chunkAt, iovs, i, count, total, reply).outcome.value.Finished?
    ensures var chunk := chunkAt(iovs + 8 * i);
      && chunk.Ok? && IsUtf8(chunk.value) && reply(i).Written?
      && WriteLoop(chunkAt, iovs, i, count, total, reply)
         == Continue([chunk.value], WriteLoop(chunkAt, iovs, i + 1, count, WrappingAddI32(total, reply(i).n), reply))
  {
  }

  /**
   * When the loop runs to the end, it printed every iovec from `i` on, in
   * order, each one well-formed UTF-8.
   */
  lemma {:induction false} WriteLoopPrintsAll(chunkAt: int -> Result<seq<Byte>>, iovs: nat, i: nat, count: nat, total: Int32,
                                             reply: nat -> PrintReply)
    requires i <= count
    requires WriteLoop(chunkAt, iovs, i, count, total, reply).outcome.Ok?
    requires WriteLoop(chunkAt, iovs, i, count, total, reply).outcome.value.Finished?
    ensures var printed := WriteLoop(chunkAt, iovs, i, count, total, reply).printed;
      && |printed| == count - i
      && forall k :: 0 <= k < |printed| ==>
           chunkAt(iovs + 8 * (i + k)) == Ok(printed[k]) && IsUtf8(printed[k])
    decreases count - i
  {
    if i < count {
      WriteLoopStep(chunkAt, iovs, i, count, total, reply);
      var chunk := chunkAt(iovs + 8 * i);
      var t' := WrappingAddI32(total, reply(i).n);
      var rest := WriteLoop(chunkAt, iovs, i + 1, count, t', reply).printed;
      WriteLoopPrintsAll(chunkAt, iovs, i + 1, count, t', reply);
      var printed := WriteLoop(chunkAt, iovs, i, count, total, reply).printed;
      assert printed == [chunk.value] + rest;
      forall k | 0 <= k < |printed|
        ensures chunkAt(iovs + 8 * (i + k)) == Ok(printed[k]) && IsUtf8(printed[k])
      {
        if k > 0 {
          assert printed[k] == rest[k - 1];
          assert iovs + 8 * (i + 1 + (k - 1)) == iovs + 8 * (i + k);
        }
      }
    }
  }

  /**
   * When the loop runs to the end, every host call from `i` on reported a
   * byte count, and the final total is the running total plus their sum,
   * modulo 2^32.
   */
  lemma {:induction false} WriteLoopTotal(chunkAt: int -> Result<seq<Byte>>, iovs: nat, i: nat, count: nat, total: Int32,
                                         reply: nat -> PrintReply)
    requires i <= count
    requires WriteLoop(chunkAt, iovs, i, count, total, reply).outcome.Ok?
    requires WriteLoop(chunkAt, iovs, i, count, total, reply).outcome.value.Finished?
    ensures forall k :: i <= k < count ==> reply(k).Written?
    ensures (WriteLoop(chunkAt, iovs, i, count, total, reply).outcome.value.total
             - (total + ReportedSum(reply, i, count))) % TWO_32 == 0
    decreases count - i
  {
    if i < count {
      WriteLoopStep(chunkAt, iovs, i, count, total, reply);
      var n := reply(i).n;
      var t' := WrappingAddI32(total, n);
      WriteLoopTotal(chunkAt, iovs, i + 1, count, t', reply);
      var final := WriteLoop(chunkAt, iovs, i + 1, count, t', reply).outcome.value.total;
      assert WriteLoop(chunkAt, iovs, i, count, total, reply).outcome.value.total == final;
      assert ReportedSum(reply, i, count) == n + ReportedSum(reply, i + 1, count);
      TotalStep(final, total, n, ReportedSum(reply, i + 1, count));
    } else {
      assert (total - (total + 0)) % TWO_32 == 0;
    }
  }

  /**
   * `fd_write` answers 0 or one of the codes -1 to -4, and every answer but
   * 0 leaves the memory as it was.
   */
  lemma FdWriteCodes(fd: Int32, iovs: Int32, iovsLen: Int32, retptr: Int32, hasMemory: bool,
                     m: seq<Byte>, reply: nat -> PrintReply)
    ensures var e := FdWriteSpec(fd, iovs, iovsLen, retptr, hasMemory, m, reply);
      && (e.rc.Ok? ==> e.rc.value in {0, BAD_FD, NOT_UTF8, PRINT_FAILED, NO_PRINT_RESULT})
      && (e.rc != Ok(0) ==> e.memory == m)
  {
    if fd == STDOUT && hasMemory {
      WriteLoopCodes(ChunkReader(m), Usize(iovs), 0, Usize(iovsLen), 0, reply);
    }
  }

  /**
   * When `fd_write` returns 0 it wrote to standard output through an
   * exported memory and printed every iovec in order, each after a host
   * call that reported a byte count.
   */
  lemma FdWritePrintsAll(fd: Int32, iovs: Int32, iovsLen: Int32, retptr: Int32, hasMemory: bool,
                         m: seq<Byte>, reply: nat -> PrintReply)
    requires FdWriteSpec(fd, iovs, iovsLen, retptr, hasMemory, m, reply).rc == Ok(0)
    ensures fd == STDOUT && hasMemory
    ensures var printed := FdWriteSpec(fd, iovs, iovsLen, retptr, hasMemory, m, reply).printed;
      && |printed| == Usize(iovsLen)
      && forall k :: 0 <= k < Usize(iovsLen) ==>
           IovecChunk(m, Usize(iovs) + 8 * k) == Ok(printed[k]) && reply(k).Written?
  {
    var total := FdWriteFinished(fd, iovs, iovsLen, retptr, hasMemory, m, reply);
    var printed := FdWriteSpec(fd, iovs, iovsLen, retptr, hasMemory, m, reply).printed;
    FinishedLoop(ChunkReader(m), Usize(iovs), Usize(iovsLen), reply, total);
    forall k | 0 <= k < Usize(iovsLen)
      ensures IovecChunk(m, Usize(iovs) + 8 * k) == Ok(printed[k]) && reply(k).Written?
    {
      assert ChunkReader(m)(Usize(iovs) + 8 * k) == Ok(printed[k]);
    }
  }

  /**
   * When `fd_write` returns 0 it stored at `retptr` the sum of the byte
   * counts the host reported, wrapped to an i32.
   */
  lemma FdWriteStoresTotal(fd: Int32, iovs: Int32, iovsLen: Int32, retptr: Int32, hasMemory: bool,
                           m: seq<Byte>, reply: nat -> PrintReply)
    requires FdWriteSpec(fd, iovs, iovsLen, retptr, hasMemory, m, reply).rc == Ok(0)
    ensures var written := ReadSpec(FdWriteSpec(fd, iovs, iovsLen, retptr, hasMemory, m, reply).memory, Usize(retptr), 4);
      written.Some? && I32FromLe(written.value) == WrapI32(ReportedSum(reply, 0, Usize(iovsLen)))
  {
    var total := FdWriteFinished(fd, iovs, iovsLen, retptr, hasMemory, m, reply);
    FinishedLoop(ChunkReader(m), Usize(iovs), Usize(iovsLen), reply, total);
    StoredTotal(m, Usize(retptr), total);
  }

  /** A loop that runs to the end printed every iovec and sums the host's counts. */
  lemma FinishedLoop(chunkAt: int -> Result<seq<Byte>>, iovs: nat, count: nat, reply: nat -> PrintReply, total: Int32)
    requires WriteLoop(chunkAt, iovs, 0, count, 0, reply).outcome == Ok(Finished(total))
    ensures var printed := WriteLoop(chunkAt, iovs, 0, count, 0, reply).printed;
      && |printed| == count
      && (forall k :: 0 <= k < count ==> chunkAt(iovs + 8 * k) == Ok(printed[k]) && reply(k).Written?)
      && total == WrapI32(ReportedSum(reply, 0, count))
  {
    WriteLoopTotal(chunkAt, iovs, 0, count, 0, reply);
    WriteLoopPrintsAll(chunkAt, iovs, 0, count, 0, reply);
    var printed := WriteLoop(chunkAt, iovs, 0, count, 0, reply).printed;
    forall k | 0 <= k < count
      ensures chunkAt(iovs + 8 * k) == Ok(printed[k])
    {
      assert iovs + 8 * (0 + k) == iovs + 8 * k;
    }
    SameWrap(total, ReportedSum(reply, 0, count));
  }

  lemma SameWrap(total: Int32, sum: int)
    requires (total - (0 + sum)) % TWO_32 == 0
    ensures total == WrapI32(sum)
  {
    var w := WrapI32(sum);
    var q1 := (total - sum) / TWO_32;
    var q2 := (w - sum) / TWO_32;
    assert total - sum == TWO_32 * q1;
    assert w - sum == TWO_32 * q2;
    assert total - w == TWO_32 * (q1 - q2);
    CongruentI32Equal(total, w);
  }

  /** The total stored at `p` reads back as itself. */
  lemma StoredTotal(m: seq<Byte>, p: nat, total: Int32)
    requires p + 4 <= |m|
    ensures var written := ReadSpec(WriteSpec(m, p, I32ToLe(total)), p, 4);
      written.Some? && I32FromLe(written.value) == total
  {
    I32LeRoundTrip(total);
  }

  /** A successful `fd_write` is a loop run to the end followed by the write of its total. */
  lemma FdWriteFinished(fd: Int32, iovs: Int32, iovsLen: Int32, retptr: Int32, hasMemory: bool,
                        m: seq<Byte>, reply: nat -> PrintReply)
    returns (total: Int32)
    requires FdWriteSpec(fd, iovs, iovsLen, retptr, hasMemory, m, reply).rc == Ok(0)
    ensures fd == STDOUT && hasMemory && Usize(retptr) + 4 <= |m|
    ensures var run := WriteLoop(ChunkReader(m), Usize(iovs), 0, Usize(iovsLen), 0, reply);
      var e := FdWriteSpec(fd, iovs, iovsLen, retptr, hasMemory, m, reply);
      && run.outcome == Ok(Finished(total))
      && e.printed == run.printed
      && e.memory == WriteSpec(m, Usize(retptr), I32ToLe(total))
  {
    var run := WriteLoop(ChunkReader(m), Usize(iovs), 0, Usize(iovsLen), 0, reply);
    WriteLoopCodes(ChunkReader(m), Usize(iovs), 0, Usize(iovsLen), 0, reply);
    total := run.outcome.value.total;
  }

  /** An early return from the loop carries one of the codes -2, -3 or -4. */
  lemma {:induction false} WriteLoopCodes(chunkAt: int -> Result<seq<Byte>>, iovs: nat, i: nat, count: nat, total: Int32,
                                         reply: nat -> PrintReply)
    ensures var run := WriteLoop(chunkAt, iovs, i, count, total, reply);
      run.outcome.Ok? && run.outcome.value.EarlyReturn? ==>
        run.outcome.value.code in {NOT_UTF8, PRINT_FAILED, NO_PRINT_RESULT}
    decreases count - i
  {
    if i < count && reply(i).Written? {
      WriteLoopCodes(chunkAt, iovs, i + 1, count, WrappingAddI32(total, reply(i).n), reply);
    }
  }

  /** An iovec laid out as `{buf, len}` in little-endian order designates the `len` bytes at `buf`. */
  lemma IovecLayout(m: seq<Byte>, iov: nat, buf: Int32, bytes: seq<Byte>)
    requires buf >= 0 && |bytes| < TWO_31
    requires ReadSpec(m, iov, 4) == Some(I32ToLe(buf))
    requires ReadSpec(m, iov + 4, 4) == Some(I32ToLe(|bytes|))
    requires ReadSpec(m, buf, |bytes|) == Some(bytes)
    ensures IovecChunk(m, iov) == Ok(bytes)
  {
    I32LeRoundTrip(buf);
    I32LeRoundTrip(|bytes|);
  }

  // ---------------------------------------------------------------------
  // fd_fdstat_get
  // ---------------------------------------------------------------------

  /** The return code and the memory afterwards. */
  datatype FdstatEffect = FdstatEffect(rc: Result<Int32>, memory: seq<Byte>)

  /**
   * The four field writes of a `fdstat` record at `p`: file type at 0, flags
   * at 2, base rights at 8, inheriting rights at 16. Each write is
   * unwrapped, so the first one out of bounds aborts the guest after the
   * writes before it took effect.
   */
  function FdstatWrites(m: seq<Byte>, p: nat): FdstatEffect {
    if p + 2 > |m| then FdstatEffect(Fail(Panic(UNWRAP_FAILED)), m)
    else
      var m1 := WriteSpec(m, p, U16ToLe(FILETYPE_REGULAR_FILE));
      if p + 4 > |m| then FdstatEffect(Fail(Panic(UNWRAP_FAILED)), m1)
      else
        var m2 := WriteSpec(m1, p + 2, U16ToLe(0));
        if p + 16 > |m| then FdstatEffect(Fail(Panic(UNWRAP_FAILED)), m2)
        else
          var m3 := WriteSpec(m2, p + 8, U64ToLe(RIGHTS_READ_WRITE_SEEK));
          if p + 24 > |m| then FdstatEffect(Fail(Panic(UNWRAP_FAILED)), m3)
          else FdstatEffect(Ok(0), WriteSpec(m3, p + 16, U64ToLe(RIGHTS_READ_WRITE_SEEK)))
  }

  /** `fd_fdstat_get(fd, retptr)`: -1 for any descriptor but standard output or without an exported memory. */
  function FdFdstatGetSpec(fd: Int32, retptr: Int32, hasMemory: bool, m: seq<Byte>): FdstatEffect {
    if fd != STDOUT || !hasMemory then FdstatEffect(Ok(BAD_FD), m)
    else FdstatWrites(m, Usize(retptr))
  }

  /** The `fd_fdstat_get` handler. */
  method FdFdstatGet(inst: Instance, fd: Int32, retptr: Int32) returns (rc: Result<Int32>)
    modifies inst.memory
    ensures var e := FdFdstatGetSpec(fd, retptr, inst.hasMemory, old(inst.memory[..]));
      rc == e.rc && inst.memory[..] == e.memory
  {
    if fd != STDOUT || !inst.hasMemory {
      return Ok(BAD_FD);
    }
    var p := Usize(retptr);
    var w := inst.Write(p, U16ToLe(FILETYPE_REGULAR_FILE));
    if w.Fail? {
      return Fail(Panic(UNWRAP_FAILED));
    }
    w := inst.Write(p + 2, U16ToLe(0));
    if w.Fail? {
      return Fail(Panic(UNWRAP_FAILED));
    }
    w := inst.Write(p + 8, U64ToLe(RIGHTS_READ_WRITE_SEEK));
    if w.Fail? {
      return Fail(Panic(UNWRAP_FAILED));
    }
    w := inst.Write(p + 16, U64ToLe(RIGHTS_READ_WRITE_SEEK));
    if w.Fail? {
      return Fail(Panic(UNWRAP_FAILED));
    }
    rc := Ok(0);
  }

  /** The record writes succeed exactly when all 24 bytes of the record lie inside the memory. */
  lemma FdstatWritesSucceed(m: seq<Byte>, p: nat)
    ensures FdstatWrites(m, p).rc == Ok(0) <==> p + 24 <= |m|
    ensures FdstatWrites(m, p).rc != Ok(0) ==> IsPanic(FdstatWrites(m, p).rc)
  {
    if p + 24 <= |m| {
      var m1 := WriteSpec(m, p, U16ToLe(FILETYPE_REGULAR_FILE));
      var m2 := WriteSpec(m1, p + 2, U16ToLe(0));
      var m3 := WriteSpec(m2, p + 8, U64ToLe(RIGHTS_READ_WRITE_SEEK));
      assert FdstatWrites(m, p).rc == Ok(0);
    }
  }

  /**
   * `fd_fdstat_get` returns 0 exactly for standard output, an exported
   * memory and a 24-byte record inside it; otherwise it returns -1 or
   * aborts the guest.
   */
  lemma FdstatSucceeds(fd: Int32, retptr: Int32, hasMemory: bool, m: seq<Byte>)
    requires |m| <= TWO_32  // a 32-bit linear memory holds at most 4 GiB
    ensures var e := FdFdstatGetSpec(fd, retptr, hasMemory, m);
      && (e.rc == Ok(0) <==> fd == STDOUT && hasMemory && 0 <= retptr && retptr + 24 <= |m|)
      && (e.rc != Ok(0) ==> e.rc == Ok(BAD_FD) || IsPanic(e.rc))
  {
    if fd == STDOUT && hasMemory {
      FdstatWritesSucceed(m, Usize(retptr));
    }
  }

  /**
   * A successful `fd_fdstat_get` leaves a record that reads back as a
   * regular file with no flags and read/write/seek rights; the padding at
   * bytes 4..8 and everything outside the record are untouched.
   */
  lemma FdstatRecord(retptr: nat, m: seq<Byte>)
    requires retptr + 24 <= |m|
    ensures var m' := FdstatWrites(m, retptr).memory;
      && |m'| == |m|
      && ReadSpec(m', retptr, 2) == Some(U16ToLe(FILETYPE_REGULAR_FILE))
      && ReadSpec(m', retptr + 2, 2) == Some(U16ToLe(0))
      && ReadSpec(m', retptr + 8, 8) == Some(U64ToLe(RIGHTS_READ_WRITE_SEEK))
      && ReadSpec(m', retptr + 16, 8) == Some(U64ToLe(RIGHTS_READ_WRITE_SEEK))
      && forall k :: 0 <= k < |m| && !(retptr <= k < retptr + 4) && !(retptr + 8 <= k < retptr + 24) ==>
           m'[k] == m[k]
  {
    var p := retptr;
    var m1 := WriteSpec(m, p, U16ToLe(FILETYPE_REGULAR_FILE));
    var m2 := WriteSpec(m1, p + 2, U16ToLe(0));
    var m3 := WriteSpec(m2, p + 8, U64ToLe(RIGHTS_READ_WRITE_SEEK));
    var m4 := WriteSpec(m3, p + 16, U64ToLe(RIGHTS_READ_WRITE_SEEK));
    assert FdstatWrites(m, p).memory == m4;
    FieldSurvives(m1, m2, p + 2, U16ToLe(0), p, 2);
    FieldSurvives(m2, m3, p + 8, U64ToLe(RIGHTS_READ_WRITE_SEEK), p, 2);
    FieldSurvives(m3, m4, p + 16, U64ToLe(RIGHTS_READ_WRITE_SEEK), p, 2);
    FieldSurvives(m2, m3, p + 8, U64ToLe(RIGHTS_READ_WRITE_SEEK), p + 2, 2);
    FieldSurvives(m3, m4, p + 16, U64ToLe(RIGHTS_READ_WRITE_SEEK), p + 2, 2);
    FieldSurvives(m3, m4, p + 16, U64ToLe(RIGHTS_READ_WRITE_SEEK), p + 8, 8);
  }

  /** A write to `[addr, addr + |bytes|)` leaves a disjoint field `[at, at + n)` as it was. */
  lemma FieldSurvives(m: seq<Byte>, m': seq<Byte>, addr: nat, bytes: seq<Byte>, at: nat, n: nat)
    requires addr + |bytes| <= |m| && at + n <= |m|
    requires m' == WriteSpec(m, addr, bytes)
    requires at + n <= addr || addr + |bytes| <= at
    ensures ReadSpec(m', at, n) == ReadSpec(m, at, n)
  {
    assert m'[at..at + n] == m[at..at + n];
  }
}
