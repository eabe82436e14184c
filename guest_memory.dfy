/**
 * A wasmtime instance as the marshalling code sees it: an exported linear
 * memory and the optional `malloc`, `free` and `memory` exports
 * (src/wasm_runtime/src/marshal.rs:82-192). What the guest's own `malloc`
 * answers is supplied by the caller as `reply`; every request and every
 * address handed to `free` is logged so contracts can speak about them.
 */
module GuestMemory {
  import opened Values

  const MALLOC_MISSING: string := "malloc function not exported"
  const FREE_MISSING: string := "free function not exported"
  const MEMORY_MISSING: string := "memory not exported"
  const WRITE_FAILED: string := "error writing to memory"
  const READ_FAILED: string := "error reading from memory"

  /** `memory.read(addr, n)`: the `n` bytes at `addr`, if they lie inside the memory. */
  function ReadSpec(m: seq<Byte>, addr: int, n: nat): (r: Option<seq<Byte>>)
    ensures r.Some? <==> 0 <= addr && addr + n <= |m|
    ensures r.Some? ==> |r.value| == n
  {
    if 0 <= addr && addr + n <= |m| then Some(m[addr..addr + n]) else None
  }

  /** The memory after writing `bytes` at `addr`. */
  function WriteSpec(m: seq<Byte>, addr: int, bytes: seq<Byte>): (m': seq<Byte>)
    requires 0 <= addr && addr + |bytes| <= |m|
    ensures |m'| == |m|
    ensures ReadSpec(m', addr, |bytes|) == Some(bytes)
  {
    m[..addr] + bytes + m[addr + |bytes|..]
  }

  /** A write changes no byte outside `[addr, addr + |bytes|)`. */
  lemma WriteFrame(m: seq<Byte>, addr: int, bytes: seq<Byte>)
    requires 0 <= addr && addr + |bytes| <= |m|
    ensures forall k :: 0 <= k < |m| && !(addr <= k < addr + |bytes|) ==> WriteSpec(m, addr, bytes)[k] == m[k]
  {
  }

  /**
   * The NUL-terminated string at `addr`: the bytes from `addr` up to and
   * excluding the first 0, or None when the memory ends before a 0.
   */
  function CStrAt(m: seq<Byte>, addr: int): Option<seq<Byte>>
    decreases |m| - addr
  {
    if addr < 0 || addr >= |m| then None
    else if m[addr] == 0 then Some([])
    else
      match CStrAt(m, addr + 1)
      case None => None
      case Some(t) => Some([m[addr]] + t)
  }

  function Prepend(s: seq<Byte>, o: Option<seq<Byte>>): Option<seq<Byte>> {
    match o
    case None => None
    case Some(t) => Some(s + t)
  }

  /** `CStrAt` finds `s` exactly when `s` holds no 0 and is followed by a 0 inside the memory. */
  lemma {:induction false} CStrAtIff(m: seq<Byte>, addr: int, s: seq<Byte>)
    ensures CStrAt(m, addr) == Some(s) <==>
      (0 <= addr && addr + |s| < |m| && m[addr..addr + |s|] == s && 0 !in s && m[addr + |s|] == 0)
    decreases |m| - addr
  {
    if addr < 0 || addr >= |m| {
    } else if m[addr] == 0 {
      if s != [] && addr + |s| < |m| && m[addr..addr + |s|] == s {
        assert s[0] == m[addr];
      }
    } else if s == [] {
    } else {
      CStrAtIff(m, addr + 1, s[1..]);
      if CStrAt(m, addr) == Some(s) {
        assert m[addr..addr + |s|] == [m[addr]] + m[addr + 1..addr + 1 + |s[1..]|];
        assert s == [s[0]] + s[1..];
      }
      if 0 <= addr && addr + |s| < |m| && m[addr..addr + |s|] == s && 0 !in s && m[addr + |s|] == 0 {
        assert m[addr + 1..addr + 1 + |s[1..]|] == m[addr..addr + |s|][1..];
        assert s[0] == m[addr];
        assert 0 !in s[1..];
        assert [m[addr]] + s[1..] == s;
      }
    }
  }

  /** A NUL-terminated string written into memory reads back as itself. */
  lemma CStrRoundTrip(m: seq<Byte>, addr: int, s: seq<Byte>)
    requires 0 <= addr && addr + |s| + 1 <= |m|
    requires 0 !in s
    ensures CStrAt(WriteSpec(m, addr, s + [0]), addr) == Some(s)
  {
    var m' := WriteSpec(m, addr, s + [0]);
    assert m'[addr..addr + |s|] == s by {
      assert ReadSpec(m', addr, |s + [0]|) == Some(s + [0]);
    }
    assert m'[addr + |s|] == 0 by {
      assert ReadSpec(m', addr, |s + [0]|) == Some(s + [0]);
    }
    CStrAtIff(m', addr, s);
  }

  class Instance {
    /** The linear memory behind the `memory` export. */
    const memory: array<Byte>
    const hasMemory: bool
    const hasMalloc: bool
    const hasFree: bool
    /** Sizes passed to the guest's `malloc`, in call order. */
    var mallocRequests: seq<Int32>
    /**
     * Addresses passed to the guest's `free`, in call order: one entry per
     * attempt while a `free` export exists, the failing attempt included.
     * A failed `typed::<i32, ()>` signature check is logged too, although
     * `free` is then never entered; the reply does not tell it from a trap.
     */
    var freed: seq<Int32>

    /** Addresses in a 32-bit Wasm memory below 2 GiB are non-negative i32 values. */
    ghost predicate Valid()
      reads this
    {
      memory.Length < TWO_31
    }

    constructor (image: seq<Byte>, hasMemory: bool, hasMalloc: bool, hasFree: bool)
      requires |image| < TWO_31
      ensures Valid()
      ensures fresh(memory) && memory[..] == image
      ensures this.hasMemory == hasMemory && this.hasMalloc == hasMalloc && this.hasFree == hasFree
      ensures mallocRequests == [] && freed == []
    {
      memory := new Byte[|image|](i requires 0 <= i < |image| => image[i]);
      this.hasMemory := hasMemory;
      this.hasMalloc := hasMalloc;
      this.hasFree := hasFree;
      mallocRequests := [];
      freed := [];
    }

    /** `malloc`: call the guest's allocator for `len` bytes (`len as i32`). */
    method Malloc(len: nat, reply: Result<Int32>) returns (r: Result<Int32>)
      modifies this`mallocRequests
      ensures !hasMalloc ==> r == Fail(Error(GuestError, MALLOC_MISSING)) && mallocRequests == old(mallocRequests)
      ensures hasMalloc ==> r == reply && mallocRequests == old(mallocRequests) + [UsizeAsI32(len)]
    {
      if !hasMalloc {
        return Fail(Error(GuestError, MALLOC_MISSING));
      }
      mallocRequests := mallocRequests + [UsizeAsI32(len)];
      r := reply;
    }

    /**
     * `free`: hand `addr` back to the guest's allocator. `reply` is what the
     * typed call answers: an error when the export does not have the
     * `i32 -> ()` signature or the guest's `free` traps.
     */
    method Free(addr: Int32, reply: Result<()>) returns (r: Result<()>)
      modifies this`freed
      ensures !hasFree ==> r == Fail(Error(GuestError, FREE_MISSING)) && freed == old(freed)
      ensures hasFree ==> r == reply && freed == old(freed) + [addr]
    {
      if !hasFree {
        return Fail(Error(GuestError, FREE_MISSING));
      }
      freed := freed + [addr];
      r := reply;
    }

    /** `write`: copy `bytes` into memory at `addr`. */
    method Write(addr: int, bytes: seq<Byte>) returns (r: Result<()>)
      modifies memory
      ensures !hasMemory ==> r == Fail(Error(GuestError, MEMORY_MISSING)) && memory[..] == old(memory[..])
      ensures hasMemory && !(0 <= addr && addr + |bytes| <= memory.Length) ==>
        r == Fail(Error(GuestError, WRITE_FAILED)) && memory[..] == old(memory[..])
      ensures hasMemory && 0 <= addr && addr + |bytes| <= memory.Length ==>
        r == Ok(()) && memory[..] == WriteSpec(old(memory[..]), addr, bytes)
    {
      if !hasMemory {
        return Fail(Error(GuestError, MEMORY_MISSING));
      }
      if !(0 <= addr && addr + |bytes| <= memory.Length) {
        return Fail(Error(GuestError, WRITE_FAILED));
      }
      forall k | 0 <= k < |bytes| {
        memory[addr + k] := bytes[k];
      }
      assert memory[..] == WriteSpec(old(memory[..]), addr, bytes);
      r := Ok(());
    }

    /** `read`: the `n` bytes at `addr`. */
    method Read(addr: int, n: nat) returns (r: Result<seq<Byte>>)
      ensures !hasMemory ==> r == Fail(Error(GuestError, MEMORY_MISSING))
      ensures hasMemory ==> r == match ReadSpec(memory[..], addr, n)
        case Some(b) => Ok(b)
        case None => Fail(Error(GuestError, READ_FAILED))
    {
      if !hasMemory {
        return Fail(Error(GuestError, MEMORY_MISSING));
      }
      if !(0 <= addr && addr + n <= memory.Length) {
        return Fail(Error(GuestError, READ_FAILED));
      }
      r := Ok(memory[addr..addr + n]);
    }

    /**
     * `read_cstr`: read one byte at a time from `addr`, collecting bytes up to
     * the first 0. The `CString::new` at the end cannot fail, since no
     * collected byte is 0.
     */
    method ReadCStr(addr: Int32) returns (r: Result<seq<Byte>>)
      requires Valid()
      ensures !hasMemory ==> r == Fail(Error(GuestError, MEMORY_MISSING))
      ensures hasMemory ==> r == match CStrAt(memory[..], addr)
        case Some(s) => Ok(s)
        case None => Fail(Error(GuestError, READ_FAILED))
    {
      if !hasMemory {
        return Fail(Error(GuestError, MEMORY_MISSING));
      }
      var cur: int := addr;
      var str: seq<Byte> := [];
      ghost var whole := CStrAt(memory[..], addr);
      if whole.Some? {
        assert [] + whole.value == whole.value;
      }
      while true
        invariant addr <= cur
        invariant cur - addr == |str|
        invariant 0 <= addr <= memory.Length ==> cur <= memory.Length && memory[addr..cur] == str && 0 !in str
        invariant !(0 <= addr <= memory.Length) ==> cur == addr && str == []
        invariant CStrAt(memory[..], addr) == Prepend(str, CStrAt(memory[..], cur))
        decreases memory.Length - cur
      {
        if !(0 <= cur < memory.Length) {
          return Fail(Error(GuestError, READ_FAILED));
        }
        var byte := memory[cur];
        if byte == 0 {
          assert str + [] == str;
          return Ok(str);
        }
        ghost var t := CStrAt(memory[..], cur + 1);
        assert CStrAt(memory[..], cur) == Prepend([byte], t);
        if t.Some? {
          assert str + ([byte] + t.value) == (str + [byte]) + t.value;
        }
        str := str + [byte];
        cur := cur + 1;
      }
    }
  }
}
