/** One call frame: program counter, stack, memory, gas, and the instructions that touch nothing else. */
module KvmFrame {
  import opened Basics
  import opened KvmGas
  import opened KvmCode
  import opened KvmWorld
  import opened KvmTable

  // ---------------------------------------------------------------- words and bytes

  function FromBytes(bs: seq<byte>): nat
    decreases |bs|
  {
    if bs == [] then 0 else FromBytes(bs[..|bs| - 1]) * 256 + bs[|bs| - 1]
  }

  function ToBytes(v: nat, n: nat): (bs: seq<byte>)
    ensures |bs| == n
  {
    if n == 0 then [] else ToBytes(v / 256, n - 1) + [v % 256]
  }

  function Pow256(n: nat): nat { if n == 0 then 1 else 256 * Pow256(n - 1) }

  lemma {:induction false} PowAdd(a: nat, b: nat)
    ensures Pow256(a + b) == Pow256(a) * Pow256(b) && Pow256(1) == 256
  {
    if a > 0 { PowAdd(a - 1, b); }
  }

  lemma PowerOfWord()
    ensures Pow256(32) == TWO_256
  {
    PowAdd(1, 1); PowAdd(2, 2); PowAdd(4, 4); PowAdd(8, 8); PowAdd(16, 16);
    hide Pow256;
  }

  /** Big-endian bytes read as a word; only the last 32 bytes matter. */
  function WordOf(bs: seq<byte>): Word { FromBytes(bs) % TWO_256 }

  lemma OneByte(b: byte)
    ensures WordOf([b]) == b
  {
    assert FromBytes([b][..0]) == 0;
  }

  lemma {:induction false} BytesRoundTrip(v: nat, n: nat)
    requires v < Pow256(n)
    ensures FromBytes(ToBytes(v, n)) == v
  {
    if n > 0 {
      BytesRoundTrip(v / 256, n - 1);
      assert ToBytes(v, n)[..n - 1] == ToBytes(v / 256, n - 1);
    }
  }

  /** Big-endian: the first byte weighs most. */
  lemma {:induction false} FirstByteWeighsMost(b: byte, bs: seq<byte>)
    ensures FromBytes([b] + bs) == b * Pow256(|bs|) + FromBytes(bs)
    decreases |bs|
  {
    var all := [b] + bs;
    if bs == [] {
      assert all[..0] == [];
    } else {
      var n := |bs| - 1;
      assert all[..|all| - 1] == [b] + bs[..n];
      FirstByteWeighsMost(b, bs[..n]);
      Regroup(b, Pow256(n), FromBytes(bs[..n]), bs[n]);
    }
  }

  lemma Regroup(b: int, weight: int, rest: int, last: int)
    ensures (b * weight + rest) * 256 + last == b * (256 * weight) + (rest * 256 + last)
  {}

  function RightPad(bs: seq<byte>, n: nat): (r: seq<byte>)
    ensures |bs| <= n ==> |r| == n
  {
    if n <= |bs| then bs else bs + Zeros(n - |bs|)
  }

  /** size bytes of data from start on, with zeros past the end. */
  function GetData(data: seq<byte>, start: nat, size: nat): (r: seq<byte>)
    ensures |r| == size
    ensures forall i | 0 <= i < size :: r[i] == if start + i < |data| then data[start + i] else 0
  {
    var from := Min(start, |data|);
    var end := Min(from + size, |data|);
    RightPad(data[from..end], size)
  }

  /** The data of a PUSH of n bytes at pc. */
  function PushData(code: seq<byte>, pc: nat, n: nat): seq<byte> {
    var from := Min(pc + 1, |code|);
    RightPad(code[from..Min(from + n, |code|)], n)
  }

  /** The instruction at pc; past its end, code reads as STOP. */
  function OpAt(code: seq<byte>, pc: nat): byte { if pc < |code| then code[pc] else 0 }

  // ---------------------------------------------------------------- stack and memory as values

  function Back(s: seq<Word>, n: nat): Word
    requires n < |s|
  {
    s[|s| - 1 - n]
  }

  function Drop(s: seq<Word>, n: nat): (r: seq<Word>)
    requires n <= |s|
    ensures |r| == |s| - n
  {
    s[..|s| - n]
  }

  function Write(m: seq<byte>, off: nat, bs: seq<byte>): (m': seq<byte>)
    requires off + |bs| <= |m|
    ensures |m'| == |m|
  {
    m[..off] + bs + m[off + |bs|..]
  }

  /** A piece of memory. */
  function Slice(m: seq<byte>, off: Word, size: Word): (r: seq<byte>)
    requires Inside(off, size, |m|)
    ensures |r| == size
  {
    if size == 0 then [] else m[off..off + size]
  }

  /** Memory grown with zeros to hold at least size bytes. */
  function Extended(store: seq<byte>, size: nat): (r: seq<byte>)
    ensures |r| == (if |store| < size then size else |store|) && store <= r
    ensures forall i | |store| <= i < |r| :: r[i] == 0
  {
    if |store| < size then store + Zeros(size - |store|) else store
  }

  /** The top word and the one n below it have changed places. */
  predicate Swapped(s: seq<Word>, s': seq<Word>, n: nat)
    requires n < |s|
  {
    && |s'| == |s| && Back(s', 0) == Back(s, n) && Back(s', n) == Back(s, 0)
    && forall i | 0 < i < |s| && i != n :: Back(s', i) == Back(s, i)
  }

  function Exchanged(s: seq<Word>, n: nat): (s': seq<Word>)
    requires n < |s|
    ensures Swapped(s, s', n)
  {
    s[|s| - 1 - n := Back(s, 0)][|s| - 1 := Back(s, n)]
  }

  /** Memory with len bytes of data from a position on, and zeros past its end, copied to off. */
  function Copied(m: seq<byte>, off: Word, from: Word, len: Word, data: seq<byte>): (m': seq<byte>)
    requires Inside(off, len, |m|)
    ensures |m'| == |m|
  {
    if len == 0 then m else Write(m, off, GetData(data, Min(from, TWO_64 - 1), len))
  }

  /** The part asked for lies in the return data, and its end in a machine word. */
  predicate Within(from: Word, len: Word, data: seq<byte>) { from < TWO_64 && from + len < TWO_64 && from + len <= |data| }

  predicate Inside(off: Word, len: Word, size: nat) { len == 0 || off + len <= size }

  /** Everything an area names lies inside a memory of this size. */
  predicate Covered(a: Area, s: seq<Word>, size: nat)
    requires AreaArgs(a) <= |s|
  {
    match a
    case NoMemory => true
    case Fixed(off, len) => Back(s, off) + len <= size
    case Range(off, len) => Inside(Back(s, off), Back(s, len), size)
    case Ranges(o, l, o', l') => Inside(Back(s, o), Back(s, l), size) && Inside(Back(s, o'), Back(s, l'), size)
  }

  /** Memory size an operation asks for; None on overflow. */
  function MemorySize(a: Area, s: seq<Word>): Option<uint64>
    requires AreaArgs(a) <= |s|
  {
    match a
    case NoMemory => Some(0)
    case Fixed(off, len) => CalcMemSize(Back(s, off), len % TWO_256)
    case Range(off, len) => CalcMemSize(Back(s, off), Back(s, len))
    case Ranges(o, l, o', l') => Max(CalcMemSize(Back(s, o'), Back(s, l')), CalcMemSize(Back(s, o), Back(s, l)))
  }

  /** A memory of the size asked for covers everything the routine touches. */
  lemma SizeCovers(e: Exec, s: seq<Word>, size: nat)
    requires AreaArgs(Touches(e)) <= |s|
    requires MemorySize(Touches(e), s).Some? && MemorySize(Touches(e), s).value <= size
    ensures Covered(Touches(e), s, size)
  {}

  /** A 32-byte store followed by a load of the same place gives the word back. */
  lemma StoreThenLoad(m: seq<byte>, off: nat, v: Word)
    requires off + 32 <= |m|
    ensures WordOf(Write(m, off, ToBytes(v, 32))[off..off + 32]) == v
  {
    var bs := ToBytes(v, 32);
    assert Write(m, off, bs)[off..off + 32] == bs;
    PowerOfWord();
    BytesRoundTrip(v, 32);
  }

  /**
   Return data that shares its bytes with memory, as the identity contract's does: it reads as it did when the call
   returned exactly if the write puts no other byte than was there into the part they share.
   */
  lemma SharedReturnData(m: seq<byte>, from: nat, len: nat, off: nat, bs: seq<byte>)
    requires from + len <= |m| && off + |bs| <= |m|
    ensures Write(m, off, bs)[from..from + len] == m[from..from + len] <==>
              forall i | 0 <= i < |bs| && from <= off + i < from + len :: bs[i] == m[off + i]
  {
    var m' := Write(m, off, bs);
    assert forall i | 0 <= i < |m| :: m'[i] == if off <= i < off + |bs| then bs[i - off] else m[i];
    if m'[from..from + len] == m[from..from + len] {
      forall i | 0 <= i < |bs| && from <= off + i < from + len ensures bs[i] == m[off + i] {
        assert m'[from..from + len][off + i - from] == m[from..from + len][off + i - from];
      }
    }
  }

  /** A call of the identity contract on one byte of memory, then a store over it: the return data has changed. */
  lemma ReturnDataChanges()
    ensures var m := Zeros(32); Write(m, 0, [1])[0..1] != m[0..1]
  {
    SharedReturnData(Zeros(32), 0, 1, 0, [1]);
    assert Zeros(32)[0] == 0;
  }

  // ---------------------------------------------------------------- jump analysis cache

  /** Code hashes are taken to be free of collisions; Unset is the zero hash of code that has not been hashed. */
  datatype CodeHash = Unset | Keccak(code: seq<byte>)

  class JumpCache {
    var bits: map<CodeHash, seq<bv8>>

    /** Every cached analysis is the analysis of the code its hash names. */
    ghost predicate Valid()
      reads this
    {
      forall h | h in bits :: h.Keccak? && Analysis(h.code, bits[h])
    }

    constructor ()
      ensures Valid() && bits == map[]
    {
      bits := map[];
    }
  }

  // ---------------------------------------------------------------- frames

  datatype Error =
    | ErrOutOfGas | ErrCodeStoreOutOfGas | ErrDepth | ErrInsufficientBalance | ErrContractAddressCollision
    | ErrExecutionReverted | ErrMaxCodeSizeExceeded | ErrInvalidJump | ErrWriteProtection | ErrReturnDataOutOfBounds
    | ErrGasUintOverflow | ErrStackUnderflow | ErrStackOverflow | ErrInvalidOpCode | ErrPrecompile

  class Scope {
    const code: seq<byte>
    const codeHash: CodeHash
    const self: Address
    const caller: Address
    const value: nat
    const input: seq<byte>
    const jumpdests: JumpCache

    var pc: nat
    var stack: seq<Word>
    var store: seq<byte>
    var lastGasCost: uint64
    ghost var feesPaid: nat
    var gas: uint64
    var analysis: Option<seq<bv8>>

    ghost predicate Valid()
      reads this`analysis
    {
      && (codeHash == Unset || codeHash == Keccak(code))
      && (analysis.Some? ==> Analysis(code, analysis.value))
    }

    /** All the fees paid for memory so far come to the cost of the memory there is. */
    ghost predicate MemPaid()
      reads this`store, this`lastGasCost, this`feesPaid
    {
      MemInv(|store|, lastGasCost) && feesPaid == lastGasCost
    }

    /** Holds whenever the interpreter is about to fetch an instruction. */
    ghost predicate AtHead()
      reads this`pc, this`stack, this`store, this`lastGasCost, this`feesPaid
    {
      && |stack| <= STACK_LIMIT
      && MemPaid()
      && (pc >= |code| || IsStart(code, pc))
    }

    constructor (code: seq<byte>, codeHash: CodeHash, self: Address, caller: Address, value: nat, input: seq<byte>,
                 jumpdests: JumpCache, gas: uint64)
      requires jumpdests.Valid() && (codeHash == Unset || codeHash == Keccak(code))
      ensures Valid() && jumpdests.Valid() && AtHead() && this.gas == gas && this.jumpdests == jumpdests
      ensures pc == 0 && stack == [] && store == []
      ensures this.code == code && this.self == self && this.caller == caller && this.value == value && this.input == input
    {
      this.code, this.codeHash, this.self, this.caller := code, codeHash, self, caller;
      this.value, this.input, this.jumpdests, this.gas := value, input, jumpdests, gas;
      pc, stack, store, lastGasCost, feesPaid, analysis := 0, [], [], 0, 0, None;
      new;
      assert Sweep(code, 0, 0);
    }

    method UseGas(amount: uint64) returns (ok: bool)
      modifies this`gas
      ensures ok <==> amount <= old(gas)
      ensures gas == if ok then old(gas) - amount else old(gas)
    {
      if gas < amount { return false; }
      gas := gas - amount;
      return true;
    }

    method Resize(size: nat)
      modifies this`store
      ensures store == Extended(old(store), size)
    {
      if |store| < size { store := store + Zeros(size - |store|); }
    }

    function GetOp(n: nat): byte
    {
      OpAt(code, n)
    }

    // -------------------------------------------------------------- memory access

    /** A slice of memory; asking for one outside would stop the program. */
    function GetPtr(off: Word, size: Word): (r: seq<byte>)
      requires Inside(off, size, |store|)
      reads this
      ensures r == Slice(store, off, size)
    {
      if size == 0 then [] else store[off..off + size]
    }

    method Set(off: Word, size: Word, value: seq<byte>)
      requires Inside(off, size, |store|)
      modifies this`store
      ensures size == 0 ==> store == old(store)
      ensures size > 0 ==> store == Write(old(store), off, value[..Min(size, |value|)])
      ensures |store| == |old(store)|
    {
      if size > 0 {
        store := Write(store, off, value[..Min(size, |value|)]);
      }
    }

    // -------------------------------------------------------------- stack instructions

    method PushWord(w: Word)
      modifies this`stack
      ensures stack == old(stack) + [w]
    {
      stack := stack + [w];
    }

    method ReplaceTop(n: nat, w: Word)
      requires n <= |stack|
      modifies this`stack
      ensures stack == Drop(old(stack), n) + [w]
    {
      stack := Drop(stack, n) + [w];
    }

    method OpPop()
      requires |stack| >= 1
      modifies this`stack
      ensures stack == Drop(old(stack), 1)
    {
      stack := Drop(stack, 1);
    }

    method OpDup(n: nat)
      requires 1 <= n <= |stack|
      modifies this`stack
      ensures stack == old(stack) + [Back(old(stack), n - 1)]
    {
      stack := stack + [stack[|stack| - n]];
    }

    method OpSwap(n: nat)
      requires n + 1 <= |stack|
      modifies this`stack
      ensures stack == Exchanged(old(stack), n)
    {
      var size := n + 1;
      var x, y := stack[|stack| - size], stack[|stack| - 1];
      stack := stack[|stack| - size := y][|stack| - 1 := x];
    }

    /** The one-byte form reads its byte directly. */
    method OpPush1()
      modifies this`stack, this`pc
      ensures stack == old(stack) + [WordOf(PushData(code, old(pc), 1))] && pc == old(pc) + 1
    {
      ghost var data := PushData(code, pc, 1);
      assert data == [if pc + 1 < |code| then code[pc + 1] else 0];
      assert WordOf(data) == data[0] by { OneByte(data[0]); }
      hide PushData, WordOf;
      pc := pc + 1;
      if pc < |code| {
        stack := stack + [code[pc]];
      } else {
        stack := stack + [0];
      }
    }

    method OpPush(size: nat)
      modifies this`stack, this`pc
      ensures stack == old(stack) + [WordOf(PushData(code, old(pc), size))] && pc == old(pc) + size
    {
      var startMin := |code|;
      if pc + 1 < startMin { startMin := pc + 1; }
      var endMin := |code|;
      if startMin + size < endMin { endMin := startMin + size; }
      stack := stack + [WordOf(RightPad(code[startMin..endMin], size))];
      pc := pc + size;
    }

    // -------------------------------------------------------------- jumps

    /** Whether an instruction starts at the position, from the analysis cached under the code's hash or kept here. */
    method IsCode(udest: nat) returns (b: bool)
      requires Valid() && jumpdests.Valid() && udest < |code|
      modifies this`analysis, jumpdests
      ensures Valid() && jumpdests.Valid() && (b <==> IsStart(code, udest))
    {
      if codeHash != Unset {
        var bits: seq<bv8>;
        if codeHash in jumpdests.bits {
          bits := jumpdests.bits[codeHash];
        } else {
          var bitmap := CodeBitmap(code);
          bits := bitmap[..];
          jumpdests.bits := jumpdests.bits[codeHash := bits];
        }
        analysis := Some(bits);
        return !IsSet(bits, udest);
      }
      if analysis.None? {
        var bitmap := CodeBitmap(code);
        analysis := Some(bitmap[..]);
      }
      return !IsSet(analysis.value, udest);
    }

    /** A destination is valid exactly when a JUMPDEST instruction, and not PUSH data, is there. */
    method ValidJumpdest(dest: Word) returns (b: bool)
      requires Valid() && jumpdests.Valid()
      modifies this`analysis, jumpdests
      ensures Valid() && jumpdests.Valid()
      ensures b <==> ValidDest(code, dest)
    {
      if dest >= |code| { return false; }
      if code[dest] != JUMPDEST { return false; }
      b := IsCode(dest);
    }

    method OpJump() returns (err: Option<Error>)
      requires Valid() && jumpdests.Valid() && |stack| >= 1
      modifies this`stack, this`pc, this`analysis, jumpdests
      ensures Valid() && jumpdests.Valid() && stack == Drop(old(stack), 1)
      ensures err == if ValidDest(code, Back(old(stack), 0)) then None else Some(ErrInvalidJump)
      ensures pc == if err.None? then Back(old(stack), 0) else old(pc)
    {
      var pos := Back(stack, 0);
      stack := Drop(stack, 1);
      var ok := ValidJumpdest(pos);
      if !ok { return Some(ErrInvalidJump); }
      pc := pos;
      return None;
    }

    method OpJumpi() returns (err: Option<Error>)
      requires Valid() && jumpdests.Valid() && |stack| >= 2
      modifies this`stack, this`pc, this`analysis, jumpdests
      ensures Valid() && jumpdests.Valid() && stack == Drop(old(stack), 2)
      ensures err == if Back(old(stack), 1) == 0 || ValidDest(code, Back(old(stack), 0)) then None else Some(ErrInvalidJump)
      ensures pc == if err.Some? then old(pc) else if Back(old(stack), 1) == 0 then old(pc) + 1 else Back(old(stack), 0)
    {
      var pos, cond := Back(stack, 0), Back(stack, 1);
      stack := Drop(stack, 2);
      if cond != 0 {
        var ok := ValidJumpdest(pos);
        if !ok { return Some(ErrInvalidJump); }
        pc := pos;
      } else {
        pc := pc + 1;
      }
      return None;
    }

    // -------------------------------------------------------------- memory instructions

    function Loaded(off: Word): Word
      requires off + 32 <= |store|
      reads this`store
    {
      WordOf(store[off..off + 32])
    }

    method OpMload()
      requires |stack| >= 1 && Covered(Touches(MLoad), stack, |store|)
      modifies this`stack
      ensures stack == Drop(old(stack), 1) + [Loaded(Back(old(stack), 0))]
    {
      stack := Drop(stack, 1) + [WordOf(GetPtr(Back(stack, 0), 32))];
    }

    method OpMstore()
      requires |stack| >= 2 && Covered(Touches(MStore), stack, |store|)
      modifies this`stack, this`store
      ensures stack == Drop(old(stack), 2)
      ensures store == Write(old(store), Back(old(stack), 0), ToBytes(Back(old(stack), 1), 32))
    {
      var mStart, val := Back(stack, 0), Back(stack, 1);
      stack := Drop(stack, 2);
      store := Write(store, mStart, ToBytes(val, 32));
    }

    method OpMstore8()
      requires |stack| >= 2 && Covered(Touches(MStore8), stack, |store|)
      modifies this`stack, this`store
      ensures stack == Drop(old(stack), 2)
      ensures store == old(store)[Back(old(stack), 0) := Back(old(stack), 1) % 256]
    {
      var off, val := Back(stack, 0), Back(stack, 1);
      stack := Drop(stack, 2);
      store := store[off := val % 256];
    }

    /** Copies data into memory, with zeros past its end: calldata, own code, and after one more pop another account's code. */
    method OpDataCopy(data: seq<byte>)
      requires |stack| >= 3 && Covered(Range(0, 2), stack, |store|)
      modifies this`stack, this`store
      ensures stack == Drop(old(stack), 3)
      ensures store == Copied(old(store), Back(old(stack), 0), Back(old(stack), 1), Back(old(stack), 2), data)
    {
      var off, from, len := Back(stack, 0), Back(stack, 1), Back(stack, 2);
      stack := Drop(stack, 3);
      var from64 := if from >= TWO_64 then TWO_64 - 1 else from;
      var bytes := GetData(data, from64, len);
      assert bytes[..Min(len, |bytes|)] == bytes;
      Set(off, len, bytes);
    }

    /** Copies a part of the last call's result; asking for bytes it does not have is an error. */
    method OpReturnDataCopy(data: seq<byte>) returns (err: Option<Error>)
      requires |stack| >= 3 && Covered(Range(0, 2), stack, |store|) && |store| < TWO_64
      modifies this`stack, this`store
      ensures stack == Drop(old(stack), 3) && |store| == |old(store)|
      ensures var (off, from, len) := (Back(old(stack), 0), Back(old(stack), 1), Back(old(stack), 2));
              && err == (if Within(from, len, data) then None else Some(ErrReturnDataOutOfBounds))
              && store == if err.None? then Copied(old(store), off, from, len, data) else old(store)
    {
      hide Write;
      var off, from, len := Back(stack, 0), Back(stack, 1), Back(stack, 2);
      assert len <= |store| < TWO_64;
      stack := Drop(stack, 3);
      if from >= TWO_64 { return Some(ErrReturnDataOutOfBounds); }
      var end := (from + len) % TWO_256;
      assert end == from + len;
      if end >= TWO_64 || |data| < end { return Some(ErrReturnDataOutOfBounds); }
      var part := data[from..end];
      assert part[..Min(len, |part|)] == part == GetData(data, from, len);
      Set(off, len, part);
      return None;
    }

    /** Takes a nested call's outcome: a flag on the stack, its result in memory, its leftover gas. */
    method Resume(ok: bool, copies: bool, retOffset: Word, retSize: Word, ret: seq<byte>, left: uint64)
      requires Inside(retOffset, retSize, |store|) && gas + left < TWO_64
      modifies this`stack, this`store, this`gas
      ensures stack == old(stack) + [if ok then 1 else 0] && gas == old(gas) + left && |store| == |old(store)|
      ensures store == if copies && retSize > 0 then Write(old(store), retOffset, ret[..Min(retSize, |ret|)]) else old(store)
    {
      PushWord(if ok then 1 else 0);
      if copies { Set(retOffset, retSize, ret); }
      gas := gas + left;
    }
  }
}
