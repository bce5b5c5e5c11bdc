/** Where instructions start in a contract's code, and the bitmap analysis that jump checks use. */
module KvmCode {
  import opened Basics

  const PUSH1: int := 0x60
  const PUSH32: int := 0x7f
  const JUMPDEST: int := 0x5b

  /** Number of data bytes that follow an opcode. */
  function PushLen(op: byte): nat {
    if PUSH1 <= op <= PUSH32 then op - PUSH1 + 1 else 0
  }

  function NextPc(code: seq<byte>, pc: nat): nat
    requires pc < |code|
  {
    pc + 1 + PushLen(code[pc])
  }

  /** Reading instructions one after the other from `from` reaches p. */
  predicate Sweep(code: seq<byte>, from: nat, p: nat)
    decreases p - from
  {
    if from >= p then from == p
    else from < |code| && Sweep(code, NextPc(code, from), p)
  }

  /** An instruction starts at p; other positions inside the code hold the data of a PUSH. */
  predicate IsStart(code: seq<byte>, p: nat) {
    Sweep(code, 0, p)
  }

  lemma {:induction false} SweepExtends(code: seq<byte>, from: nat, p: nat)
    requires Sweep(code, from, p) && p < |code|
    ensures Sweep(code, from, NextPc(code, p))
    ensures forall q | p < q < NextPc(code, p) :: !Sweep(code, from, q)
    decreases p - from
  {
    if from < p {
      SweepExtends(code, NextPc(code, from), p);
    } else {
      assert forall q | p < q < NextPc(code, p) :: !Sweep(code, NextPc(code, p), q);
    }
  }

  /** A JUMPDEST instruction, and not PUSH data, is at dest. */
  predicate ValidDest(code: seq<byte>, dest: nat) {
    dest < |code| && code[dest] == JUMPDEST && IsStart(code, dest)
  }

  // ---------------------------------------------------------------- bit vectors

  function Mask(k: nat): bv8
    requires k < 8
  {
    0x80 >> k
  }

  predicate HasBit(b: bv8, k: nat)
    requires k < 8
  {
    b & Mask(k) != 0
  }

  /** The bit of position pos is set: the byte there is data. */
  predicate IsSet(bits: seq<bv8>, pos: nat)
    requires pos / 8 < |bits|
  {
    HasBit(bits[pos / 8], pos % 8)
  }

  lemma OrMask(b: bv8, k: nat, j: nat)
    requires k < 8 && j < 8
    ensures HasBit(b | (0x80 >> k), j) <==> j == k || HasBit(b, j)
  {}

  lemma OrLow(b: bv8, k: nat, j: nat)
    requires k < 8 && j < 8
    ensures HasBit(b | (0xFF >> k), j) <==> k <= j || HasBit(b, j)
  {}

  lemma OrHigh(b: bv8, k: nat, j: nat)
    requires k < 8 && j < 8
    ensures HasBit(b | !(0xFF >> k), j) <==> j < k || HasBit(b, j)
  {}

  method SetBit(bits: array<bv8>, pos: nat)
    requires pos / 8 < bits.Length
    modifies bits
    ensures forall p: nat | p / 8 < bits.Length :: IsSet(bits[..], p) <==> p == pos || old(IsSet(bits[..], p))
  {
    hide HasBit;
    bits[pos / 8] := bits[pos / 8] | (0x80 >> (pos % 8));
    forall p: nat | p / 8 < bits.Length ensures IsSet(bits[..], p) <==> p == pos || old(IsSet(bits[..], p)) {
      OrMask(old(bits[pos / 8]), pos % 8, p % 8);
    }
  }

  /** Sets the eight bits from pos on, in two byte updates. */
  method SetEight(bits: array<bv8>, pos: nat)
    requires pos / 8 + 1 < bits.Length
    modifies bits
    ensures forall p: nat | p / 8 < bits.Length :: IsSet(bits[..], p) <==> pos <= p < pos + 8 || old(IsSet(bits[..], p))
  {
    hide HasBit;
    bits[pos / 8] := bits[pos / 8] | (0xFF >> (pos % 8));
    bits[pos / 8 + 1] := bits[pos / 8 + 1] | !(0xFF >> (pos % 8));
    forall p: nat | p / 8 < bits.Length ensures IsSet(bits[..], p) <==> pos <= p < pos + 8 || old(IsSet(bits[..], p)) {
      EightFrom(pos, p);
      OrLow(old(bits[pos / 8]), pos % 8, p % 8);
      OrHigh(old(bits[pos / 8 + 1]), pos % 8, p % 8);
    }
  }

  /** Which bits of which bytes the eight positions from pos on are. */
  lemma EightFrom(pos: nat, p: nat)
    ensures pos <= p < pos + 8 <==> (p / 8 == pos / 8 && pos % 8 <= p % 8) || (p / 8 == pos / 8 + 1 && p % 8 < pos % 8)
  {}

  /** Sets n bits from pos on, eight at a time while there are eight. */
  method SetRange(bits: array<bv8>, pos: nat, n: nat)
    requires (pos + n) / 8 < bits.Length
    modifies bits
    ensures forall p: nat | p / 8 < bits.Length :: IsSet(bits[..], p) <==> pos <= p < pos + n || old(IsSet(bits[..], p))
  {
    hide HasBit, IsSet;
    var pc, numbits := pos, n;
    while numbits >= 8
      invariant pc + numbits == pos + n && pos <= pc
      invariant forall p: nat | p / 8 < bits.Length :: IsSet(bits[..], p) <==> pos <= p < pc || old(IsSet(bits[..], p))
    {
      SetEight(bits, pc);
      pc := pc + 8;
      numbits := numbits - 8;
    }
    while numbits > 0
      invariant pc + numbits == pos + n && pos <= pc
      invariant forall p: nat | p / 8 < bits.Length :: IsSet(bits[..], p) <==> pos <= p < pc || old(IsSet(bits[..], p))
    {
      SetBit(bits, pc);
      pc := pc + 1;
      numbits := numbits - 1;
    }
  }

  /** bits marks exactly the positions of the code that no instruction starts at. */
  ghost predicate Analysis(code: seq<byte>, bits: seq<bv8>) {
    && |code| / 8 < |bits|
    && forall p | 0 <= p < |code| :: IsSet(bits, p) <==> !IsStart(code, p)
  }

  ghost predicate Marked(code: seq<byte>, bits: seq<bv8>, pc: nat) {
    forall p: nat | p / 8 < |bits| :: IsSet(bits, p) <==> p < pc && !IsStart(code, p)
  }

  /** The eight-at-a-time analysis marks what the one-instruction-at-a-time sweep skips, and stays inside its buffer. */
  method CodeBitmap(code: seq<byte>) returns (bits: array<bv8>)
    ensures fresh(bits) && bits.Length == |code| / 8 + 5
    ensures Analysis(code, bits[..])
  {
    bits := new bv8[|code| / 8 + 1 + 4](i => 0);
    var pc := 0;
    while pc < |code|
      invariant IsStart(code, pc)
      invariant Marked(code, bits[..], pc)
    {
      SweepExtends(code, 0, pc);
      hide Sweep, IsSet;
      var op := code[pc];
      if PUSH1 <= op <= PUSH32 {
        var numbits := op - PUSH1 + 1;
        SetRange(bits, pc + 1, numbits);
        pc := pc + 1 + numbits;
      } else {
        pc := pc + 1;
      }
    }
  }
}
