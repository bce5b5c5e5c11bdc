/** What instructions cost, in unbounded arithmetic: the reference the machine-word gas functions are held against. */
module KvmPrice {
  import opened Basics
  import opened KvmGas
  import opened KvmWorld
  import opened KvmTable
  import opened KvmFrame

  function ToAddress(w: Word): Address { w % TWO_160 }

  function Larger(a: nat, b: nat): nat { if a < b then b else a }

  function ByteLen(v: nat): nat { if v == 0 then 0 else 1 + ByteLen(v / 256) }

  /** The bytes a number takes are the fewest it fits in. */
  lemma {:induction false} ByteLenBound(v: nat, n: nat)
    ensures ByteLen(v) <= n <==> v < Pow256(n)
  {
    PowPositive(n);
    if v > 0 && n > 0 { ByteLenBound(v / 256, n - 1); }
  }

  lemma PowPositive(n: nat)
    ensures Pow256(n) >= 1
  {}

  // ---------------------------------------------------------------- memory

  /** Memory size an instruction asks for, in whole words. */
  function WantedSize(a: Area, s: seq<Word>): Option<uint64>
    requires AreaArgs(a) <= |s|
  {
    var size := MemorySize(a, s);
    if size.None? then None else RoundedSize(size.value)
  }

  lemma WantedCovers(e: Exec, s: seq<Word>, size: nat)
    requires AreaArgs(Touches(e)) <= |s|
    requires WantedSize(Touches(e), s).Some? && WantedSize(Touches(e), s).value <= size
    ensures Covered(Touches(e), s, size) && WantedSize(Touches(e), s).value % 32 == 0
    ensures Touches(e) == NoMemory ==> WantedSize(Touches(e), s).value == 0
  {
    hide Touches, MemorySize, Covered;
    SizeCovers(e, s, size);
    assert MemorySize(NoMemory, s) == Some(0) by { NoSize(s); }
  }

  lemma NoSize(s: seq<Word>)
    ensures MemorySize(NoMemory, s) == Some(0)
  {}

  /** What growing a memory of len bytes to hold size bytes costs. */
  function Growth(len: nat, size: nat): nat {
    MemCostMono(len / 32, Larger(len, size) / 32);
    MemCost(Larger(len, size) / 32) - MemCost(len / 32)
  }

  // ---------------------------------------------------------------- dynamic part

  predicate Nested(d: Dynamic) { d.CallGas? || d.CallCodeGas? || d.DelegateCallGas? }

  /** Whether a nested call moves value. */
  predicate MovesValue(d: Dynamic, s: seq<Word>)
    requires GasArgs(d) <= |s|
  {
    (d.CallGas? || d.CallCodeGas?) && Back(s, 2) != 0
  }

  /** Bytes of data an instruction is charged for. */
  function DataLen(d: Dynamic, s: seq<Word>): nat
    requires GasArgs(d) <= |s|
  {
    match d
    case CopierGas(n) => Back(s, n)
    case Sha3Gas => Back(s, 1)
    case LogGas(_) => Back(s, 1)
    case _ => 0
  }

  /** Price of the dynamic part, without memory growth and without the gas a nested call is given. */
  function Price(d: Dynamic, w: World, self: Address, s: seq<Word>): nat
    requires GasArgs(d) <= |s|
  {
    match d
    case CopierGas(_) => 3 * Words(DataLen(d, s))
    case Sha3Gas => 6 * Words(DataLen(d, s))
    case ExpGas => 10 + 50 * ByteLen(Back(s, 1))
    case LogGas(topics) => 375 + 375 * topics + 8 * DataLen(d, s)
    case SStoreGas => if Slot(Acct(w, self).storage, Back(s, 0)) == 0 && Back(s, 1) != 0 then 20000 else 5000
    case SelfDestructGas => DestructPrice(w, self, ToAddress(Back(s, 0)))
    case CallGas => CallPrice(w, ToAddress(Back(s, 1)), Back(s, 2) != 0)
    case CallCodeGas => if Back(s, 2) != 0 then CALL_VALUE_TRANSFER_GAS else 0
    case _ => 0
  }

  /** Surcharge for paying out to an account that is not there, or is empty and about to get a balance. */
  function DestructPrice(w: World, self: Address, a: Address): nat {
    if a !in w.accounts || (Empty(w, a) && Acct(w, self).balance != 0) then 25000 else 0
  }

  /** Surcharges of a call: value sent, value sent to an empty account, and an account that is not there. */
  function CallPrice(w: World, a: Address, value: bool): nat {
    (if value then CALL_VALUE_TRANSFER_GAS else 0)
    + (if value && Empty(w, a) then CALL_NEW_ACCOUNT_GAS else 0)
    + (if a !in w.accounts then CALL_NEW_ACCOUNT_GAS else 0)
  }

  // ---------------------------------------------------------------- whole instruction

  predicate HasArgs(o: Operation, s: seq<Word>) { AreaArgs(o.memory) <= |s| && GasArgs(o.dynamic) <= |s| }

  /** The gas set aside for a nested call out of what its base cost leaves. */
  function ShareOf(d: Dynamic, s: seq<Word>, base: nat, gas: uint64): nat
    requires GasArgs(d) <= |s| && base <= gas
  {
    if Nested(d) then KvmGas.CallGas(gas, base, Back(s, 0)) else 0
  }

  /** The share out of this much gas once the constant part is paid, where the base cost is covered. */
  function RestShare(d: Dynamic, price: nat, s: seq<Word>, len: nat, size: nat, gas: uint64): nat
    requires GasArgs(d) <= |s|
  {
    var base := Growth(len, size) + price;
    if base <= gas then ShareOf(d, s, base, gas) else 0
  }

  /** The constant part once more, where the earlier rules take it again with the dynamic one. */
  function Again(galaxias: bool, o: Operation): nat { if galaxias || o.dynamic.NoDynamic? then 0 else o.constantGas }

  /** Gas the dynamic part takes of what the constant part left, with a nested call's share; None if it cannot be paid for. */
  function RestCost(galaxias: bool, o: Operation, price: nat, s: seq<Word>, len: nat, size: nat, gas: uint64): Option<nat>
    requires GasArgs(o.dynamic) <= |s|
  {
    var base := Growth(len, size) + price;
    if o.dynamic.NoDynamic? then Some(0)
    else if size > MAX_MEM || base > gas then None
    else
      var total := Again(galaxias, o) + base + ShareOf(o.dynamic, s, base, gas);
      if total > gas then None else Some(total)
  }

  /** All gas an instruction takes in a frame with this memory and gas; None if it cannot be paid for. */
  function Cost(galaxias: bool, o: Operation, price: nat, s: seq<Word>, len: nat, gas: uint64): Option<nat>
    requires HasArgs(o, s)
  {
    var size := WantedSize(o.memory, s);
    if size.None? || gas < o.constantGas then None
    else
      var rest := RestCost(galaxias, o, price, s, len, size.value, gas - o.constantGas);
      if rest.None? then None else Some(o.constantGas + rest.value)
  }

  /** A charge in machine words takes exactly what the price says, and refuses exactly what cannot be paid for. */
  lemma ChargeExact(galaxias: bool, o: Operation, s: seq<Word>, gas: uint64, base: uint64, cost: uint64, share: uint64)
    requires GasArgs(o.dynamic) <= |s| && o.constantGas <= 32000 && base < 0x200_0000_0000_0000 && !o.dynamic.NoDynamic?
    requires if Nested(o.dynamic) then share == KvmGas.CallGas(gas, base, Back(s, 0)) && SafeAdd(base, share) == Some(cost)
             else share == 0 && cost == base
    ensures var left := ChargeDynamic(galaxias, gas, o.constantGas, Some(cost));
            && (left.Some? <==> base <= gas && Again(galaxias, o) + base + ShareOf(o.dynamic, s, base, gas) <= gas)
            && (left.Some? ==> left.value == gas - Again(galaxias, o) - base - share && share <= gas - gas / 64)
  {
    if Nested(o.dynamic) {
      CallShare(galaxias, gas, o.constantGas, base, Back(s, 0));
      hide KvmGas.CallGas, ChargeDynamic;
      if base <= gas { ShareShrinks(base, gas); }
    } else {
      PlainCharge(galaxias, gas, o.constantGas, cost);
    }
  }

  lemma RestExact(galaxias: bool, o: Operation, price: nat, s: seq<Word>, len: nat, size: nat, gas: uint64,
                  base: uint64, cost: uint64, share: uint64)
    requires GasArgs(o.dynamic) <= |s| && o.constantGas <= 32000 && base < 0x200_0000_0000_0000 && !o.dynamic.NoDynamic?
    requires size <= MAX_MEM && base == Growth(len, size) + price
    requires if Nested(o.dynamic) then share == KvmGas.CallGas(gas, base, Back(s, 0)) && SafeAdd(base, share) == Some(cost)
             else share == 0 && cost == base
    ensures var left := ChargeDynamic(galaxias, gas, o.constantGas, Some(cost));
            var due := RestCost(galaxias, o, price, s, len, size, gas);
            && (left.Some? <==> due.Some?)
            && (left.Some? ==> left.value == gas - due.value && left.value + base + share <= gas && share <= gas - gas / 64)
  {
    hide KvmGas.CallGas, ChargeDynamic, Growth, GasArgs, SafeAdd;
    ChargeExact(galaxias, o, s, gas, base, cost, share);
  }

  lemma GrowthIs(len: nat, last: nat, size: nat, last': nat)
    requires MemInv(len, last) && MemInv(Larger(len, size), last')
    ensures last' - last == Growth(len, size) < 0x100_0000_0000_0000
  {
    TotalFee(Larger(len, size) / 32);
    hide MemCost;
  }

  /** Moving value is charged for, and so is everything that has no constant part. */
  lemma PriceAtLeast(d: Dynamic, w: World, self: Address, s: seq<Word>)
    requires GasArgs(d) <= |s|
    ensures MovesValue(d, s) ==> Price(d, w, self, s) >= CALL_VALUE_TRANSFER_GAS
    ensures d.ExpGas? || d.LogGas? || d.SStoreGas? ==> Price(d, w, self, s) > 0
  {
    hide Empty, Acct, Slot, ByteLen;
  }

  lemma ShareShrinks(base: nat, gas: nat)
    requires base <= gas
    ensures (gas - base) - (gas - base) / 64 <= gas - gas / 64
  {}

  /** The data an instruction is charged for lies in the memory it asks for. */
  lemma DataFits(o: Operation, s: seq<Word>)
    requires HasArgs(o, s) && SizesData(o.dynamic, o.memory) && WantedSize(o.memory, s).Some?
    ensures DataLen(o.dynamic, s) <= WantedSize(o.memory, s).value
  {}

  /** Machine words hold every price of an instruction whose memory can be paid for. */
  lemma PriceBound(d: Dynamic, w: World, self: Address, s: seq<Word>)
    requires GasArgs(d) <= |s| && DataLen(d, s) <= MAX_MEM && (d.LogGas? ==> d.topics <= 4)
    ensures Price(d, w, self, s) < 0x100_0000_0000_0000
  {
    PowerOfWord();
    if d.ExpGas? { ByteLenBound(Back(s, 1), 32); }
    hide Pow256, Empty, Acct, Slot;
  }
}
