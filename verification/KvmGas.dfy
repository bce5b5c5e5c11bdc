/** Gas arithmetic on 64-bit machine words, memory expansion cost and the gas share of a nested call. */
module KvmGas {
  import opened Basics

  const TWO_64: nat := 0x1_0000_0000_0000_0000
  const TWO_160: nat := 0x1_0000_0000_0000_0000_0000_0000_0000_0000_0000_0000
  const TWO_256: nat := 0x1_0000_0000_0000_0000_0000_0000_0000_0000_0000_0000_0000_0000_0000_0000_0000_0000
  type uint64 = x: nat | x < TWO_64
  type Word = x: nat | x < TWO_256

  const MEMORY_GAS := 3
  const QUAD_COEFF_DIV := 512
  const MAX_MEM := 0x1FFFFFFFE0
  const CALL_STIPEND := 2300
  const CALL_VALUE_TRANSFER_GAS := 9000
  const CALL_NEW_ACCOUNT_GAS := 25000

  // Wrap-around operations and their checked forms.
  function AddU64(a: uint64, b: uint64): uint64 { (a + b) % TWO_64 }
  function SubU64(a: uint64, b: uint64): uint64 { (a - b) % TWO_64 }
  function SafeAdd(a: uint64, b: uint64): Option<uint64> { if a + b < TWO_64 then Some(a + b) else None }
  function SafeMul(a: uint64, b: uint64): Option<uint64> { if a * b < TWO_64 then Some(a * b) else None }

  function ToWordSize(size: uint64): uint64 {
    if size > TWO_64 - 1 - 31 then (TWO_64 - 1) / 32 + 1 else (size + 31) / 32
  }

  /** Memory an access of len bytes at off needs; None if it does not fit 64 bits. */
  function CalcMemSize(off: Word, len: Word): (r: Option<uint64>)
    ensures r.Some? <==> len == 0 || off + len < TWO_64
    ensures r.Some? ==> r.value == if len == 0 then 0 else off + len
  {
    if len >= TWO_64 then None
    else if len == 0 then Some(0)
    else if off >= TWO_64 then None
    else
      var val := AddU64(off, len);
      if val < off then None else Some(val)
  }

  function Max(a: Option<uint64>, b: Option<uint64>): Option<uint64> {
    if a.None? || b.None? then None else if a.value > b.value then a else b
  }

  /** Size rounded up to whole words, in bytes. */
  function RoundedSize(size: uint64): (r: Option<uint64>)
    ensures r.Some? <==> size <= TWO_64 - 32
    ensures r.Some? ==> r.value % 32 == 0 && size <= r.value < size + 32
  {
    SafeMul(ToWordSize(size), 32)
  }

  /** Whole words that hold this many bytes. */
  function Words(size: nat): nat { (size + 31) / 32 }

  lemma NoWrap(x: nat)
    requires x < TWO_64
    ensures x % TWO_64 == x
  {}

  /** The word count comes out right up to the largest machine word. */
  lemma WordSize(size: uint64)
    ensures ToWordSize(size) == Words(size) <= 0x800_0000_0000_0000
    ensures size % 32 == 0 ==> Words(size) == size / 32 && Words(size) * 32 == size
  {}

  // ---------------------------------------------------------------- memory expansion

  /** Total cost of a memory of this many words. */
  function MemCost(words: nat): nat {
    MEMORY_GAS * words + words * words / QUAD_COEFF_DIV
  }

  lemma ProductMono(c: nat, a: nat, b: nat)
    requires a <= b
    ensures c * a <= c * b
  {}

  lemma SquareMono(a: nat, b: nat)
    requires a <= b
    ensures a * a <= b * b
  {
    ProductMono(a, a, b);
    ProductMono(b, a, b);
  }

  lemma MemCostMono(a: nat, b: nat)
    requires a <= b
    ensures MemCost(a) <= MemCost(b)
  {
    SquareMono(a, b);
  }

  /** Fee and new running cost for growing a memory of len bytes, whose cost so far is last, to newSize. */
  function MemoryGasCost(len: nat, last: uint64, newSize: uint64): Option<(uint64, uint64)> {
    if newSize == 0 then Some((0, last))
    else if newSize > MAX_MEM then None
    else
      var words := ToWordSize(newSize);
      if words * 32 > len then
        var square := words * words % TWO_64;
        var total := AddU64(words * MEMORY_GAS % TWO_64, square / QUAD_COEFF_DIV);
        Some((SubU64(total, last), total))
      else Some((0, last))
  }

  /** The memory of a frame: whole words, with the running cost equal to the cost of the size. */
  predicate MemInv(len: nat, last: nat) {
    len % 32 == 0 && len <= MAX_MEM && last == MemCost(len / 32)
  }

  /** The sum of the two parts of a total cost does not wrap. */
  lemma FeeSum(words: nat, square: nat)
    requires words <= 0xFFFF_FFFF && square <= 0xFFFF_FFFE_0000_0001
    ensures AddU64(words * MEMORY_GAS % TWO_64, square % TWO_64 / QUAD_COEFF_DIV) == MEMORY_GAS * words + square / QUAD_COEFF_DIV
    ensures MEMORY_GAS * words + square / QUAD_COEFF_DIV < 0x100_0000_0000_0000
  {
    NoWrap(words * MEMORY_GAS);
    NoWrap(square);
    NoWrap(words * MEMORY_GAS + square / QUAD_COEFF_DIV);
  }

  lemma TotalFee(words: nat)
    requires words <= 0xFFFF_FFFF
    ensures words * words < TWO_64
    ensures AddU64(words * MEMORY_GAS % TWO_64, words * words % TWO_64 / QUAD_COEFF_DIV) == MemCost(words)
    ensures MemCost(words) < 0x100_0000_0000_0000
  {
    SquareMono(words, 0xFFFF_FFFF);
    assert words * words <= 0xFFFF_FFFE_0000_0001;
    FeeSum(words, words * words);
  }

  /** No step wraps: the fee is the difference of the two total costs, and the new running cost is that of the new size. */
  lemma ExpansionTelescopes(len: nat, last: uint64, size: uint64)
    requires MemInv(len, last) && size % 32 == 0
    ensures MemoryGasCost(len, last, size).Some? <==> size <= MAX_MEM
    ensures size <= MAX_MEM ==>
              var (fee, last') := MemoryGasCost(len, last, size).value;
              var len' := if size > len then size else len;
              MemInv(len', last') && fee == last' - last && fee < 0x100_0000_0000_0000
  {
    hide ToWordSize, MemCost, AddU64;
    if 0 < size <= MAX_MEM {
      WordSize(size);
      var words := size / 32;
      assert ToWordSize(size) == words && words * 32 == size;
      TotalFee(words);
      if size > len {
        MemCostMono(len / 32, words);
        NoWrap(MemCost(words) - last);
      }
    }
  }

  // ---------------------------------------------------------------- nested calls

  /** Gas handed to a nested call: the amount asked for, capped at all but one 64th of what is left after base. */
  function CallGas(available: uint64, base: uint64, requested: Word): uint64 {
    var left := SubU64(available, base);
    var gas := left - left / 64;
    if requested >= TWO_64 || gas < requested then gas else requested
  }

  /** Gas left after the dynamic part has been deducted, if it covers it. Earlier rules charge the constant part again. */
  function ChargeDynamic(galaxias: bool, gas: uint64, constant: uint64, dynamic: Option<uint64>): (r: Option<uint64>)
    ensures r.Some? ==> dynamic.Some? && r.value <= gas
    ensures r.Some? && constant == 0 ==> r.value == gas - dynamic.value
  {
    if dynamic.None? then None
    else
      var cost := if galaxias then dynamic.value else AddU64(constant, dynamic.value);
      if gas < cost then None else Some(gas - cost)
  }

  /**
   EIP-150 under wrap-around. The call is paid for exactly when the base cost is covered (and, under the earlier
   rules, the share and the constant again); then nothing wrapped and the callee gets at most all but one 64th.
   */
  lemma CallShare(galaxias: bool, gas: uint64, constant: uint64, base: uint64, requested: Word)
    requires base < 0x200_0000_0000_0000 && constant < 0x1_0000
    ensures
      var share := CallGas(gas, base, requested);
      var left := ChargeDynamic(galaxias, gas, constant, SafeAdd(base, share));
      && (left.Some? <==> base <= gas && (galaxias || constant + base + share <= gas))
      && (left.Some? ==> && share <= (gas - base) - (gas - base) / 64
                         && share <= requested
                         && left.value == gas - base - share - (if galaxias then 0 else constant))
  {
    var share := CallGas(gas, base, requested);
    if gas < base {
      var left := SubU64(gas, base);
      assert left == TWO_64 + gas - base;
      assert share <= left - left / 64;
      assert base + share + constant < TWO_64;
    } else {
      assert SubU64(gas, base) == gas - base;
    }
  }

  /** Whatever is left, even after wrapping around, a base cost and the share fit a machine word. */
  lemma ShareBound(available: uint64, base: uint64, requested: Word)
    requires base < 0x200_0000_0000_0000
    ensures base + CallGas(available, base, requested) < TWO_64
  {}

  /** Other dynamic charges never wrap either, when they are far below 2^64. */
  lemma PlainCharge(galaxias: bool, gas: uint64, constant: uint64, dynamic: uint64)
    requires dynamic < 0x8000_0000_0000_0000 && constant < 0x1_0000
    ensures
      var left := ChargeDynamic(galaxias, gas, constant, Some(dynamic));
      && (left.Some? <==> dynamic + (if galaxias then 0 else constant) <= gas)
      && (left.Some? ==> left.value == gas - dynamic - (if galaxias then 0 else constant))
  {}
}
