/** The opcode table read by columns: for each opcode byte, what it runs, needs, leaves and costs. */
module KvmColumns {
  import opened Basics
  import opened KvmGas
  import opened KvmTable

  predicate Defined(galaxias: bool, op: byte) {
    || op <= 0x0b || 0x10 <= op <= 0x1d || op == 0x20
    || 0x30 <= op <= 0x44 || (op == 0x46 && galaxias) || op == 0x47
    || 0x50 <= op <= 0x5b || 0x60 <= op <= 0xa4
    || op in {0xf0, 0xf1, 0xf2, 0xf3, 0xf4, 0xf5, 0xfa, 0xfd, 0xff}
  }

  predicate IsArithmetic(op: byte) { 0x01 <= op <= 0x0b || 0x10 <= op <= 0x1d }

  /** Opcodes that push a word of the frame, its account, the block or the transaction. */
  predicate IsContext(op: byte) {
    op in {0x30, 0x32, 0x33, 0x34, 0x36, 0x38, 0x3a, 0x3d, 0x46, 0x47} || 0x41 <= op <= 0x44 || 0x58 <= op <= 0x5a
  }

  /** Opcodes that replace the top word by what it names. */
  predicate IsLookup(op: byte) { op in {0x31, 0x35, 0x3b, 0x3f, 0x40, 0x54} }

  predicate IsPush(op: byte) { 0x60 <= op <= 0x7f }
  predicate IsDup(op: byte) { 0x80 <= op <= 0x8f }
  predicate IsSwap(op: byte) { 0x90 <= op <= 0x9f }
  predicate IsLog(op: byte) { 0xa0 <= op <= 0xa4 }

  /** Words an opcode needs on the stack. */
  function Takes(op: byte): nat {
    if op == 0x00 || op == 0x5b || IsContext(op) || IsPush(op) then 0
    else if op in {0x15, 0x19, 0x50, 0x51, 0x56, 0xff} || IsLookup(op) then 1
    else if op in {0x08, 0x09, 0x37, 0x39, 0x3e, 0xf0} then 3
    else if op in {0x3c, 0xf5} then 4
    else if op in {0xf4, 0xfa} then 6
    else if op in {0xf1, 0xf2} then 7
    else if IsDup(op) then op - 0x7f
    else if IsSwap(op) then op - 0x8e
    else if IsLog(op) then op - 0x9e
    else 2
  }

  /** Words it leaves in their place. */
  function Gives(op: byte): (n: nat)
    ensures n <= 17
  {
    if IsLog(op) || op in {0x00, 0x37, 0x39, 0x3c, 0x3e, 0x50, 0x52, 0x53, 0x55, 0x56, 0x57, 0x5b, 0xf3, 0xfd, 0xff} then 0
    else if IsDup(op) then op - 0x7e
    else if IsSwap(op) then op - 0x8e
    else 1
  }

  function BaseGas(op: byte): nat {
    if IsLog(op) || op in {0x00, 0x0a, 0x55, 0xf3, 0xfd, 0xff} then 0
    else if op == 0x5b then 1
    else if op in {0x02, 0x04, 0x05, 0x06, 0x07, 0x0b, 0x47} then 5
    else if IsContext(op) || op == 0x50 then 2
    else if op in {0x08, 0x09, 0x56} then 8
    else if op == 0x57 then 10
    else if op == 0x40 then 20
    else if op == 0x20 then 30
    else if op in {0xf1, 0xf2, 0xf4} then 40
    else if op == 0x54 then 50
    else if op in {0x31, 0x3f} then 400
    else if op in {0x3b, 0x3c, 0xfa} then 700
    else if op in {0xf0, 0xf5} then 32000
    else 3
  }

  /** Opcodes refused in read-only mode; a call that carries value is refused too. */
  predicate Writes(op: byte) { op == 0x55 || IsLog(op) || op in {0xf0, 0xf5, 0xff} }

  function RoutineOf(op: byte): Exec {
    if IsArithmetic(op) then Alu(Takes(op))
    else if IsContext(op) then Env
    else if IsLookup(op) then Lookup
    else if IsPush(op) then Push(op - 0x5f)
    else if IsDup(op) then Dup(op - 0x7f)
    else if IsSwap(op) then Swap(op - 0x8f)
    else if IsLog(op) then Exec.Log(op - 0xa0)
    else if op == 0x20 then Sha3
    else if op <= 0x3c then
      if op == 0x37 then CallDataCopy else if op == 0x39 then CodeCopy else if op == 0x3c then ExtCodeCopy else Stop
    else if op == 0x3e then ReturnDataCopy
    else if op <= 0x53 then
      if op == 0x50 then Exec.Pop else if op == 0x51 then MLoad else if op == 0x52 then MStore else MStore8
    else if op <= 0x5b then
      if op == 0x55 then Exec.SStore else if op == 0x56 then Jump else if op == 0x57 then JumpI else JumpDest
    else if op <= 0xf2 then if op == 0xf0 then Exec.Create else if op == 0xf1 then Exec.Call else Exec.CallCode
    else if op <= 0xf5 then if op == 0xf3 then Return else if op == 0xf4 then Exec.DelegateCall else Exec.Create2
    else if op == 0xfa then Exec.StaticCall else if op == 0xfd then Revert else SelfDestruct
  }

  /** The memory it names, by the stack positions of offset and length. */
  function AreaOf(op: byte): Area {
    if IsLog(op) || op in {0x20, 0xf3, 0xfd} then Range(0, 1)
    else if op in {0x37, 0x39, 0x3e} then Range(0, 2)
    else if op == 0x3c then Range(1, 3)
    else if op in {0x51, 0x52} then Fixed(0, 32)
    else if op == 0x53 then Fixed(0, 1)
    else if op in {0xf0, 0xf5} then Range(1, 2)
    else if op in {0xf1, 0xf2} then Ranges(3, 4, 5, 6)
    else if op in {0xf4, 0xfa} then Ranges(2, 3, 4, 5)
    else NoMemory
  }

  function DynamicOf(op: byte): Dynamic {
    if op in {0x51, 0x52, 0x53, 0xf0, 0xf3, 0xf5, 0xfd} then Dynamic.MemoryGas
    else if op in {0x37, 0x39, 0x3e} then CopierGas(2)
    else if op == 0x3c then CopierGas(3)
    else if op == 0x20 then Sha3Gas
    else if op == 0x0a then ExpGas
    else if IsLog(op) then Dynamic.LogGas(op - 0xa0)
    else if op == 0x55 then SStoreGas
    else if op == 0xff then SelfDestructGas
    else if op == 0xf1 then Dynamic.CallGas
    else if op == 0xf2 then CallCodeGas
    else if op in {0xf4, 0xfa} then DelegateCallGas
    else NoDynamic
  }

  /** The entry is what the columns say. */
  predicate InColumns(op: byte, o: Operation) {
    && o.execute == RoutineOf(op) && o.memory == AreaOf(op) && (o.writes <==> Writes(op))
    && o.constantGas == BaseGas(op) && o.dynamic == DynamicOf(op)
    && o.minStack == Takes(op) && o.maxStack == STACK_LIMIT + Takes(op) - Gives(op)
  }

  lemma Columns(galaxias: bool, op: byte)
    ensures JumpTable(galaxias, op).Some? <==> Defined(galaxias, op)
    ensures Defined(galaxias, op) ==> InColumns(op, JumpTable(galaxias, op).value)
  {
    hide InColumns, ArithmeticRow, ContextRow, StorageRow, StackRow, CallRow, EndRow;
    if op <= 0x20 { ArithmeticColumns(op); }
    else if op < 0x50 { ContextColumns(galaxias, op); }
    else if op < 0x60 { StorageColumns(op); }
    else if op < 0xf0 { StackColumns(op); }
    else { EndColumns(galaxias, op); }
  }

  lemma ArithmeticColumns(op: byte)
    requires op < 0x21
    ensures ArithmeticRow(op).Some? <==> Defined(true, op)
    ensures ArithmeticRow(op).Some? ==> InColumns(op, ArithmeticRow(op).value)
  {
    hide InColumns, Defined, ArithmeticRow;
    if op < 0x04 { ArithmeticLowColumns(op); } else if op < 0x08 { ArithmeticMidColumns(op); } else { ArithmeticHighColumns(op); }
  }

  lemma ArithmeticLowColumns(op: byte)
    requires op < 0x04
    ensures ArithmeticRow(op).Some? <==> Defined(true, op)
    ensures ArithmeticRow(op).Some? ==> InColumns(op, ArithmeticRow(op).value)
  {}

  lemma ArithmeticMidColumns(op: byte)
    requires 0x04 <= op < 0x08
    ensures ArithmeticRow(op).Some? <==> Defined(true, op)
    ensures ArithmeticRow(op).Some? ==> InColumns(op, ArithmeticRow(op).value)
  {}

  lemma ArithmeticHighColumns(op: byte)
    requires 0x08 <= op < 0x21
    ensures ArithmeticRow(op).Some? <==> Defined(true, op)
    ensures ArithmeticRow(op).Some? ==> InColumns(op, ArithmeticRow(op).value)
  {}

  lemma ContextColumns(galaxias: bool, op: byte)
    requires 0x21 <= op < 0x50
    ensures ContextRow(galaxias, op).Some? <==> Defined(galaxias, op)
    ensures ContextRow(galaxias, op).Some? ==> InColumns(op, ContextRow(galaxias, op).value)
  {
    hide InColumns, Defined, ContextRow;
    if op < 0x38 { ContextLowColumns(galaxias, op); } else if op < 0x3c { ContextMidColumns(galaxias, op); }
    else if op < 0x40 { ContextCopyColumns(galaxias, op); }
    else { ContextHighColumns(galaxias, op); }
  }

  lemma ContextLowColumns(galaxias: bool, op: byte)
    requires 0x21 <= op < 0x38
    ensures ContextRow(galaxias, op).Some? <==> Defined(galaxias, op)
    ensures ContextRow(galaxias, op).Some? ==> InColumns(op, ContextRow(galaxias, op).value)
  {}

  lemma ContextMidColumns(galaxias: bool, op: byte)
    requires 0x38 <= op < 0x3c
    ensures ContextRow(galaxias, op).Some? <==> Defined(galaxias, op)
    ensures ContextRow(galaxias, op).Some? ==> InColumns(op, ContextRow(galaxias, op).value)
  {}

  lemma ContextCopyColumns(galaxias: bool, op: byte)
    requires 0x3c <= op < 0x40
    ensures ContextRow(galaxias, op).Some? <==> Defined(galaxias, op)
    ensures ContextRow(galaxias, op).Some? ==> InColumns(op, ContextRow(galaxias, op).value)
  {}

  lemma ContextHighColumns(galaxias: bool, op: byte)
    requires 0x40 <= op < 0x50
    ensures ContextRow(galaxias, op).Some? <==> Defined(galaxias, op)
    ensures ContextRow(galaxias, op).Some? ==> InColumns(op, ContextRow(galaxias, op).value)
  {}

  lemma StorageColumns(op: byte)
    requires 0x50 <= op < 0x60
    ensures StorageRow(op).Some? <==> Defined(true, op)
    ensures StorageRow(op).Some? ==> InColumns(op, StorageRow(op).value)
  {
    hide InColumns, Defined, StorageRow;
    if op < 0x54 { StorageLowColumns(op); } else if op < 0x57 { StorageMidColumns(op); } else { StorageHighColumns(op); }
  }

  lemma StorageLowColumns(op: byte)
    requires 0x50 <= op < 0x54
    ensures StorageRow(op).Some? <==> Defined(true, op)
    ensures StorageRow(op).Some? ==> InColumns(op, StorageRow(op).value)
  {}

  lemma StorageMidColumns(op: byte)
    requires 0x54 <= op < 0x57
    ensures StorageRow(op).Some? <==> Defined(true, op)
    ensures StorageRow(op).Some? ==> InColumns(op, StorageRow(op).value)
  {}

  lemma StorageHighColumns(op: byte)
    requires 0x57 <= op < 0x60
    ensures StorageRow(op).Some? <==> Defined(true, op)
    ensures StorageRow(op).Some? ==> InColumns(op, StorageRow(op).value)
  {}

  lemma StackColumns(op: byte)
    requires 0x60 <= op < 0xf0
    ensures StackRow(op).Some? <==> Defined(true, op)
    ensures StackRow(op).Some? ==> InColumns(op, StackRow(op).value)
  {}

  lemma EndColumns(galaxias: bool, op: byte)
    requires 0xf0 <= op
    ensures JumpTable(galaxias, op).Some? <==> Defined(galaxias, op)
    ensures JumpTable(galaxias, op).Some? ==> InColumns(op, JumpTable(galaxias, op).value)
  {
    hide InColumns, Defined, JumpTable;
    if op < 0xf2 { EndLowColumns(galaxias, op); } else if op < 0xf4 { ReturnColumns(galaxias, op); }
    else if op < 0xf6 { EndMidColumns(galaxias, op); } else if op < 0xfb { StaticColumns(galaxias, op); }
    else { EndHighColumns(galaxias, op); }
  }

  lemma EndLowColumns(galaxias: bool, op: byte)
    requires 0xf0 <= op < 0xf2
    ensures JumpTable(galaxias, op).Some? <==> Defined(galaxias, op)
    ensures JumpTable(galaxias, op).Some? ==> InColumns(op, JumpTable(galaxias, op).value)
  {}

  lemma ReturnColumns(galaxias: bool, op: byte)
    requires 0xf2 <= op < 0xf4
    ensures JumpTable(galaxias, op).Some? <==> Defined(galaxias, op)
    ensures JumpTable(galaxias, op).Some? ==> InColumns(op, JumpTable(galaxias, op).value)
  {}

  lemma EndMidColumns(galaxias: bool, op: byte)
    requires 0xf4 <= op < 0xf6
    ensures JumpTable(galaxias, op).Some? <==> Defined(galaxias, op)
    ensures JumpTable(galaxias, op).Some? ==> InColumns(op, JumpTable(galaxias, op).value)
  {}

  lemma StaticColumns(galaxias: bool, op: byte)
    requires 0xf6 <= op < 0xfb
    ensures JumpTable(galaxias, op).Some? <==> Defined(galaxias, op)
    ensures JumpTable(galaxias, op).Some? ==> InColumns(op, JumpTable(galaxias, op).value)
  {}

  lemma EndHighColumns(galaxias: bool, op: byte)
    requires 0xfb <= op
    ensures JumpTable(galaxias, op).Some? <==> Defined(galaxias, op)
    ensures JumpTable(galaxias, op).Some? ==> InColumns(op, JumpTable(galaxias, op).value)
  {}
}
