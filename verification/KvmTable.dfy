/** The opcode table: what each opcode runs, what it costs, and how the stack is bounded before it runs. */
module KvmTable {
  import opened Basics
  import opened KvmGas
  import opened KvmCode

  const STACK_LIMIT: nat := 1024

  /** The routine an opcode runs; opcodes that differ only in the word they compute share one. */
  datatype Exec =
    | Stop
    | Alu(args: nat)           // pops args words and pushes one computed from them
    | Sha3
    | Env                      // pushes a word of the context
    | Lookup                   // replaces the top word by what it names
    | CallDataCopy | CodeCopy | ExtCodeCopy | ReturnDataCopy
    | Pop | MLoad | MStore | MStore8 | SStore
    | Jump | JumpI | JumpDest
    | Push(size: nat) | Dup(n: nat) | Swap(n: nat)
    | Log(topics: nat)
    | Create | Create2 | Call | CallCode | DelegateCall | StaticCall
    | Return | Revert | SelfDestruct

  /** Memory an opcode touches, by the stack positions of offset and length. */
  datatype Area =
    | NoMemory
    | Fixed(off: nat, len: nat)
    | Range(off: nat, len: nat)
    | Ranges(off: nat, len: nat, off': nat, len': nat)

  datatype Dynamic =
    | NoDynamic | MemoryGas | CopierGas(len: nat) | Sha3Gas | ExpGas | LogGas(topics: nat)
    | SStoreGas | SelfDestructGas | CallGas | CallCodeGas | DelegateCallGas

  datatype Operation = Operation(
    execute: Exec, constantGas: uint64, minStack: nat, maxStack: int, memory: Area, dynamic: Dynamic,
    halts: bool, jumps: bool, writes: bool, reverts: bool, setsReturn: bool)

  function Plain(e: Exec, gas: uint64, pops: nat, pushes: nat): Operation {
    Operation(e, gas, pops, STACK_LIMIT + pops - pushes, NoMemory, NoDynamic, false, false, false, false, false)
  }

  function Sized(e: Exec, gas: uint64, pops: nat, pushes: nat, area: Area, dynamic: Dynamic): Operation {
    Operation(e, gas, pops, STACK_LIMIT + pops - pushes, area, dynamic, false, false, false, false, false)
  }

  function ArithmeticRow(op: byte): Option<Operation> {
    if op == 0x00 then Some(Plain(Stop, 0, 0, 0).(halts := true))
    else if op in {0x01, 0x03} then Some(Plain(Alu(2), 3, 2, 1))
    else if op in {0x02, 0x04, 0x05, 0x06, 0x07, 0x0b} then Some(Plain(Alu(2), 5, 2, 1))
    else if op in {0x08, 0x09} then Some(Plain(Alu(3), 8, 3, 1))
    else if op == 0x0a then Some(Plain(Alu(2), 0, 2, 1).(dynamic := ExpGas))
    else if op in {0x15, 0x19} then Some(Plain(Alu(1), 3, 1, 1))
    else if 0x10 <= op <= 0x1d then Some(Plain(Alu(2), 3, 2, 1))
    else if op == 0x20 then Some(Sized(Exec.Sha3, 30, 2, 1, Range(0, 1), Sha3Gas))
    else None
  }

  function ContextRow(galaxias: bool, op: byte): Option<Operation> {
    if op in {0x30, 0x32, 0x33, 0x34, 0x36, 0x38, 0x3a, 0x3d} then Some(Plain(Env, 2, 0, 1))
    else if op == 0x31 then Some(Plain(Lookup, 400, 1, 1))
    else if op == 0x35 then Some(Plain(Lookup, 3, 1, 1))
    else if op == 0x37 then Some(Sized(CallDataCopy, 3, 3, 0, Range(0, 2), CopierGas(2)))
    else if op == 0x39 then Some(Sized(CodeCopy, 3, 3, 0, Range(0, 2), CopierGas(2)))
    else if op == 0x3b then Some(Plain(Lookup, 700, 1, 1))
    else if op == 0x3c then Some(Sized(ExtCodeCopy, 700, 4, 0, Range(1, 3), CopierGas(3)))
    else if op == 0x3e then Some(Sized(ReturnDataCopy, 3, 3, 0, Range(0, 2), CopierGas(2)))
    else if op == 0x3f then Some(Plain(Lookup, 400, 1, 1))
    else if op == 0x40 then Some(Plain(Lookup, 20, 1, 1))
    else if 0x41 <= op <= 0x44 then Some(Plain(Env, 2, 0, 1))
    else if op == 0x46 then if galaxias then Some(Plain(Env, 2, 0, 1)) else None
    else if op == 0x47 then Some(Plain(Env, 5, 0, 1))
    else None
  }

  function StorageRow(op: byte): Option<Operation> {
    if op == 0x50 then Some(Plain(Exec.Pop, 2, 1, 0))
    else if op == 0x51 then Some(Sized(MLoad, 3, 1, 1, Fixed(0, 32), Dynamic.MemoryGas))
    else if op == 0x52 then Some(Sized(MStore, 3, 2, 0, Fixed(0, 32), Dynamic.MemoryGas))
    else if op == 0x53 then Some(Sized(MStore8, 3, 2, 0, Fixed(0, 1), Dynamic.MemoryGas))
    else if op == 0x54 then Some(Plain(Lookup, 50, 1, 1))
    else if op == 0x55 then Some(Plain(Exec.SStore, 0, 2, 0).(dynamic := SStoreGas, writes := true))
    else if op == 0x56 then Some(Plain(Jump, 8, 1, 0).(jumps := true))
    else if op == 0x57 then Some(Plain(JumpI, 10, 2, 0).(jumps := true))
    else if 0x58 <= op <= 0x5a then Some(Plain(Env, 2, 0, 1))
    else if op == 0x5b then Some(Plain(JumpDest, 1, 0, 0))
    else None
  }

  function StackRow(op: byte): Option<Operation> {
    if 0x60 <= op <= 0x7f then Some(Plain(Push(op - 0x5f), 3, 0, 1))
    else if 0x80 <= op <= 0x8f then Some(Plain(Dup(op - 0x7f), 3, op - 0x7f, op - 0x7e))
    else if 0x90 <= op <= 0x9f then Some(Plain(Swap(op - 0x8f), 3, op - 0x8e, op - 0x8e))
    else if 0xa0 <= op <= 0xa4 then
      var n := op - 0xa0;
      Some(Sized(Exec.Log(n), 0, n + 2, 0, Range(0, 1), Dynamic.LogGas(n)).(writes := true))
    else None
  }

  function CallRow(op: byte): Option<Operation> {
    if op == 0xf1 then Some(Sized(Exec.Call, 40, 7, 1, Ranges(3, 4, 5, 6), Dynamic.CallGas).(setsReturn := true))
    else if op == 0xf2 then Some(Sized(Exec.CallCode, 40, 7, 1, Ranges(3, 4, 5, 6), CallCodeGas).(setsReturn := true))
    else if op == 0xf4 then Some(Sized(Exec.DelegateCall, 40, 6, 1, Ranges(2, 3, 4, 5), DelegateCallGas).(setsReturn := true))
    else if op == 0xfa then Some(Sized(Exec.StaticCall, 700, 6, 1, Ranges(2, 3, 4, 5), DelegateCallGas).(setsReturn := true))
    else None
  }

  function EndRow(op: byte): Option<Operation> {
    if op == 0xf0 then Some(Sized(Exec.Create, 32000, 3, 1, Range(1, 2), Dynamic.MemoryGas).(writes := true, setsReturn := true))
    else if op == 0xf3 then Some(Sized(Return, 0, 2, 0, Range(0, 1), Dynamic.MemoryGas).(halts := true))
    else if op == 0xf5 then
      Some(Sized(Exec.Create2, 32000, 4, 1, Range(1, 2), Dynamic.MemoryGas).(writes := true, setsReturn := true))
    else if op == 0xfd then Some(Sized(Revert, 0, 2, 0, Range(0, 1), Dynamic.MemoryGas).(reverts := true, setsReturn := true))
    else if op == 0xff then Some(Sized(SelfDestruct, 0, 1, 0, NoMemory, SelfDestructGas).(halts := true, writes := true))
    else None
  }

  function JumpTable(galaxias: bool, op: byte): Option<Operation> {
    if op <= 0x20 then ArithmeticRow(op)
    else if op < 0x50 then ContextRow(galaxias, op)
    else if op < 0x60 then StorageRow(op)
    else if op < 0xf0 then StackRow(op)
    else if op in {0xf1, 0xf2, 0xf4, 0xfa} then CallRow(op)
    else EndRow(op)
  }

  // ---------------------------------------------------------------- what the routines need

  /** Words a routine takes off the stack, and words it leaves in their place. */
  function Pops(e: Exec): nat {
    match e
    case Stop => 0 case Alu(n) => n case Sha3 => 2 case Env => 0 case Lookup => 1
    case CallDataCopy => 3 case CodeCopy => 3 case ExtCodeCopy => 4 case ReturnDataCopy => 3
    case Pop => 1 case MLoad => 1 case MStore => 2 case MStore8 => 2 case SStore => 2
    case Jump => 1 case JumpI => 2 case JumpDest => 0
    case Push(_) => 0 case Dup(n) => n case Swap(n) => n + 1 case Log(n) => n + 2
    case Create => 3 case Create2 => 4 case Call => 7 case CallCode => 7 case DelegateCall => 6 case StaticCall => 6
    case Return => 2 case Revert => 2 case SelfDestruct => 1
  }

  function Pushes(e: Exec): nat {
    match e
    case Alu(_) => 1 case Sha3 => 1 case Env => 1 case Lookup => 1 case MLoad => 1 case Push(_) => 1
    case Dup(n) => n + 1 case Swap(n) => n + 1
    case Create => 1 case Create2 => 1 case Call => 1 case CallCode => 1 case DelegateCall => 1 case StaticCall => 1
    case _ => 0
  }

  function Touches(e: Exec): Area {
    match e
    case Sha3 => Range(0, 1) case CallDataCopy => Range(0, 2) case CodeCopy => Range(0, 2)
    case ExtCodeCopy => Range(1, 3) case ReturnDataCopy => Range(0, 2)
    case MLoad => Fixed(0, 32) case MStore => Fixed(0, 32) case MStore8 => Fixed(0, 1)
    case Log(_) => Range(0, 1) case Create => Range(1, 2) case Create2 => Range(1, 2)
    case Call => Ranges(3, 4, 5, 6) case CallCode => Ranges(3, 4, 5, 6)
    case DelegateCall => Ranges(2, 3, 4, 5) case StaticCall => Ranges(2, 3, 4, 5)
    case Return => Range(0, 1) case Revert => Range(0, 1)
    case _ => NoMemory
  }

  /** Runs other code. */
  predicate Invokes(e: Exec) {
    e.Create? || e.Create2? || e.Call? || e.CallCode? || e.DelegateCall? || e.StaticCall?
  }

  predicate Changes(e: Exec) {
    e.SStore? || e.Log? || e.Create? || e.Create2? || e.SelfDestruct?
  }

  predicate ChargesMemory(d: Dynamic) {
    d.MemoryGas? || d.CopierGas? || d.Sha3Gas? || d.LogGas? || d.CallGas? || d.CallCodeGas? || d.DelegateCallGas?
  }

  /** The call routines read the gas share that their gas function computed. */
  predicate ShareMatches(e: Exec, d: Dynamic) {
    && (e.Call? <==> d.CallGas?)
    && (e.CallCode? <==> d.CallCodeGas?)
    && (e.DelegateCall? || e.StaticCall? <==> d.DelegateCallGas?)
  }

  /** Stack positions a gas function reads. */
  function GasArgs(d: Dynamic): nat {
    match d
    case CopierGas(n) => n + 1 case Sha3Gas => 2 case ExpGas => 2 case LogGas(_) => 2 case SStoreGas => 2
    case SelfDestructGas => 1 case CallGas => 3 case CallCodeGas => 3 case DelegateCallGas => 2 case _ => 0
  }

  /** The data a gas function charges for is the memory area the operation names. */
  predicate SizesData(d: Dynamic, a: Area) {
    && (d.CopierGas? ==> a.Range? && a.len == d.len)
    && (d.Sha3Gas? || d.LogGas? ==> a == Range(0, 1))
  }

  function AreaArgs(a: Area): nat {
    match a
    case NoMemory => 0
    case Fixed(off, _) => off + 1
    case Range(off, len) => if off < len then len + 1 else off + 1
    case Ranges(o, l, o', l') => if o < l < o' < l' then l' + 1 else o + l + o' + l' + 1
  }

  /**
   The stack bounds cover what the routine and its gas function take and leave; the area it touches is sized and
   charged for.
   */
  ghost predicate Bounded(o: Operation) {
    && Pops(o.execute) <= o.minStack && o.maxStack - Pops(o.execute) + Pushes(o.execute) <= STACK_LIMIT
    && o.memory == Touches(o.execute) && AreaArgs(o.memory) <= o.minStack && GasArgs(o.dynamic) <= o.minStack
    && (o.memory != NoMemory ==> ChargesMemory(o.dynamic)) && SizesData(o.dynamic, o.memory)
  }

  /** A routine that changes accounts is marked as a write, and an entry that lets the run go on costs gas. */
  ghost predicate Flagged(op: byte, o: Operation) {
    && (Changes(o.execute) <==> o.writes)
    && (o.halts || o.reverts || o.constantGas > 0 || o.dynamic.ExpGas? || o.dynamic.LogGas? || o.dynamic.SStoreGas?)
    && (o.halts <==> o.execute.Stop? || o.execute.Return? || o.execute.SelfDestruct?)
    && (o.reverts <==> o.execute.Revert?)
    && (o.jumps <==> o.execute.Jump? || o.execute.JumpI?)
    && (o.setsReturn <==> Invokes(o.execute) || o.execute.Revert?)
    && (o.execute.Push? ==> o.execute.size == PushLen(op)) && (!o.execute.Push? ==> PushLen(op) == 0)
    && (o.execute.Dup? ==> o.execute.n >= 1)
    && (o.execute.Call? <==> op == 0xf1)
    && ShareMatches(o.execute, o.dynamic)
    && (o.dynamic.LogGas? ==> o.dynamic.topics <= 4 && o.writes)
    && (o.dynamic.SStoreGas? || o.dynamic.SelfDestructGas? ==> o.writes)
    && o.constantGas <= 32000
  }

  /** Every entry fits the routine it runs. */
  ghost predicate Fits(op: byte, o: Operation) {
    Bounded(o) && Flagged(op, o)
  }

  lemma TableFits(galaxias: bool, op: byte)
    ensures JumpTable(galaxias, op).Some? ==> Fits(op, JumpTable(galaxias, op).value)
    ensures op == 0 ==> JumpTable(galaxias, op).Some? && JumpTable(galaxias, op).value.halts
  {
    hide Fits, ContextRow, StorageRow, StackRow, CallRow, EndRow;
    ArithmeticFits(op); ContextFits(galaxias, op); StorageFits(op); StackFits(op); CallFits(op); EndFits(op);
  }

  lemma ArithmeticFits(op: byte)
    ensures ArithmeticRow(op).Some? ==> Fits(op, ArithmeticRow(op).value)
  {
    hide ArithmeticRow, Fits;
    if op < 0x8 { ArithmeticLow(op); } else if op < 0x15 { ArithmeticMid(op); } else { ArithmeticHigh(op); }
  }

  lemma ArithmeticLow(op: byte)
    requires op < 0x8
    ensures ArithmeticRow(op).Some? ==> Fits(op, ArithmeticRow(op).value)
  {}

  lemma ArithmeticMid(op: byte)
    requires 0x8 <= op < 0x15
    ensures ArithmeticRow(op).Some? ==> Fits(op, ArithmeticRow(op).value)
  {}

  lemma ArithmeticHigh(op: byte)
    requires 0x15 <= op
    ensures ArithmeticRow(op).Some? ==> Fits(op, ArithmeticRow(op).value)
  {}

  lemma ContextFits(galaxias: bool, op: byte)
    ensures ContextRow(galaxias, op).Some? ==> Fits(op, ContextRow(galaxias, op).value)
  {
    hide ContextRow, Fits;
    if op < 0x36 { ContextLow(galaxias, op); } else if op < 0x3a { ContextMid(galaxias, op); }
    else if op < 0x40 { ContextHigh(galaxias, op); } else { ContextTop(galaxias, op); }
  }

  lemma ContextLow(galaxias: bool, op: byte)
    requires op < 0x36
    ensures ContextRow(galaxias, op).Some? ==> Fits(op, ContextRow(galaxias, op).value)
  {}

  lemma ContextMid(galaxias: bool, op: byte)
    requires 0x36 <= op < 0x3a
    ensures ContextRow(galaxias, op).Some? ==> Fits(op, ContextRow(galaxias, op).value)
  {}

  lemma ContextHigh(galaxias: bool, op: byte)
    requires 0x3a <= op < 0x40
    ensures ContextRow(galaxias, op).Some? ==> Fits(op, ContextRow(galaxias, op).value)
  {}

  lemma ContextTop(galaxias: bool, op: byte)
    requires 0x40 <= op
    ensures ContextRow(galaxias, op).Some? ==> Fits(op, ContextRow(galaxias, op).value)
  {}

  lemma StorageFits(op: byte)
    ensures StorageRow(op).Some? ==> Fits(op, StorageRow(op).value)
  {
    hide StorageRow, Fits;
    if op < 0x53 { StorageLow(op); } else if op < 0x55 { StorageMid(op); } else if op < 0x57 { StorageHigh(op); }
    else { StorageTop(op); }
  }

  lemma StorageLow(op: byte)
    requires op < 0x53
    ensures StorageRow(op).Some? ==> Fits(op, StorageRow(op).value)
  {}

  lemma StorageMid(op: byte)
    requires 0x53 <= op < 0x55
    ensures StorageRow(op).Some? ==> Fits(op, StorageRow(op).value)
  {}

  lemma StorageHigh(op: byte)
    requires 0x55 <= op < 0x57
    ensures StorageRow(op).Some? ==> Fits(op, StorageRow(op).value)
  {}

  lemma StorageTop(op: byte)
    requires 0x57 <= op
    ensures StorageRow(op).Some? ==> Fits(op, StorageRow(op).value)
  {}

  lemma StackFits(op: byte)
    ensures StackRow(op).Some? ==> Fits(op, StackRow(op).value)
  {
    hide StackRow, Fits;
    if op < 0x90 { StackLow(op); } else { StackHigh(op); }
  }

  lemma StackLow(op: byte)
    requires op < 0x90
    ensures StackRow(op).Some? ==> Fits(op, StackRow(op).value)
  {}

  lemma StackHigh(op: byte)
    requires 0x90 <= op
    ensures StackRow(op).Some? ==> Fits(op, StackRow(op).value)
  {}

  lemma CallFits(op: byte)
    ensures CallRow(op).Some? ==> Fits(op, CallRow(op).value)
  {
    hide CallRow, Fits;
    if op < 0xf4 { CallLow(op); } else { CallHigh(op); }
  }

  lemma CallLow(op: byte)
    requires op < 0xf4
    ensures CallRow(op).Some? ==> Fits(op, CallRow(op).value)
  {}

  lemma CallHigh(op: byte)
    requires 0xf4 <= op
    ensures CallRow(op).Some? ==> Fits(op, CallRow(op).value)
  {}

  lemma EndFits(op: byte)
    ensures EndRow(op).Some? ==> Fits(op, EndRow(op).value)
  {
    hide EndRow, Fits;
    if op < 0xf5 { EndLow(op); } else if op < 0xfd { EndMid(op); } else { EndHigh(op); }
  }

  lemma EndLow(op: byte)
    requires op < 0xf5
    ensures EndRow(op).Some? ==> Fits(op, EndRow(op).value)
  {}

  lemma EndMid(op: byte)
    requires 0xf5 <= op < 0xfd
    ensures EndRow(op).Some? ==> Fits(op, EndRow(op).value)
  {}

  lemma EndHigh(op: byte)
    requires 0xfd <= op
    ensures EndRow(op).Some? ==> Fits(op, EndRow(op).value)
  {}
}
