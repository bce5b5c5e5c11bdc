/**
 What the instruction at the program counter does, opcode by opcode: when it is refused and with which error, and its
 effect.
 */
module KvmLaws {
  import opened Basics
  import opened KvmGas
  import opened KvmCode
  import opened KvmWorld
  import opened KvmTable
  import opened KvmFrame
  import opened KvmPrice
  import opened KvmSemantics
  import opened KvmColumns

  // ---------------------------------------------------------------- when an instruction is executed

  /** The entry of the instruction at the program counter. */
  function EntryAt(env: Env, c: Context, m: Machine): (o: Operation)
    requires Defined(env.galaxias, OpAt(c.code, m.pc))
    ensures InColumns(OpAt(c.code, m.pc), o) && Fits(OpAt(c.code, m.pc), o)
  {
    Columns(env.galaxias, OpAt(c.code, m.pc));
    TableFits(env.galaxias, OpAt(c.code, m.pc));
    JumpTable(env.galaxias, OpAt(c.code, m.pc)).value
  }

  /** The opcode exists, and the stack has what it takes and room for what it gives. */
  predicate StackFits(env: Env, c: Context, m: Machine) {
    var op := OpAt(c.code, m.pc);
    Defined(env.galaxias, op) && Takes(op) <= |m.stack| <= STACK_LIMIT + Takes(op) - Gives(op)
  }

  /** In read-only mode nothing may be written, and no value sent. */
  predicate Allowed(c: Context, m: Machine)
    requires Takes(OpAt(c.code, m.pc)) <= |m.stack|
  {
    var op := OpAt(c.code, m.pc);
    c.readOnly ==> !Writes(op) && (op == 0xf1 ==> Back(m.stack, 2) == 0)
  }

  function Due(env: Env, c: Context, m: Machine): Option<nat>
    requires StackFits(env, c, m)
  {
    StackRoom(OpAt(c.code, m.pc), EntryAt(env, c, m));
    CostAt(env, c, EntryAt(env, c, m), m)
  }

  /** The instruction passes every check and can be paid for. */
  predicate Passes(env: Env, c: Context, m: Machine) { StackFits(env, c, m) && Allowed(c, m) && Due(env, c, m).Some? }

  // ---------------------------------------------------------------- what it costs

  /** Where an access ends; one of no bytes touches nothing. */
  function End(off: Word, len: Word): nat { if len == 0 then 0 else off + len }

  /** The end of the memory an instruction names. */
  function Names(op: byte, s: seq<Word>): nat
    requires Takes(op) <= |s|
  {
    match AreaOf(op)
    case NoMemory => 0
    case Fixed(off, len) => Back(s, off) + len
    case Range(off, len) => End(Back(s, off), Back(s, len))
    case Ranges(o, l, o', l') => Larger(End(Back(s, o), Back(s, l)), End(Back(s, o'), Back(s, l')))
  }

  /** What an instruction costs on top of its base price and of memory, without the gas a nested call is given. */
  function Surcharge(op: byte, w: World, self: Address, s: seq<Word>): nat
    requires Takes(op) <= |s|
  {
    if op in {0x37, 0x39, 0x3e} then 3 * Words(Back(s, 2))
    else if op == 0x3c then 3 * Words(Back(s, 3))
    else if op == 0x20 then 6 * Words(Back(s, 1))
    else if op == 0x0a then 10 + 50 * ByteLen(Back(s, 1))
    else if IsLog(op) then 375 * (op - 0x9f) + 8 * Back(s, 1)
    else if op == 0x55 then if Slot(Acct(w, self).storage, Back(s, 0)) == 0 && Back(s, 1) != 0 then 20000 else 5000
    else if op == 0xff then
      var a := ToAddress(Back(s, 0));
      if a !in w.accounts || (Empty(w, a) && Acct(w, self).balance != 0) then 25000 else 0
    else if op == 0xf1 then
      var (a, pays) := (ToAddress(Back(s, 1)), Back(s, 2) != 0);
      (if pays then 9000 else 0) + (if pays && Empty(w, a) then 25000 else 0) + (if a !in w.accounts then 25000 else 0)
    else if op == 0xf2 then if Back(s, 2) != 0 then 9000 else 0
    else 0
  }

  predicate IsCall(op: byte) { op in {0xf1, 0xf2, 0xf4, 0xfa} }

  /** The earlier rules charge the base price a second time where there is more to pay. */
  function BaseTwice(galaxias: bool, op: byte): nat {
    if galaxias || DynamicOf(op).NoDynamic? then BaseGas(op) else 2 * BaseGas(op)
  }

  /** The size asked for is the end of what the instruction names, in whole words; it must fit a machine word. */
  lemma NamesIs(op: byte, s: seq<Word>)
    requires Takes(op) <= |s|
    ensures AreaArgs(AreaOf(op)) <= |s|
    ensures WantedSize(AreaOf(op), s).Some? <==> Names(op, s) <= TWO_64 - 32
    ensures Names(op, s) <= TWO_64 - 32 ==> WantedSize(AreaOf(op), s).value == 32 * Words(Names(op, s))
  {
    hide ToWordSize, CalcMemSize, RoundedSize;
    var size := MemorySize(AreaOf(op), s);
    assert size.Some? <==> Names(op, s) < TWO_64;
    assert size.Some? ==> size.value == Names(op, s);
  }

  lemma SurchargeIs(op: byte, w: World, self: Address, s: seq<Word>)
    requires Takes(op) <= |s|
    ensures GasArgs(DynamicOf(op)) <= |s| && Price(DynamicOf(op), w, self, s) == Surcharge(op, w, self, s)
  {
    hide Words, Empty, Acct, Slot, ByteLen;
  }

  /** All a call can be given: what is asked for, up to all but one 64th of what is left when the rest is paid. */
  function Share(s: seq<Word>, left: nat): nat
    requires |s| > 0
  {
    Min(Back(s, 0), left - left / 64)
  }

  /** The price of an instruction in plain arithmetic, and when it can be paid: memory has a limit, and a call needs its share. */
  lemma DueIs(env: Env, c: Context, m: Machine)
    requires StackFits(env, c, m)
    ensures var op := OpAt(c.code, m.pc);
            var size := 32 * Words(Names(op, m.stack));
            var base := Growth(|m.store|, size) + Surcharge(op, m.world, c.self, m.stack);
            var all := BaseTwice(env.galaxias, op) + base;
            if size > MAX_MEM || m.gas < BaseGas(op) + base then Due(env, c, m).None?
            else if !IsCall(op) then Due(env, c, m) == if all <= m.gas then Some(all) else None
            else
              var share := Share(m.stack, m.gas - BaseGas(op) - base);
              Due(env, c, m) == if all + share <= m.gas then Some(all + share) else None
  {
    hide Names, Surcharge, BaseGas, DynamicOf, Fits, Growth, Price, WantedSize, Takes, Gives, RoutineOf, AreaOf, Defined,
      JumpTable, KvmGas.CallGas;
    var op, o := OpAt(c.code, m.pc), EntryAt(env, c, m);
    NamesIs(op, m.stack);
    SurchargeIs(op, m.world, c.self, m.stack);
    DynamicKinds(op, m.stack);
    NoGrowth(|m.store|);
    var size := 32 * Words(Names(op, m.stack));
    var base := Growth(|m.store|, size) + Surcharge(op, m.world, c.self, m.stack);
    if size <= MAX_MEM && BaseGas(op) + base <= m.gas && IsCall(op) {
      ShareIs(m.gas - BaseGas(op), base, Back(m.stack, 0));
    }
  }

  lemma NoGrowth(len: nat)
    ensures Growth(len, 0) == 0
  {}

  lemma DynamicKinds(op: byte, s: seq<Word>)
    requires Takes(op) <= |s|
    ensures Nested(DynamicOf(op)) <==> IsCall(op)
    ensures IsCall(op) ==> |s| > 0
    ensures DynamicOf(op).NoDynamic? ==> Names(op, s) == 0 && forall w, self :: Surcharge(op, w, self, s) == 0
  {}

  lemma ShareIs(gas: uint64, base: nat, requested: Word)
    requires base <= gas
    ensures KvmGas.CallGas(gas, base, requested) == Min(requested, (gas - base) - (gas - base) / 64)
  {}

  /** What a turn comes to when its instruction does not pass: the first check that fails names the error. */
  lemma Refusals(env: Env, c: Context, depth: nat, m: Machine)
    requires !Passes(env, c, m)
    ensures var (op, t) := (OpAt(c.code, m.pc), TurnOf(env, c, depth, m));
            && t.Over? && t.out.Failed? && t.out.polls == m.polls
            && (t.out.error == ErrInvalidOpCode <==> !Defined(env.galaxias, op))
            && (t.out.error == ErrStackUnderflow <==> Defined(env.galaxias, op) && |m.stack| < Takes(op))
            && (t.out.error == ErrStackOverflow <==> Defined(env.galaxias, op) && |m.stack| > STACK_LIMIT + Takes(op) - Gives(op))
            && (t.out.error == ErrWriteProtection <==> StackFits(env, c, m) && !Allowed(c, m))
            && (t.out.error == ErrGasUintOverflow <==>
                  StackFits(env, c, m) && Allowed(c, m) && BaseGas(op) <= m.gas && Names(op, m.stack) > TWO_64 - 32)
            && (t.out.error == ErrOutOfGas <==>
                  StackFits(env, c, m) && Allowed(c, m) && (BaseGas(op) <= m.gas ==> Names(op, m.stack) <= TWO_64 - 32))
  {
    hide RoutineOf, DynamicOf, BaseGas, Fits, CostAt, JumpTable, Takes, Gives, Writes, Defined, CallOut, CreateOut, Effect,
      Charged, Names, AreaOf, WantedSize;
    var op := OpAt(c.code, m.pc);
    Columns(env.galaxias, op);
    if Defined(env.galaxias, op) {
      TableFits(env.galaxias, op);
      StackRoom(op, EntryAt(env, c, m));
      if Takes(op) <= |m.stack| { NamesIs(op, m.stack); }
    }
  }

  // ---------------------------------------------------------------- what an instruction that passes does

  /** The frame once the instruction is paid for and memory has grown to hold what it names. */
  function PaidFor(env: Env, c: Context, m: Machine): Machine
    requires Passes(env, c, m)
  {
    DueBound(env, c, m);
    m.(gas := m.gas - Due(env, c, m).value, store := Extended(m.store, 32 * Words(Names(OpAt(c.code, m.pc), m.stack))))
  }

  lemma DueBound(env: Env, c: Context, m: Machine)
    requires Passes(env, c, m)
    ensures Due(env, c, m).value <= m.gas
  {
    hide Defined, Takes, Gives, Fits, CostAt, InColumns, EntryAt;
    var op, o := OpAt(c.code, m.pc), EntryAt(env, c, m);
    InTheColumns(op, o);
    StackRoom(op, o);
    CostFacts(env, c, op, o, m);
  }

  /** The gas a call instruction hands over: its share, and the stipend when it carries value. */
  function HandedAt(env: Env, c: Context, m: Machine): nat
    requires Passes(env, c, m) && IsCall(OpAt(c.code, m.pc))
  {
    var (op, s) := (OpAt(c.code, m.pc), m.stack);
    var base := BaseGas(op) + Growth(|m.store|, 32 * Words(Names(op, s))) + Surcharge(op, m.world, c.self, s);
    (if base <= m.gas then Share(s, m.gas - base) else 0) + if op in {0xf1, 0xf2} && Back(s, 2) != 0 then CALL_STIPEND else 0
  }

  lemma ChargedIs(env: Env, c: Context, m: Machine)
    requires Passes(env, c, m)
    ensures var (o, op) := (EntryAt(env, c, m), OpAt(c.code, m.pc));
            && CostAt(env, c, o, m) == Due(env, c, m)
            && Charged(env, c, o, m) == PaidFor(env, c, m).(world := Credited(DynamicOf(op), m.world, c.self, m.stack))
  {
    hide Defined, Takes, Gives, Fits, Names, AreaOf, WantedSize, Credited, Words, CostAt;
    NamesIs(OpAt(c.code, m.pc), m.stack);
    DueBound(env, c, m);
    DueFits(env, c, m);
  }

  lemma DueFits(env: Env, c: Context, m: Machine)
    requires Passes(env, c, m)
    ensures Names(OpAt(c.code, m.pc), m.stack) <= TWO_64 - 32
  {
    hide Defined, Takes, Gives, Fits, Names, AreaOf, WantedSize;
    NamesIs(OpAt(c.code, m.pc), m.stack);
  }

  /** An instruction that runs no other code and earns no refund has its effect on the frame that paid for it. */
  lemma Executes(env: Env, c: Context, depth: nat, m: Machine)
    requires Passes(env, c, m)
    ensures var (op, p) := (OpAt(c.code, m.pc), PaidFor(env, c, m));
            var (e, w) := (RoutineOf(op), Credited(DynamicOf(op), m.world, c.self, m.stack));
            && Enough(e, p)
            && (Local(e) ==> TurnOf(env, c, depth, m) == Effect(env, c, op, e, p.(world := w)))
            && (op != 0x55 && op != 0xff ==> w == m.world)
  {
    hide Defined, Takes, Gives, Fits, CostAt, JumpTable, PaidFor, RoutineOf, Effect, Enough, Performed, Charged, InColumns;
    var op, o := OpAt(c.code, m.pc), EntryAt(env, c, m);
    Columns(env.galaxias, op);
    InTheColumns(op, o);
    StackRoom(op, o);
    ChargedIs(env, c, m);
    PerformedPays(env, c, depth, op, o, m);
    EnoughIn(o.execute, Charged(env, c, o, m), PaidFor(env, c, m));
  }

  lemma HandedIs(env: Env, c: Context, m: Machine)
    requires Passes(env, c, m) && IsCall(OpAt(c.code, m.pc))
    ensures CostAt(env, c, EntryAt(env, c, m), m) == Due(env, c, m)
    ensures Handed(env, c, EntryAt(env, c, m), m) == HandedAt(env, c, m)
  {
    hide Defined, Takes, Gives, Fits, Names, Surcharge, Growth, Price, WantedSize, JumpTable, KvmGas.CallGas, CostAt, AreaOf,
      DynamicOf, InColumns, EntryAt;
    var op, o := OpAt(c.code, m.pc), EntryAt(env, c, m);
    InTheColumns(op, o);
    NamesIs(op, m.stack);
    DueFits(env, c, m);
    SurchargeIs(op, m.world, c.self, m.stack);
    CallKinds(op, m.stack);
    var base := Growth(|m.store|, 32 * Words(Names(op, m.stack))) + Surcharge(op, m.world, c.self, m.stack);
    DueCovers(env, c, m);
    ShareIs(m.gas - BaseGas(op), base, Back(m.stack, 0));
  }

  lemma DueCovers(env: Env, c: Context, m: Machine)
    requires Passes(env, c, m)
    ensures var op := OpAt(c.code, m.pc);
            BaseGas(op) + Growth(|m.store|, 32 * Words(Names(op, m.stack))) + Surcharge(op, m.world, c.self, m.stack) <= m.gas
  {
    hide Defined, Takes, Gives, Names, Surcharge, Growth, Due, BaseGas;
    DueIs(env, c, m);
  }

  lemma CallKinds(op: byte, s: seq<Word>)
    requires IsCall(op) && Takes(op) <= |s|
    ensures |s| >= 6 && Nested(DynamicOf(op)) && GasArgs(DynamicOf(op)) <= |s|
    ensures MovesValue(DynamicOf(op), s) <==> op in {0xf1, 0xf2} && Back(s, 2) != 0
  {}

  lemma EnoughIn(e: Exec, m: Machine, m': Machine)
    requires Enough(e, m) && m'.stack == m.stack && m'.store == m.store
    ensures Enough(e, m')
  {}

  lemma InTheColumns(op: byte, o: Operation)
    requires InColumns(op, o)
    ensures o.execute == RoutineOf(op) && o.memory == AreaOf(op) && o.dynamic == DynamicOf(op) && o.constantGas == BaseGas(op)
    ensures (o.writes <==> Writes(op)) && o.minStack == Takes(op) && o.maxStack == STACK_LIMIT + Takes(op) - Gives(op)
  {}

  lemma KeepsMemory(env: Env, c: Context, m: Machine)
    requires Passes(env, c, m) && AreaOf(OpAt(c.code, m.pc)) == NoMemory
    ensures PaidFor(env, c, m) == m.(gas := m.gas - Due(env, c, m).value)
  {
    hide Passes, Due;
  }

  /** Arithmetic, comparison and bit operations replace their arguments by the result. */
  lemma Arithmetic(env: Env, c: Context, depth: nat, m: Machine)
    requires Passes(env, c, m) && IsArithmetic(OpAt(c.code, m.pc))
    ensures var (op, p) := (OpAt(c.code, m.pc), PaidFor(env, c, m));
            var k := |m.stack| - Takes(op);
            TurnOf(env, c, depth, m) == Next(p.(pc := m.pc + 1, stack := m.stack[..k] + [env.alu(op, m.stack[k..])]))
  {
    hide Passes, Due, PaidFor, Effect, Enough, TurnOf, Takes;
    var op, p := OpAt(c.code, m.pc), PaidFor(env, c, m);
    PaidStack(env, c, m);
    Executes(env, c, depth, m);
    EnoughStack(RoutineOf(op), p);
    ProducedIs(env, c, op, RoutineOf(op), p);
  }

  /** Paying touches neither the program counter nor the stack, the return data, the world or the polls. */
  lemma PaidStack(env: Env, c: Context, m: Machine)
    requires Passes(env, c, m)
    ensures PaidFor(env, c, m) == m.(gas := PaidFor(env, c, m).gas, store := PaidFor(env, c, m).store)
  {
    hide Passes, Due;
  }

  /** A PUSH takes the bytes that follow it, with zeros past the end of the code, and skips them. */
  lemma PushBytes(env: Env, c: Context, depth: nat, m: Machine)
    requires Passes(env, c, m) && IsPush(OpAt(c.code, m.pc))
    ensures var (n, p) := (OpAt(c.code, m.pc) - 0x5f, PaidFor(env, c, m));
            TurnOf(env, c, depth, m) ==
            Next(p.(pc := m.pc + 1 + n, stack := m.stack + [WordOf(GetData(c.code, m.pc + 1, n))]))
  {
    hide Passes, Due, PaidFor, Effect, Enough, TurnOf, Takes, WordOf;
    var op, p := OpAt(c.code, m.pc), PaidFor(env, c, m);
    PaidStack(env, c, m);
    Executes(env, c, depth, m);
    EnoughStack(RoutineOf(op), p);
    ProducedIs(env, c, op, RoutineOf(op), p);
    assert PushData(c.code, m.pc, op - 0x5f) == GetData(c.code, m.pc + 1, op - 0x5f);
  }

  /** DUPn copies the n-th word, SWAPn exchanges the top with the one n below, POP drops the top, JUMPDEST does nothing. */
  lemma StackMoves(env: Env, c: Context, depth: nat, m: Machine)
    requires Passes(env, c, m) && var op := OpAt(c.code, m.pc); IsDup(op) || IsSwap(op) || op == 0x50 || op == 0x5b
    ensures var (op, p, t) := (OpAt(c.code, m.pc), PaidFor(env, c, m), TurnOf(env, c, depth, m));
            && t.Next? && t.m == p.(pc := m.pc + 1, stack := t.m.stack)
            && (IsDup(op) ==> t.m.stack == m.stack + [m.stack[|m.stack| - (op - 0x7f)]])
            && (IsSwap(op) ==> Swapped(m.stack, t.m.stack, op - 0x8f))
            && (op == 0x50 ==> t.m.stack == m.stack[..|m.stack| - 1])
            && (op == 0x5b ==> t.m.stack == m.stack)
  {
    hide Passes, Due, PaidFor, Effect, Enough, TurnOf, Takes, Exchanged, Swapped;
    var op, p := OpAt(c.code, m.pc), PaidFor(env, c, m);
    PaidStack(env, c, m);
    Executes(env, c, depth, m);
    EnoughStack(RoutineOf(op), p);
    if IsDup(op) {
      ProducedIs(env, c, op, RoutineOf(op), p);
    } else {
      MovedIs(env, c, op, RoutineOf(op), p);
    }
  }

  /** The word each context instruction pushes. */
  lemma ContextWords(env: Env, c: Context, depth: nat, m: Machine)
    requires Passes(env, c, m) && IsContext(OpAt(c.code, m.pc))
    ensures var (op, p, t) := (OpAt(c.code, m.pc), PaidFor(env, c, m), TurnOf(env, c, depth, m));
            && t.Next? && |t.m.stack| == |m.stack| + 1 && t.m == p.(pc := m.pc + 1, stack := m.stack + [Back(t.m.stack, 0)])
            && var word := Back(t.m.stack, 0);
               && (op == 0x30 ==> word == c.self) && (op == 0x33 ==> word == c.caller)
               && (op == 0x34 ==> word == c.value % TWO_256)
               && (op == 0x36 ==> word == |c.input| % TWO_256) && (op == 0x38 ==> word == |c.code| % TWO_256)
               && (op == 0x3d ==> word == |m.returnData| % TWO_256)
               && (op == 0x47 ==> word == Acct(m.world, c.self).balance % TWO_256)
               && (op == 0x58 ==> word == m.pc % TWO_256) && (op == 0x59 ==> word == |m.store| % TWO_256)
               && (op == 0x5a ==> word == p.gas)
               && (op in {0x32, 0x3a, 0x41, 0x42, 0x43, 0x44, 0x46} ==> word == env.context(op))
  {
    hide Passes, Due, PaidFor, Effect, Enough, TurnOf, Takes;
    var op, p := OpAt(c.code, m.pc), PaidFor(env, c, m);
    PaidStack(env, c, m);
    KeepsMemory(env, c, m);
    Executes(env, c, depth, m);
    EnoughStack(RoutineOf(op), p);
    ProducedIs(env, c, op, RoutineOf(op), p);
  }

  /** The word that takes the place of the one that names it. */
  lemma LookupWords(env: Env, c: Context, depth: nat, m: Machine)
    requires Passes(env, c, m) && IsLookup(OpAt(c.code, m.pc))
    ensures var (op, p, t) := (OpAt(c.code, m.pc), PaidFor(env, c, m), TurnOf(env, c, depth, m));
            && t.Next? && |t.m.stack| == |m.stack| > 0
            && t.m == p.(pc := m.pc + 1, stack := m.stack[..|m.stack| - 1] + [Back(t.m.stack, 0)])
            && var (top, word) := (Back(m.stack, 0), Back(t.m.stack, 0));
               var there := Acct(m.world, top % TWO_160);
               && (op == 0x31 ==> word == there.balance % TWO_256)
               && (op == 0x35 ==> word == if top < TWO_64 then WordOf(GetData(c.input, top, 32)) else 0)
               && (op == 0x3b ==> word == |there.code| % TWO_256)
               && (op == 0x3f ==>
                     word == if there.balance == 0 && there.nonce == 0 && there.code == [] then 0 else env.keccak(there.code))
               && (op == 0x40 ==> word == env.blockHash(top))
               && (op == 0x54 ==> word == Slot(Acct(m.world, c.self).storage, top))
  {
    hide Passes, Due, PaidFor, Effect, Enough, TurnOf, Takes, WordOf;
    var op, p := OpAt(c.code, m.pc), PaidFor(env, c, m);
    PaidStack(env, c, m);
    Executes(env, c, depth, m);
    EnoughStack(RoutineOf(op), p);
    ProducedIs(env, c, op, RoutineOf(op), p);
  }

  /** Memory only ever grows, by zeros, to whole words that hold what the instruction names. */
  lemma MemoryGrows(env: Env, c: Context, m: Machine)
    requires Passes(env, c, m)
    ensures var (op, store) := (OpAt(c.code, m.pc), PaidFor(env, c, m).store);
            && |store| == Larger(|m.store|, 32 * Words(Names(op, m.stack))) >= Names(op, m.stack)
            && m.store <= store && forall i | |m.store| <= i < |store| :: store[i] == 0
  {
    hide Passes, Due, Names;
  }

  /** The bytes at a place in memory. */
  function BytesAt(store: seq<byte>, off: Word, len: Word): seq<byte>
    requires End(off, len) <= |store|
  {
    if len == 0 then [] else store[off..off + len]
  }

  /** Hashing and loading. */
  lemma MemoryReads(env: Env, c: Context, depth: nat, m: Machine)
    requires Passes(env, c, m) && OpAt(c.code, m.pc) in {0x20, 0x51}
    ensures var (op, p, s, t) := (OpAt(c.code, m.pc), PaidFor(env, c, m), m.stack, TurnOf(env, c, depth, m));
            && |s| >= Takes(op) && Names(op, s) <= |p.store|
            && (op == 0x20 ==>
                  t == Next(p.(pc := m.pc + 1, stack := s[..|s| - 2] + [env.keccak(BytesAt(p.store, Back(s, 0), Back(s, 1)))])))
            && (op == 0x51 ==> t == Next(p.(pc := m.pc + 1, stack := s[..|s| - 1] + [WordOf(BytesAt(p.store, Back(s, 0), 32))])))
  {
    hide Passes, Due, PaidFor, Effect, Enough, TurnOf, WordOf;
    var op, p := OpAt(c.code, m.pc), PaidFor(env, c, m);
    PaidStack(env, c, m);
    MemoryGrows(env, c, m);
    Executes(env, c, depth, m);
    EnoughStack(RoutineOf(op), p);
    ProducedIs(env, c, op, RoutineOf(op), p);
  }

  /** Every byte outside an area is as it was. */
  predicate SameOutside(store: seq<byte>, store': seq<byte>, off: nat, len: nat) {
    |store'| == |store| && forall i | 0 <= i < |store| && !(off <= i < off + len) :: store'[i] == store[i]
  }

  /** A stored word is what a load finds there; a stored byte is the last of its word; nothing else in memory changes. */
  lemma MemoryWrites(env: Env, c: Context, depth: nat, m: Machine)
    requires Passes(env, c, m) && OpAt(c.code, m.pc) in {0x52, 0x53}
    ensures var (op, p, s, t) := (OpAt(c.code, m.pc), PaidFor(env, c, m), m.stack, TurnOf(env, c, depth, m));
            && t.Next? && |s| >= 2 && t.m == p.(pc := m.pc + 1, stack := s[..|s| - 2], store := t.m.store)
            && var (off, v) := (Back(s, 0), Back(s, 1));
               && (op == 0x52 ==>
                     off + 32 <= |p.store| && SameOutside(p.store, t.m.store, off, 32) && WordOf(t.m.store[off..off + 32]) == v)
               && (op == 0x53 ==> off < |p.store| && SameOutside(p.store, t.m.store, off, 1) && t.m.store[off] == v % 256)
  {
    hide Passes, Due, PaidFor, Effect, Enough, TurnOf, WordOf, ToBytes;
    var op, p, s := OpAt(c.code, m.pc), PaidFor(env, c, m), m.stack;
    PaidStack(env, c, m);
    Executes(env, c, depth, m);
    EnoughMemory(RoutineOf(op), p);
    StoredIs(env, c, op, RoutineOf(op), p);
    if op == 0x52 { StoreThenLoad(p.store, Back(s, 0), Back(s, 1)); }
  }

  /** Nothing of the account but its storage differs. */
  predicate OnlyStorage(a: Account, a': Account) { a' == a.(storage := a'.storage) }

  /** SSTORE: the slot holds the word, every other slot and account is as before, and clearing a slot is refunded. */
  lemma StorageWrites(env: Env, c: Context, depth: nat, m: Machine)
    requires Passes(env, c, m) && OpAt(c.code, m.pc) == 0x55
    ensures var (p, s, t) := (PaidFor(env, c, m), m.stack, TurnOf(env, c, depth, m));
            && t.Next? && |s| >= 2 && t.m == p.(pc := m.pc + 1, stack := s[..|s| - 2], world := t.m.world)
            && var (key, v, w, w') := (Back(s, 0), Back(s, 1), m.world, t.m.world);
               var (was, now) := (Acct(w, c.self), Acct(w', c.self));
               && OnlyStorage(was, now) && Slot(now.storage, key) == v
               && (forall k | k != key :: Slot(now.storage, k) == Slot(was.storage, k))
               && (forall a | a != c.self :: Acct(w', a) == Acct(w, a)) && w'.logs == w.logs
               && w'.refund == w.refund + if Slot(was.storage, key) != 0 && v == 0 then 15000 else 0
  {
    hide Passes, Due, PaidFor, Effect, Enough, TurnOf, Stored, OnlyStorage;
    var op, p := OpAt(c.code, m.pc), PaidFor(env, c, m);
    PaidStack(env, c, m);
    Executes(env, c, depth, m);
    EnoughChange(RoutineOf(op), p);
    var p1 := p.(world := Credited(DynamicOf(op), m.world, c.self, m.stack));
    EnoughIn(RoutineOf(op), p, p1);
    StoredIs(env, c, op, RoutineOf(op), p1);
    SlotStored(p1.world, c.self, Back(m.stack, 0), Back(m.stack, 1));
  }

  lemma SlotStored(w: World, self: Address, key: Word, v: Word)
    ensures var w' := Stored(w, self, key, v);
            var (was, now) := (Acct(w, self), Acct(w', self));
            && OnlyStorage(was, now) && Slot(now.storage, key) == v
            && (forall k | k != key :: Slot(now.storage, k) == Slot(was.storage, k))
            && (forall a | a != self :: Acct(w', a) == Acct(w, a)) && w'.logs == w.logs && w'.refund == w.refund
  {
  }

  lemma EnoughChange(e: Exec, m: Machine)
    requires Enough(e, m)
    ensures e.SStore? ==> Pops(e) == 2 <= |m.stack|
    ensures e.Log? ==> Pops(e) == e.topics + 2 <= |m.stack| && Inside(Back(m.stack, 0), Back(m.stack, 1), |m.store|)
    ensures e.SelfDestruct? || e.Jump? ==> Pops(e) == 1 <= |m.stack|
    ensures e.JumpI? ==> Pops(e) == 2 <= |m.stack|
  {}

  /** JUMP goes to a JUMPDEST or fails; JUMPI does so only if its condition is not zero. */
  lemma Jumps(env: Env, c: Context, depth: nat, m: Machine)
    requires Passes(env, c, m) && OpAt(c.code, m.pc) in {0x56, 0x57}
    ensures var (op, p, s, t) := (OpAt(c.code, m.pc), PaidFor(env, c, m), m.stack, TurnOf(env, c, depth, m));
            && |s| >= Takes(op)
            && var stays := op == 0x57 && Back(s, 1) == 0;
               t == if stays then Next(p.(pc := m.pc + 1, stack := s[..|s| - 2]))
                    else if ValidDest(c.code, Back(s, 0)) then Next(p.(pc := Back(s, 0), stack := s[..|s| - Takes(op)]))
                    else Over(Failed(ErrInvalidJump, m.polls))
  {
    hide Passes, Due, PaidFor, Effect, Enough, TurnOf, ValidDest;
    var op, p := OpAt(c.code, m.pc), PaidFor(env, c, m);
    PaidStack(env, c, m);
    Executes(env, c, depth, m);
    EnoughChange(RoutineOf(op), p);
    JumpedIs(env, c, op, RoutineOf(op), p);
  }

  /** Byte by byte: the area holds the data from a position on, with zeros past its end. */
  predicate HoldsCopy(store: seq<byte>, off: nat, len: nat, data: seq<byte>, from: nat) {
    && off + len <= |store|
    && forall i | off <= i < off + len :: store[i] == var j := from + i - off; if j < |data| then data[j] else 0
  }

  /** What a copy instruction copies. */
  function DataOf(op: byte, c: Context, m: Machine): seq<byte>
    requires Takes(op) <= |m.stack|
  {
    if op == 0x37 then c.input
    else if op == 0x39 then c.code
    else if op == 0x3c then Acct(m.world, Back(m.stack, 0) % TWO_160).code
    else m.returnData
  }

  /** Copies put the bytes asked for into memory and change nothing else of it; return data must have them all. */
  lemma MemoryCopies(env: Env, c: Context, depth: nat, m: Machine)
    requires Passes(env, c, m) && OpAt(c.code, m.pc) in {0x37, 0x39, 0x3c, 0x3e}
    ensures var (op, p, s, t) := (OpAt(c.code, m.pc), PaidFor(env, c, m), m.stack, TurnOf(env, c, depth, m));
            && |s| >= Takes(op) == (if op == 0x3c then 4 else 3)
            && var k := if op == 0x3c then 1 else 0;
               var (off, from, len, data) := (Back(s, k), Back(s, k + 1), Back(s, k + 2), DataOf(op, c, m));
               if op == 0x3e && !(from + len <= |data| && from < TWO_64 && from + len < TWO_64)
               then t == Over(Failed(ErrReturnDataOutOfBounds, m.polls))
               else
                 && t.Next? && t.m == p.(pc := m.pc + 1, stack := s[..|s| - Takes(op)], store := t.m.store)
                 && SameOutside(p.store, t.m.store, off, len)
                 && (len > 0 ==> HoldsCopy(t.m.store, off, len, data, Min(from, TWO_64 - 1)))
  {
    hide Passes, Due, PaidFor, Effect, Enough, TurnOf, GetData, Write, Copied, SameOutside, HoldsCopy, CopySource,
      CopyArgs, RoutineOf, Pops, Takes, Covered;
    var op, p, s := OpAt(c.code, m.pc), PaidFor(env, c, m), m.stack;
    PaidStack(env, c, m);
    Executes(env, c, depth, m);
    CopyShape(op, c, p);
    CopiedIs(env, c, op, RoutineOf(op), p);
    var k := if op == 0x3c then 1 else 0;
    CopiedBytes(p.store, Back(s, k), Back(s, k + 1), Back(s, k + 2), DataOf(op, c, m));
  }

  lemma CopyShape(op: byte, c: Context, m: Machine)
    requires op in {0x37, 0x39, 0x3c, 0x3e} && Enough(RoutineOf(op), m)
    ensures var (e, s, k) := (RoutineOf(op), m.stack, if op == 0x3c then 1 else 0);
            && Copies(e) && (e.ReturnDataCopy? <==> op == 0x3e) && Pops(e) == Takes(op) == k + 3 <= |s|
            && CopySource(c, e, m) == DataOf(op, c, m) && Inside(Back(s, k), Back(s, k + 2), |m.store|)
            && var args := CopyArgs(e, s);
               && |args| >= 3 && Back(args, 0) == Back(s, k) && Back(args, 1) == Back(s, k + 1) && Back(args, 2) == Back(s, k + 2)
  {
    hide Enough;
    EnoughCopy(RoutineOf(op), m);
  }

  lemma CopiedBytes(store: seq<byte>, off: Word, from: Word, len: Word, data: seq<byte>)
    requires Inside(off, len, |store|)
    ensures var store' := Copied(store, off, from, len, data);
            && SameOutside(store, store', off, len) && (len > 0 ==> HoldsCopy(store', off, len, data, Min(from, TWO_64 - 1)))
  {
    hide GetData, Write;
    if len > 0 { WrittenBytes(store, off, GetData(data, Min(from, TWO_64 - 1), len)); }
  }

  lemma WrittenBytes(store: seq<byte>, off: nat, bs: seq<byte>)
    requires off + |bs| <= |store|
    ensures SameOutside(store, Write(store, off, bs), off, |bs|)
    ensures forall i | off <= i < off + |bs| :: Write(store, off, bs)[i] == bs[i - off]
  {}

  /** LOGn adds one log: the account, the n words above offset and length in the order popped, and the bytes named. */
  lemma LogAdded(env: Env, c: Context, depth: nat, m: Machine)
    requires Passes(env, c, m) && IsLog(OpAt(c.code, m.pc))
    ensures var (n, p, s, t) := (OpAt(c.code, m.pc) - 0xa0, PaidFor(env, c, m), m.stack, TurnOf(env, c, depth, m));
            && t.Next? && |s| >= n + 2 && t.m == p.(pc := m.pc + 1, stack := s[..|s| - n - 2], world := t.m.world)
            && End(Back(s, 0), Back(s, 1)) <= |p.store|
            && t.m.world.accounts == m.world.accounts && t.m.world.refund == m.world.refund
            && |t.m.world.logs| == |m.world.logs| + 1 && t.m.world.logs[..|m.world.logs|] == m.world.logs
            && var log := t.m.world.logs[|m.world.logs|];
               && log.address == c.self && log.data == BytesAt(p.store, Back(s, 0), Back(s, 1))
               && |log.topics| == n && (forall i | 0 <= i < n :: log.topics[i] == s[|s| - 3 - i])
  {
    hide Passes, Due, PaidFor, Effect, Enough, TurnOf;
    var op, p := OpAt(c.code, m.pc), PaidFor(env, c, m);
    PaidStack(env, c, m);
    Executes(env, c, depth, m);
    EnoughChange(RoutineOf(op), p);
    StoredIs(env, c, op, RoutineOf(op), p);
  }

  /** STOP and RETURN end the run with its gas, world and the bytes named; REVERT ends it with gas and bytes only. */
  lemma RunEnds(env: Env, c: Context, depth: nat, m: Machine)
    requires Passes(env, c, m) && OpAt(c.code, m.pc) in {0x00, 0xf3, 0xfd}
    ensures var (op, p, s, t) := (OpAt(c.code, m.pc), PaidFor(env, c, m), m.stack, TurnOf(env, c, depth, m));
            && |s| >= Takes(op)
            && (op == 0x00 ==> t == Over(Finished([], p.gas, m.world, m.polls)))
            && (op != 0x00 ==>
                  && End(Back(s, 0), Back(s, 1)) <= |p.store|
                  && var ret := BytesAt(p.store, Back(s, 0), Back(s, 1));
                     t == Over(if op == 0xf3 then Finished(ret, p.gas, m.world, m.polls) else Reverted(ret, p.gas, m.polls)))
  {
    hide Passes, Due, PaidFor, Effect, Enough, TurnOf;
    var op, p := OpAt(c.code, m.pc), PaidFor(env, c, m);
    PaidStack(env, c, m);
    Executes(env, c, depth, m);
    EnoughMemory(RoutineOf(op), p);
    EndedIs(env, c, op, RoutineOf(op), p);
  }

  lemma DestructedIs(w: World, self: Address, a: Address)
    ensures var w' := Destructed(w, self, a);
            && (self in w.accounts || a == self ==> Acct(w', self) == Acct(w, self).(balance := 0, suicided := true))
            && (self !in w.accounts && a != self ==> self !in w'.accounts)
            && (a != self ==> Acct(w', a) == Acct(w, a).(balance := Acct(w, a).balance + Acct(w, self).balance))
            && (forall b | b != a && b != self :: Acct(w', b) == Acct(w, b))
            && w'.logs == w.logs && w'.refund == w.refund
  {}

  /** SELFDESTRUCT pays everything out and marks the account, if it is there; one that names itself burns its balance. */
  lemma Destructs(env: Env, c: Context, depth: nat, m: Machine)
    requires Passes(env, c, m) && OpAt(c.code, m.pc) == 0xff
    ensures var (p, s, t) := (PaidFor(env, c, m), m.stack, TurnOf(env, c, depth, m));
            && |s| >= 1 && t.Over? && t.out.Finished? && t.out == Finished([], p.gas, t.out.world, m.polls)
            && var (a, w, w') := (Back(s, 0) % TWO_160, m.world, t.out.world);
               && (c.self in w.accounts || a == c.self ==> Acct(w', c.self) == Acct(w, c.self).(balance := 0, suicided := true))
               && (c.self !in w.accounts && a != c.self ==> c.self !in w'.accounts)
               && (a != c.self ==> Acct(w', a) == Acct(w, a).(balance := Acct(w, a).balance + Acct(w, c.self).balance))
               && (forall b | b != a && b != c.self :: Acct(w', b) == Acct(w, b))
               && w'.logs == w.logs && w'.refund == w.refund + if Acct(w, c.self).suicided then 0 else 24000
  {
    hide Passes, Due, PaidFor, Effect, Enough, TurnOf, Destructed;
    var op, p := OpAt(c.code, m.pc), PaidFor(env, c, m);
    PaidStack(env, c, m);
    Executes(env, c, depth, m);
    EnoughChange(RoutineOf(op), p);
    var p1 := p.(world := Credited(DynamicOf(op), m.world, c.self, m.stack));
    EnoughIn(RoutineOf(op), p, p1);
    EndedIs(env, c, op, RoutineOf(op), p1);
    DestructedIs(p1.world, c.self, ToAddress(Back(m.stack, 0)));
  }
}
