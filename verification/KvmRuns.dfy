/** Whole runs: when a turn is the last, what nested calls and creations come to, and how a frame reaches its end. */
module KvmRuns {
  import opened Basics
  import opened KvmGas
  import opened KvmCode
  import opened KvmWorld
  import opened KvmTable
  import opened KvmFrame
  import opened KvmPrice
  import opened KvmSemantics
  import opened KvmColumns
  import opened KvmLaws

  // ---------------------------------------------------------------- when a turn is the last

  /** The instruction jumps. */
  predicate Leaps(op: byte, s: seq<Word>)
    requires Takes(op) <= |s|
  {
    op == 0x56 || (op == 0x57 && Back(s, 1) != 0)
  }

  /** The part of the return data asked for is there, and its end fits a machine word. */
  predicate InReturnData(s: seq<Word>, data: seq<byte>)
    requires |s| >= 3
  {
    Back(s, 1) < TWO_64 && Back(s, 1) + Back(s, 2) < TWO_64 && Back(s, 1) + Back(s, 2) <= |data|
  }

  lemma EffectGoesOn(env: Env, c: Context, op: byte, e: Exec, m: Machine)
    requires Local(e) && Enough(e, m)
    ensures Ends(e) ==> Effect(env, c, op, e, m).Over? && !Effect(env, c, op, e, m).out.Failed?
    ensures !Ends(e) && !e.Jump? && !e.JumpI? && !e.ReturnDataCopy? ==> Effect(env, c, op, e, m).Next?
  {
    hide Enough, Produced, StoreEffect, Moves, Slice, Destructed;
  }

  predicate EndsRun(op: byte) { op in {0x00, 0xf3, 0xfd, 0xff} }

  lemma Kinds(op: byte)
    ensures var e := RoutineOf(op);
            forall galaxias | Defined(galaxias, op) ::
              && (EndsRun(op) <==> Ends(e)) && (op in {0x56, 0x57} <==> e.Jump? || e.JumpI?)
              && (op == 0x3e <==> e.ReturnDataCopy?)
              && (IsCall(op) <==> CallsOut(e)) && (op in {0xf0, 0xf5} <==> Creates(e))
  {}

  /** A call or creation that passes makes the frame it starts, and goes on with what comes of it. */
  lemma Nests(env: Env, c: Context, depth: nat, m: Machine)
    requires Passes(env, c, m) && !Local(RoutineOf(OpAt(c.code, m.pc)))
    ensures var (op, p, t) := (OpAt(c.code, m.pc), PaidFor(env, c, m), TurnOf(env, c, depth, m));
            var e := RoutineOf(op);
            && Enough(e, p)
            && (IsCall(op) ==>
                  && CallReady(e, p) && p.gas + HandedAt(env, c, m) < m.gas
                  && t == Next(AfterCall(e, p, CallOut(env, c, depth, e, p, HandedAt(env, c, m)))))
            && (Creates(e) ==> t == Next(AfterCreate(e, p, NewAddress(env, c, e, p), CreateOut(env, c, depth, e, p))))
  {
    hide Defined, Takes, Gives, Fits, CostAt, JumpTable, PaidFor, RoutineOf, Enough, Performed, Charged, InColumns,
      Credited, CallReady, AfterCall, AfterCreate, CallOut, CreateOut, NewAddress, HandedAt, Handed, EntryAt, DynamicOf;
    var op, o := OpAt(c.code, m.pc), EntryAt(env, c, m);
    EntryIs(env, c, m);
    InTheColumns(op, o);
    StackRoom(op, o);
    Kinds(op);
    ChargedIs(env, c, m);
    Executes(env, c, depth, m);
    PerformedPays(env, c, depth, op, o, m);
    NoCredit(op);
    PaidStack(env, c, m);
    if IsCall(op) { HandedIs(env, c, m); }
  }

  lemma EntryIs(env: Env, c: Context, m: Machine)
    requires Defined(env.galaxias, OpAt(c.code, m.pc))
    ensures JumpTable(env.galaxias, OpAt(c.code, m.pc)) == Some(EntryAt(env, c, m))
  {
    hide JumpTable, InColumns, Fits, Defined;
    Columns(env.galaxias, OpAt(c.code, m.pc));
  }

  lemma NoCredit(op: byte)
    requires !Local(RoutineOf(op))
    ensures op != 0x55 && op != 0xff
  {}

  /** A turn goes on exactly if its instruction passes, does not end the run, and neither jumps nor reads where it must not. */
  lemma GoesOn(env: Env, c: Context, depth: nat, m: Machine)
    ensures var (op, t) := (OpAt(c.code, m.pc), TurnOf(env, c, depth, m));
            && (t.Next? <==>
                  && Passes(env, c, m) && !EndsRun(op)
                  && (Leaps(op, m.stack) ==> ValidDest(c.code, Back(m.stack, 0)))
                  && (op == 0x3e ==> InReturnData(m.stack, m.returnData)))
            && (t.Next? && !IsCall(op) && op !in {0xf0, 0xf5} ==> t.m.gas == m.gas - Due(env, c, m).value)
  {
    hide Passes, Due, PaidFor, Effect, Enough, TurnOf, RoutineOf, ValidDest, Takes, Defined;
    var op, t := OpAt(c.code, m.pc), TurnOf(env, c, depth, m);
    if !Passes(env, c, m) {
      Refusals(env, c, depth, m);
    } else {
      Executes(env, c, depth, m);
      PassesStack(env, c, m);
      Kinds(op);
      if !Local(RoutineOf(op)) {
        Nests(env, c, depth, m);
      } else if op in {0x56, 0x57} {
        Jumps(env, c, depth, m);
      } else if op == 0x3e {
        MemoryCopies(env, c, depth, m);
      } else {
        SurchargeIs(op, m.world, c.self, m.stack);
        var p1 := PaidFor(env, c, m).(world := Credited(DynamicOf(op), m.world, c.self, m.stack));
        EnoughIn(RoutineOf(op), PaidFor(env, c, m), p1);
        EffectGoesOn(env, c, op, RoutineOf(op), p1);
      }
      PaidGas(env, c, m);
    }
  }

  lemma PassesStack(env: Env, c: Context, m: Machine)
    requires Passes(env, c, m)
    ensures Defined(env.galaxias, OpAt(c.code, m.pc)) && Takes(OpAt(c.code, m.pc)) <= |m.stack|
  {
    hide Defined, Takes, Due;
  }

  lemma PaidGas(env: Env, c: Context, m: Machine)
    requires Passes(env, c, m)
    ensures PaidFor(env, c, m).gas == m.gas - Due(env, c, m).value
  {
    hide Passes, Due;
  }

  // ---------------------------------------------------------------- what a call or creation instruction comes to

  /** The first bytes of the result are at off, as many as there are and were asked for, and nothing else differs. */
  predicate WroteBack(store: seq<byte>, store': seq<byte>, off: nat, size: nat, ret: seq<byte>) {
    var n := Min(size, |ret|);
    if n == 0 then store' == store
    else SameOutside(store, store', off, n) && off + n <= |store'| && store'[off..off + n] == ret[..n]
  }

  /** Where a call's arguments start on the stack: one deeper when it carries a value. */
  function ArgsFrom(op: byte): nat { if op in {0xf1, 0xf2} then 1 else 0 }

  /** The arguments of a call are on the stack, and the bytes it passes are in memory. */
  predicate HasCallArgs(op: byte, m: Machine) {
    var (s, k) := (m.stack, ArgsFrom(op));
    |s| >= 6 + k && End(Back(s, 2 + k), Back(s, 3 + k)) <= |m.store|
  }

  /** Who runs whose code for which account, by opcode, and with which arguments. */
  function Answer(env: Env, c: Context, depth: nat, op: byte, m: Machine, gas: uint64): (r: Result)
    requires HasCallArgs(op, m)
    ensures r.left <= gas
  {
    var (s, k) := (m.stack, ArgsFrom(op));
    var (a, args) := (Back(s, 1) % TWO_160, BytesAt(m.store, Back(s, 2 + k), Back(s, 3 + k)));
    if op == 0xf1 then CallResult(env, depth, c.readOnly, c.self, a, args, gas, Back(s, 2), m.world, m.polls)
    else if op == 0xf2 then CallCodeResult(env, depth, c.readOnly, c.self, a, args, gas, Back(s, 2), m.world, m.polls)
    else if op == 0xf4 then DelegateResult(env, depth, c.readOnly, c.self, c.caller, c.value, a, args, gas, m.world, m.polls)
    else StaticResult(env, depth, c.self, a, args, gas, m.world, m.polls)
  }

  /** The frame has a flag for the outcome, the result where it was asked for, and the gas that was left. */
  predicate CameBack(op: byte, m: Machine, r: Result, m': Machine) {
    var (s, k) := (m.stack, ArgsFrom(op));
    && |s| >= 6 + k && m.gas + r.left < TWO_64
    && m' == Machine(m.pc + 1, s[..|s| - 6 - k] + [if r.err.None? then 1 else 0], m'.store, m.gas + r.left, r.ret, r.world,
                     r.polls)
    && (if r.err.None? || r.err.value == ErrExecutionReverted
        then WroteBack(m.store, m'.store, Back(s, 4 + k), Back(s, 5 + k), r.ret) else m'.store == m.store)
  }

  /** A call instruction goes on with the answer of the frame, or the precompile, that it started. */
  lemma CallTurns(env: Env, c: Context, depth: nat, m: Machine)
    requires Passes(env, c, m) && IsCall(OpAt(c.code, m.pc))
    ensures var (op, p, t, gas) := (OpAt(c.code, m.pc), PaidFor(env, c, m), TurnOf(env, c, depth, m), HandedAt(env, c, m));
            HasCallArgs(op, p) && p.gas + gas < m.gas && t.Next? && CameBack(op, p, Answer(env, c, depth, op, p, gas), t.m)
  {
    hide Passes, Due, PaidFor, Enough, TurnOf, HandedAt, Takes, RoutineOf, CallOut, Answer, AfterCall, CallReady, IsCall,
      CameBack, HasCallArgs;
    var op, p := OpAt(c.code, m.pc), PaidFor(env, c, m);
    PaidStack(env, c, m);
    CallRoutine(op);
    Nests(env, c, depth, m);
    CallOutIs(env, c, depth, op, p, HandedAt(env, c, m));
    AfterCallIs(op, p, CallOut(env, c, depth, RoutineOf(op), p, HandedAt(env, c, m)));
  }

  lemma CallOutIs(env: Env, c: Context, depth: nat, op: byte, m: Machine, gas: uint64)
    requires IsCall(op) && CallReady(RoutineOf(op), m)
    ensures HasCallArgs(op, m) && CallOut(env, c, depth, RoutineOf(op), m, gas) == Answer(env, c, depth, op, m, gas)
  {
    hide CallResult, CallCodeResult, DelegateResult, StaticResult, RoutineOf;
    CallRoutine(op);
  }

  lemma AfterCallIs(op: byte, m: Machine, r: Result)
    requires IsCall(op) && CallReady(RoutineOf(op), m) && m.gas + r.left < TWO_64
    ensures CameBack(op, m, r, AfterCall(RoutineOf(op), m, r))
  {
    hide RoutineOf, WroteBack, Write;
    CallRoutine(op);
    WrittenBackIs(m.store, Back(m.stack, 4 + ArgsFrom(op)), Back(m.stack, 5 + ArgsFrom(op)), r.ret);
  }

  lemma CallRoutine(op: byte)
    requires IsCall(op)
    ensures var e := RoutineOf(op);
            && CallsOut(e) && Shift(e) == ArgsFrom(op) && (e.Call? <==> op == 0xf1) && (e.CallCode? <==> op == 0xf2)
            && (e.DelegateCall? <==> op == 0xf4)
  {}

  lemma WrittenBackIs(store: seq<byte>, off: Word, size: Word, ret: seq<byte>)
    requires Inside(off, size, |store|)
    ensures WroteBack(store, if size > 0 then Write(store, off, ret[..Min(size, |ret|)]) else store, off, size, ret)
  {
    hide Write, SameOutside;
    var bs := ret[..Min(size, |ret|)];
    if size > 0 {
      WrittenBytes(store, off, bs);
      if bs == [] { assert Write(store, off, bs) == store by { NothingWritten(store, off); } }
      else { assert Write(store, off, bs)[off..off + |bs|] == bs; }
    }
  }

  lemma NothingWritten(store: seq<byte>, off: nat)
    requires off <= |store|
    ensures Write(store, off, []) == store
  {
    assert store[..off] + [] + store[off..] == store;
  }

  /** The gas a creation gets: CREATE keeps one 64th back. */
  function CreationGas(op: byte, gas: uint64): uint64 { if op == 0xf0 then gas - gas / 64 else gas }

  /** The code of the new contract is in memory. */
  predicate HasInitCode(op: byte, m: Machine) {
    |m.stack| >= Takes(op) >= 3 && End(Back(m.stack, 1), Back(m.stack, 2)) <= |m.store|
  }

  /** A new contract's address: from the creator's nonce, or from the salt and the code. */
  function AddressAt(env: Env, c: Context, op: byte, m: Machine): Address
    requires op in {0xf0, 0xf5} && HasInitCode(op, m)
  {
    if op == 0xf0 then env.createAddress(c.self, Acct(m.world, c.self).nonce)
    else env.createAddress2(c.self, Back(m.stack, 3), BytesAt(m.store, Back(m.stack, 1), Back(m.stack, 2)))
  }

  function Creation(env: Env, c: Context, depth: nat, op: byte, m: Machine): (r: Result)
    requires op in {0xf0, 0xf5} && HasInitCode(op, m)
    ensures r.left <= CreationGas(op, m.gas)
  {
    var (s, gas) := (m.stack, CreationGas(op, m.gas));
    CreateResult(env, depth, c.self, BytesAt(m.store, Back(s, 1), Back(s, 2)), gas, Back(s, 0), AddressAt(env, c, op, m),
                 m.world, m.polls)
  }

  /** The frame has the new address or zero, and data only from a revert. */
  predicate CreatedBack(op: byte, m: Machine, a: Address, r: Result, m': Machine)
    requires Takes(op) <= |m.stack| && r.left <= CreationGas(op, m.gas)
  {
    m' == Machine(m.pc + 1, m.stack[..|m.stack| - Takes(op)] + [if r.err.None? then a else 0], m.store,
                  m.gas - CreationGas(op, m.gas) + r.left, if r.err == Some(ErrExecutionReverted) then r.ret else [],
                  r.world, r.polls)
  }

  /** A creation instruction goes on with what came of running the creation code. */
  lemma CreateTurns(env: Env, c: Context, depth: nat, m: Machine)
    requires Passes(env, c, m) && OpAt(c.code, m.pc) in {0xf0, 0xf5}
    ensures var (op, p, t) := (OpAt(c.code, m.pc), PaidFor(env, c, m), TurnOf(env, c, depth, m));
            && HasInitCode(op, p) && t.Next?
            && CreatedBack(op, p, AddressAt(env, c, op, p), Creation(env, c, depth, op, p), t.m)
  {
    hide Passes, Due, PaidFor, Enough, TurnOf, RoutineOf, CreateOut, AfterCreate, NewAddress, Creation, AddressAt, CreatedBack,
      HasInitCode, Takes;
    var op, p := OpAt(c.code, m.pc), PaidFor(env, c, m);
    PaidStack(env, c, m);
    CreateRoutine(op);
    Nests(env, c, depth, m);
    CreateOutIs(env, c, depth, op, p);
  }

  lemma CreateRoutine(op: byte)
    requires op in {0xf0, 0xf5}
    ensures Creates(RoutineOf(op)) && (RoutineOf(op).Create? <==> op == 0xf0) && Takes(op) == Pops(RoutineOf(op))
  {}

  lemma CreateOutIs(env: Env, c: Context, depth: nat, op: byte, m: Machine)
    requires op in {0xf0, 0xf5} && Creates(RoutineOf(op)) && Enough(RoutineOf(op), m)
    ensures HasInitCode(op, m)
    ensures var (e, a) := (RoutineOf(op), AddressAt(env, c, op, m));
            && NewAddress(env, c, e, m) == a
            && CreatedBack(op, m, a, Creation(env, c, depth, op, m), AfterCreate(e, m, a, CreateOut(env, c, depth, e, m)))
  {
    hide Enough, CreateResult, RoutineOf, Takes, Pops;
    CreateRoutine(op);
    EnoughCall(RoutineOf(op), m);
  }

  // ---------------------------------------------------------------- calls and creations

  /** Moving value: it leaves the sender and reaches the recipient, whose account is there afterwards. */
  lemma PaidIs(w: World, caller: Address, a: Address, value: nat)
    ensures var w' := Paid(w, caller, a, value);
            && a in w'.accounts && w'.logs == w.logs && w'.refund == w.refund
            && (forall b | b != a && b != caller :: Acct(w', b) == Acct(w, b))
            && (a == caller ==> Acct(w', a) == Acct(w, a))
            && (a != caller ==>
                  && Acct(w', caller) == Acct(w, caller).(balance := Acct(w, caller).balance - value)
                  && Acct(w', a) == Acct(w, a).(balance := Acct(w, a).balance + value))
  {}

  /** A new contract: nothing but the balance found there and the endowment, with nonce one. */
  lemma EndowedIs(w: World, caller: Address, a: Address, value: nat)
    ensures var w' := Endowed(w, caller, a, value);
            && w'.logs == w.logs && w'.refund == w.refund
            && (forall b | b != a && b != caller :: Acct(w', b) == Acct(w, b))
            && (caller != a ==> Acct(w', caller) == Acct(w, caller).(balance := Acct(w, caller).balance - value))
            && Acct(w', a) == Account(Acct(w, a).balance + (if caller == a then 0 else value), 1, [], map[], false)
  {}

  /** What a call makes of the way its callee ended, when the world was w before anything was done. */
  predicate Ended(out: Outcome, w: World, r: Result) {
    && (out.Finished? ==> r == Result(out.ret, out.left, None, out.world, out.polls))
    && (out.Reverted? ==> r == Result(out.ret, out.left, Some(ErrExecutionReverted), w, out.polls))
    && (out.Failed? ==> r == Result([], 0, Some(out.error), w, out.polls))
  }

  /** What running a precompile comes to: enough gas and a result, or a failure. */
  predicate PrecompileEnds(env: Env, a: Address, input: seq<byte>, gas: uint64, w: World, polls: nat, out: Outcome) {
    var (cost, ret) := (env.requiredGas(a, input), env.runPrecompile(a, input));
    if gas < cost then out == Failed(ErrOutOfGas, polls)
    else if ret.None? then out == Failed(ErrPrecompile, polls)
    else out == Finished(ret.value, gas - cost, w, polls)
  }

  /** Everything a call can come to. */
  lemma CallEnds(env: Env, depth: nat, ro: bool, caller: Address, a: Address, input: seq<byte>, gas: uint64, value: nat, w: World,
                 polls: nat)
    ensures var r := CallResult(env, depth, ro, caller, a, input, gas, value, w, polls);
            var (paid, code) := (Paid(w, caller, a, value), Acct(w, a).code);
            if env.noRecursion && depth > 0 then r == Result([], gas, None, w, polls)
            else if depth > 1024 then r == Result([], gas, Some(ErrDepth), w, polls)
            else if value > 0 && value > Acct(w, caller).balance then r == Result([], gas, Some(ErrInsufficientBalance), w, polls)
            else if env.isPrecompile(a) then
              var out := Precompiled(env, a, input, gas, paid, polls);
              PrecompileEnds(env, a, input, gas, paid, polls, out) && Ended(out, w, r)
            else if code == [] then r == Result([], gas, None, if a !in w.accounts && value == 0 then w else paid, polls)
            else Ended(RunCode(env, depth, Context(code, a, caller, value, input, ro), gas, paid, polls), w, r)
  {
    hide RunAt, RunCode, Settled, Paid, PrecompileEnds, Ended;
    PaidIs(w, caller, a, value);
    RunsAtIs(env, depth, a, Context(Acct(w, a).code, a, caller, value, input, ro), gas, Paid(w, caller, a, value), w, polls);
  }

  /** What a call that borrows another account's code, or a static call, comes to once it is not refused. */
  predicate RunsAt(env: Env, depth: nat, a: Address, c: Context, gas: uint64, w: World, before: World, polls: nat, r: Result) {
    if env.isPrecompile(a) then
      var out := Precompiled(env, a, c.input, gas, w, polls);
      PrecompileEnds(env, a, c.input, gas, w, polls, out) && Ended(out, before, r)
    else if c.code == [] then r == Result([], gas, None, w, polls)
    else Ended(RunCode(env, depth, c, gas, w, polls), before, r)
  }

  lemma RunsAtIs(env: Env, depth: nat, a: Address, c: Context, gas: uint64, w: World, before: World, polls: nat)
    ensures RunsAt(env, depth, a, c, gas, w, before, polls, Settled(before, RunAt(env, depth, a, c, gas, w, polls)))
  {
    hide RunFrom;
  }

  lemma BorrowedCallsEnd(env: Env, depth: nat, ro: bool, self: Address, caller: Address, value: nat, a: Address, input: seq<byte>,
                         gas: uint64, w: World, polls: nat)
    ensures var (skipped, code) := (env.noRecursion && depth > 0, Acct(w, a).code);
            var r := CallCodeResult(env, depth, ro, caller, a, input, gas, value, w, polls);
            if skipped then r == Result([], gas, None, w, polls)
            else if depth > 1024 then r == Result([], gas, Some(ErrDepth), w, polls)
            else if value > Acct(w, caller).balance then r == Result([], gas, Some(ErrInsufficientBalance), w, polls)
            else RunsAt(env, depth, a, Context(code, caller, caller, value, input, ro), gas, w, w, polls, r)
    ensures var (skipped, code) := (env.noRecursion && depth > 0, Acct(w, a).code);
            var r := DelegateResult(env, depth, ro, self, caller, value, a, input, gas, w, polls);
            if skipped then r == Result([], gas, None, w, polls)
            else if depth > 1024 then r == Result([], gas, Some(ErrDepth), w, polls)
            else RunsAt(env, depth, a, Context(code, self, caller, value, input, ro), gas, w, w, polls, r)
  {
    hide RunAt, Settled, RunsAt;
    var code := Acct(w, a).code;
    RunsAtIs(env, depth, a, Context(code, caller, caller, value, input, ro), gas, w, w, polls);
    RunsAtIs(env, depth, a, Context(code, self, caller, value, input, ro), gas, w, w, polls);
  }

  /** A static call runs the callee read-only; all it may leave behind is an empty account. */
  lemma StaticCallEnds(env: Env, depth: nat, caller: Address, a: Address, input: seq<byte>, gas: uint64, w: World, polls: nat)
    ensures var r := StaticResult(env, depth, caller, a, input, gas, w, polls);
            var touched := Put(w, a, Acct(w, a));
            && SameState(w, touched)
            && if env.noRecursion && depth > 0 then r == Result([], gas, None, w, polls)
               else if depth > 1024 then r == Result([], gas, Some(ErrDepth), w, polls)
               else RunsAt(env, depth, a, Context(Acct(w, a).code, a, caller, 0, input, true), gas, touched, w, polls, r)
  {
    hide RunAt, Settled, RunsAt;
    RunsAtIs(env, depth, a, Context(Acct(w, a).code, a, caller, 0, input, true), gas, Touched(w, a), w, polls);
  }

  /** Everything a creation can come to; bumped is the world once the creator's nonce has gone up. */
  lemma CreationEnds(env: Env, depth: nat, caller: Address, code: seq<byte>, gas: uint64, value: nat, a: Address, w: World,
                     polls: nat)
    ensures var r := CreateResult(env, depth, caller, code, gas, value, a, w, polls);
            var bumped := Put(w, caller, Acct(w, caller).(nonce := Acct(w, caller).nonce + 1));
            var endowed := Endowed(bumped, caller, a, value);
            if depth > 1024 then r == Result([], gas, Some(ErrDepth), w, polls)
            else if value > Acct(w, caller).balance then r == Result([], gas, Some(ErrInsufficientBalance), w, polls)
            else if Acct(bumped, a).nonce != 0 || Acct(bumped, a).code != [] then
              r == Result([], 0, Some(ErrContractAddressCollision), bumped, polls)
            else if env.noRecursion && depth > 0 then r == Result([], gas, None, endowed, polls)
            else
              var out := RunCode(env, depth, Context(code, a, caller, value, [], false), gas, endowed, polls);
              if !out.Finished? then Ended(out, bumped, r)
              else if |out.ret| > 39231 then r == Result(out.ret, 0, Some(ErrMaxCodeSizeExceeded), bumped, out.polls)
              else if 200 * |out.ret| > out.left then r == Result(out.ret, 0, Some(ErrCodeStoreOutOfGas), bumped, out.polls)
              else
                && r == Result(out.ret, out.left - 200 * |out.ret|, None, r.world, out.polls)
                && r.world == Put(out.world, a, Acct(out.world, a).(code := out.ret))
  {
    hide RunCode, Endowed;
  }

  // ---------------------------------------------------------------- frames

  /** The errors a frame can end with; the others are refusals of calls and creations. */
  predicate FrameError(e: Error) {
    e in {ErrOutOfGas, ErrGasUintOverflow, ErrInvalidOpCode, ErrStackUnderflow, ErrStackOverflow, ErrWriteProtection,
          ErrInvalidJump, ErrReturnDataOutOfBounds}
  }

  lemma TurnErrors(env: Env, c: Context, depth: nat, m: Machine)
    ensures var t := TurnOf(env, c, depth, m); t.Over? && t.out.Failed? ==> FrameError(t.out.error)
  {
    hide Passes, Due, PaidFor, Effect, Enough, TurnOf, RoutineOf, ValidDest, Takes, Defined;
    var op := OpAt(c.code, m.pc);
    if !Passes(env, c, m) {
      Refusals(env, c, depth, m);
    } else {
      Executes(env, c, depth, m);
      PassesStack(env, c, m);
      Kinds(op);
      if !Local(RoutineOf(op)) {
        Nests(env, c, depth, m);
      } else if op in {0x56, 0x57} {
        Jumps(env, c, depth, m);
      } else if op == 0x3e {
        MemoryCopies(env, c, depth, m);
      } else {
        SurchargeIs(op, m.world, c.self, m.stack);
        var p1 := PaidFor(env, c, m).(world := Credited(DynamicOf(op), m.world, c.self, m.stack));
        EnoughIn(RoutineOf(op), PaidFor(env, c, m), p1);
        EffectGoesOn(env, c, op, RoutineOf(op), p1);
      }
    }
  }

  lemma {:induction false} FrameErrors(env: Env, c: Context, depth: nat, m: Machine, turn: nat)
    ensures var out := RunFrom(env, c, depth, m, turn); out.Failed? ==> FrameError(out.error)
    decreases m.gas
  {
    hide TurnOf, FrameError;
    RunFromUnfolds(env, c, depth, m, turn);
    var m1 := if turn % POLL_EVERY == 0 then m.(polls := m.polls + 1) else m;
    TurnErrors(env, c, depth, m1);
    var t := TurnOf(env, c, depth, m1);
    if t.Next? { FrameErrors(env, c, depth, t.m, turn + 1); }
  }

  /** The frame as the turn finds it: every thousandth turn looks at the cancellation flag first, and stops if it is set. */
  function Polled(env: Env, m: Machine, turn: nat): Option<Machine> {
    if turn % 1000 != 0 then Some(m) else if env.abort(m.polls) then None else Some(m.(polls := m.polls + 1))
  }

  /** A run: each turn leads from one frame to the next, and the last is cancelled or over with this outcome. */
  predicate IsRun(env: Env, c: Context, depth: nat, ms: seq<Machine>, turn: nat, out: Outcome) {
    && |ms| >= 1
    && (forall i | 0 <= i < |ms| - 1 :: StepsTo(env, c, depth, ms[i], turn + i, ms[i + 1]))
    && var last := ms[|ms| - 1];
       match Polled(env, last, turn + |ms| - 1)
       case None => out == Finished([], last.gas, last.world, last.polls + 1)
       case Some(m) => TurnOf(env, c, depth, m) == Over(out)
  }

  predicate StepsTo(env: Env, c: Context, depth: nat, m: Machine, turn: nat, m': Machine) {
    Polled(env, m, turn).Some? && TurnOf(env, c, depth, Polled(env, m, turn).value) == Next(m')
  }

  /** Every frame runs to an end, within as many turns as it has gas and one more. */
  lemma {:induction false} FrameRuns(env: Env, c: Context, depth: nat, m: Machine, turn: nat) returns (ms: seq<Machine>)
    ensures IsRun(env, c, depth, ms, turn, RunFrom(env, c, depth, m, turn)) && ms[0] == m && |ms| <= m.gas + 1
    decreases m.gas
  {
    hide TurnOf;
    RunFromUnfolds(env, c, depth, m, turn);
    ms := [m];
    if Polled(env, m, turn).Some? {
      var t := TurnOf(env, c, depth, Polled(env, m, turn).value);
      if t.Next? {
        var rest := FrameRuns(env, c, depth, t.m, turn + 1);
        ms := [m] + rest;
        assert forall i | 1 <= i < |ms| :: ms[i] == rest[i - 1];
        assert StepsTo(env, c, depth, ms[0], turn, ms[1]);
      }
    }
  }

  /** And there is no other run from there. */
  lemma {:induction false} RunIsUnique(env: Env, c: Context, depth: nat, ms: seq<Machine>, turn: nat, out: Outcome)
    requires IsRun(env, c, depth, ms, turn, out)
    ensures out == RunFrom(env, c, depth, ms[0], turn)
    decreases |ms|
  {
    hide TurnOf;
    RunFromUnfolds(env, c, depth, ms[0], turn);
    if |ms| > 1 {
      assert StepsTo(env, c, depth, ms[0], turn + 0, ms[1]);
      var rest := ms[1..];
      forall i | 0 <= i < |rest| - 1 ensures StepsTo(env, c, depth, rest[i], turn + 1 + i, rest[i + 1]) {
        assert StepsTo(env, c, depth, ms[i + 1], turn + (i + 1), ms[i + 1 + 1]);
      }
      RunIsUnique(env, c, depth, rest, turn + 1, out);
    }
  }

  /** The run of a frame one level down, from an empty stack and memory. */
  lemma CodeRuns(env: Env, depth: nat, c: Context, gas: uint64, w: World, polls: nat)
    requires c.code != []
    ensures exists ms ::
              && IsRun(env, c, depth + 1, ms, 1, RunCode(env, depth, c, gas, w, polls))
              && ms[0] == Machine(0, [], [], gas, [], w, polls)
  {
    hide RunFrom, IsRun;
    var ms := FrameRuns(env, c, depth + 1, Machine(0, [], [], gas, [], w, polls), 1);
  }

  lemma CodeErrors(env: Env, depth: nat, c: Context, gas: uint64, w: World, polls: nat)
    ensures var out := RunCode(env, depth, c, gas, w, polls); out.Failed? ==> FrameError(out.error)
  {
    hide RunFrom, FrameError;
    if c.code != [] { FrameErrors(env, c, depth + 1, Machine(0, [], [], gas, [], w, polls), 1); }
  }

  /** A call is refused exactly for depth or balance, before anything is done. */
  lemma CallRefusals(env: Env, depth: nat, ro: bool, caller: Address, a: Address, input: seq<byte>, gas: uint64,
                     value: nat, w: World, polls: nat)
    ensures var r := CallResult(env, depth, ro, caller, a, input, gas, value, w, polls);
            var (skipped, poor) := (env.noRecursion && depth > 0, value > 0 && value > Acct(w, caller).balance);
            && (r.err == Some(ErrDepth) <==> !skipped && depth > 1024)
            && (r.err == Some(ErrInsufficientBalance) <==> !skipped && depth <= 1024 && poor)
            && (r.err.Some? ==> r.world == w)
  {
    hide RunCode, CallResult, Paid;
    CallEnds(env, depth, ro, caller, a, input, gas, value, w, polls);
    CodeErrors(env, depth, Context(Acct(w, a).code, a, caller, value, input, ro), gas, Paid(w, caller, a, value), polls);
  }

  /** A creation is refused for depth or balance before anything is done, and collides exactly with an account in use. */
  lemma CreationRefusals(env: Env, depth: nat, caller: Address, code: seq<byte>, gas: uint64, value: nat, a: Address,
                         w: World, polls: nat)
    ensures var r := CreateResult(env, depth, caller, code, gas, value, a, w, polls);
            var (bumped, rich) := (NonceBumped(w, caller), value <= Acct(w, caller).balance);
            && (r.err == Some(ErrDepth) <==> depth > 1024) && (r.err == Some(ErrInsufficientBalance) <==> depth <= 1024 && !rich)
            && (r.err == Some(ErrContractAddressCollision) <==>
                  depth <= 1024 && rich && (Acct(bumped, a).nonce != 0 || Acct(bumped, a).code != []))
            && (r.err.Some? ==> r.world == if depth > 1024 || !rich then w else bumped)
  {
    hide RunCode, CreateResult, Endowed;
    CreationEnds(env, depth, caller, code, gas, value, a, w, polls);
    var w2 := Endowed(NonceBumped(w, caller), caller, a, value);
    CodeErrors(env, depth, Context(code, a, caller, value, [], false), gas, w2, polls);
  }
}
