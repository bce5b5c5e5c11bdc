/** What a run means, over values: the effect of every instruction, a turn of the loop, a frame, and calls and creations. */
module KvmSemantics {
  import opened Basics
  import opened KvmGas
  import opened KvmCode
  import opened KvmWorld
  import opened KvmTable
  import opened KvmFrame
  import opened KvmPrice

  const CALL_CREATE_DEPTH: nat := 1024
  const MAX_CODE_SIZE: nat := 39231
  const CREATE_DATA_GAS: nat := 200
  const POLL_EVERY: nat := 1000

  /** What is fixed while a transaction runs: the rules in force, and the functions computed elsewhere. */
  datatype Env = Env(
    galaxias: bool,
    noRecursion: bool,
    alu: (byte, seq<Word>) -> Word,                 // 256-bit arithmetic, comparison and bit operations
    context: byte -> Word,                          // words of the block and the transaction
    blockHash: Word -> Word,
    keccak: seq<byte> -> Word,
    isPrecompile: Address -> bool,
    requiredGas: (Address, seq<byte>) -> uint64,
    runPrecompile: (Address, seq<byte>) -> Option<seq<byte>>,
    createAddress: (Address, nat) -> Address,
    createAddress2: (Address, Word, seq<byte>) -> Address,
    abort: nat -> bool)                             // what the n-th look at the cancellation flag finds

  /** What is fixed while a frame runs: its code, the account it runs for, who called it with what, and the mode. */
  datatype Context = Context(code: seq<byte>, self: Address, caller: Address, value: nat, input: seq<byte>, readOnly: bool)

  /** Where a frame stands between two instructions. */
  datatype Machine = Machine(
    pc: nat, stack: seq<Word>, store: seq<byte>, gas: uint64, returnData: seq<byte>, world: World, polls: nat)

  /** How a frame ends. */
  datatype Outcome =
    | Finished(ret: seq<byte>, left: uint64, world: World, polls: nat)
    | Reverted(ret: seq<byte>, left: uint64, polls: nat)
    | Failed(error: Error, polls: nat)

  /** What one turn of the loop comes to. */
  datatype Turn = Next(m: Machine) | Over(out: Outcome)

  /** What a call or a creation gives back, and the state it leaves. */
  datatype Result = Result(ret: seq<byte>, left: uint64, err: Option<Error>, world: World, polls: nat)

  function Left(out: Outcome): uint64 { if out.Failed? then 0 else out.left }

  /** The end of a frame, from what it returned, the gas and world it left, and the error it ended with. */
  function Seen(ret: seq<byte>, left: uint64, err: Option<Error>, w: World, polls: nat): Outcome {
    if err.None? then Finished(ret, left, w, polls)
    else if err.value == ErrExecutionReverted then Reverted(ret, left, polls)
    else Failed(err.value, polls)
  }

  /** Only a run that finished or was reverted returns data. */
  predicate NoData(ret: seq<byte>, err: Option<Error>) { err.Some? && err.value != ErrExecutionReverted ==> ret == [] }

  // ---------------------------------------------------------------- changes of the world

  /** The world after the creator's nonce has gone up by one. */
  function NonceBumped(w: World, a: Address): World { Put(w, a, Acct(w, a).(nonce := Acct(w, a).nonce + 1)) }

  function Paid(w: World, caller: Address, a: Address, value: nat): World {
    Moved(if a in w.accounts then w else Put(w, a, NO_ACCOUNT), caller, a, value)
  }

  function Refunded(w: World, gas: nat): World { w.(refund := w.refund + gas) }

  function Stored(w: World, a: Address, k: Word, v: Word): World {
    Put(w, a, Acct(w, a).(storage := SetSlot(Acct(w, a).storage, k, v)))
  }

  function Touched(w: World, a: Address): World { Put(w, a, Acct(w, a)) }

  /** The world with a new contract account at a, holding what was there before and the endowment. */
  function Endowed(w: World, caller: Address, a: Address, value: nat): World {
    Moved(Put(w, a, NO_ACCOUNT.(balance := Acct(w, a).balance, nonce := 1)), caller, a, value)
  }

  function Coded(w: World, a: Address, code: seq<byte>): World { Put(w, a, Acct(w, a).(code := code)) }

  /** The refund an instruction earns while it is being charged for. */
  function Credited(d: Dynamic, w: World, self: Address, s: seq<Word>): World
    requires GasArgs(d) <= |s|
  {
    if d.SStoreGas? && Slot(Acct(w, self).storage, Back(s, 0)) != 0 && Back(s, 1) == 0 then Refunded(w, 15000)
    else if d.SelfDestructGas? && !Acct(w, self).suicided then Refunded(w, 24000)
    else w
  }

  /** The log a LOGn instruction adds: its n topics in the order popped, and the memory area it names. */
  function LogOf(self: Address, s: seq<Word>, n: nat, store: seq<byte>): Log
    requires |s| >= n + 2 && Inside(Back(s, 0), Back(s, 1), |store|)
  {
    Log.Log(self, seq(n, i requires 0 <= i < n => Back(s, 2 + i)), Slice(store, Back(s, 0), Back(s, 1)))
  }

  // ---------------------------------------------------------------- instructions that run no other code

  predicate CallsOut(e: Exec) { e.Call? || e.CallCode? || e.DelegateCall? || e.StaticCall? }

  predicate Creates(e: Exec) { e.Create? || e.Create2? }

  predicate Local(e: Exec) { !Invokes(e) }

  /** Words of the running frame, the account it runs for, and the block and transaction. */
  function EnvWord(env: Env, c: Context, m: Machine, op: byte): Word {
    if op == 0x30 then c.self
    else if op == 0x33 then c.caller
    else if op == 0x34 then c.value % TWO_256
    else if op == 0x36 then |c.input| % TWO_256
    else if op == 0x38 then |c.code| % TWO_256
    else if op == 0x3d then |m.returnData| % TWO_256
    else if op == 0x47 then Acct(m.world, c.self).balance % TWO_256
    else if op == 0x58 then m.pc % TWO_256
    else if op == 0x59 then |m.store| % TWO_256
    else if op == 0x5a then m.gas
    else env.context(op)
  }

  /** What the top word names: a balance, a slot, a piece of input, another account's code, or a block. */
  function LookupWord(env: Env, c: Context, m: Machine, op: byte, top: Word): Word {
    if op == 0x31 then Acct(m.world, ToAddress(top)).balance % TWO_256
    else if op == 0x35 then if top < TWO_64 then WordOf(GetData(c.input, top, 32)) else 0
    else if op == 0x3b then |Acct(m.world, ToAddress(top)).code| % TWO_256
    else if op == 0x3f then
      if Empty(m.world, ToAddress(top)) then 0 else env.keccak(Acct(m.world, ToAddress(top)).code)
    else if op == 0x54 then Slot(Acct(m.world, c.self).storage, top)
    else env.blockHash(top)
  }

  /** The routine leaves one word more than it keeps: a result, or a copy. */
  predicate Produces(e: Exec) { e.Alu? || e.Sha3? || e.Env? || e.Lookup? || e.MLoad? || e.Push? || e.Dup? }

  /** The stack, and the memory an instruction names, hold what the routine works on. */
  predicate Enough(e: Exec, m: Machine) {
    && Pops(e) <= |m.stack| && (e.Dup? ==> e.n >= 1)
    && AreaArgs(Touches(e)) <= |m.stack| && Covered(Touches(e), m.stack, |m.store|)
  }

  /** The word an instruction puts on the stack. */
  function Produced(env: Env, c: Context, op: byte, e: Exec, m: Machine): Word
    requires Produces(e) && Enough(e, m)
  {
    if e.Alu? then env.alu(op, m.stack[|m.stack| - e.args..])
    else if e.Sha3? then env.keccak(Slice(m.store, Back(m.stack, 0), Back(m.stack, 1)))
    else if e.Env? then EnvWord(env, c, m, op)
    else if e.Lookup? then LookupWord(env, c, m, op, Back(m.stack, 0))
    else if e.MLoad? then WordOf(Slice(m.store, Back(m.stack, 0), 32))
    else if e.Push? then WordOf(PushData(c.code, m.pc, e.size))
    else Back(m.stack, e.n - 1)
  }

  predicate Copies(e: Exec) { e.CallDataCopy? || e.CodeCopy? || e.ExtCodeCopy? || e.ReturnDataCopy? }

  /** Where a copy instruction takes its bytes from. */
  function CopySource(c: Context, e: Exec, m: Machine): seq<byte>
    requires Copies(e) && |m.stack| >= 1
  {
    if e.CallDataCopy? then c.input
    else if e.CodeCopy? then c.code
    else if e.ReturnDataCopy? then m.returnData
    else Acct(m.world, ToAddress(Back(m.stack, 0))).code
  }

  /** The stack positions of a copy's three arguments start one deeper when the first word names an account. */
  function CopyArgs(e: Exec, s: seq<Word>): seq<Word>
    requires |s| >= 1
  {
    if e.ExtCodeCopy? then Drop(s, 1) else s
  }

  function CopyEffect(c: Context, e: Exec, m: Machine): Turn
    requires Copies(e) && Enough(e, m)
  {
    var args, data := CopyArgs(e, m.stack), CopySource(c, e, m);
    var off, from, len := Back(args, 0), Back(args, 1), Back(args, 2);
    if e.ReturnDataCopy? && !Within(from, len, data) then Over(Failed(ErrReturnDataOutOfBounds, m.polls))
    else Next(m.(pc := m.pc + 1, stack := Drop(m.stack, Pops(e)), store := Copied(m.store, off, from, len, data)))
  }

  function JumpEffect(c: Context, e: Exec, m: Machine): Turn
    requires (e.Jump? || e.JumpI?) && Enough(e, m)
  {
    var rest, dest := Drop(m.stack, Pops(e)), Back(m.stack, 0);
    if e.JumpI? && Back(m.stack, 1) == 0 then Next(m.(pc := m.pc + 1, stack := rest))
    else if !ValidDest(c.code, dest) then Over(Failed(ErrInvalidJump, m.polls))
    else Next(m.(pc := dest, stack := rest))
  }

  predicate Ends(e: Exec) { e.Stop? || e.Return? || e.Revert? || e.SelfDestruct? }

  function EndEffect(c: Context, e: Exec, m: Machine): Outcome
    requires Ends(e) && Enough(e, m)
  {
    if e.Stop? then Finished([], m.gas, m.world, m.polls)
    else if e.SelfDestruct? then Finished([], m.gas, Destructed(m.world, c.self, ToAddress(Back(m.stack, 0))), m.polls)
    else
      var ret := Slice(m.store, Back(m.stack, 0), Back(m.stack, 1));
      if e.Return? then Finished(ret, m.gas, m.world, m.polls) else Reverted(ret, m.gas, m.polls)
  }

  predicate Stores(e: Exec) { e.MStore? || e.MStore8? || e.SStore? || e.Log? }

  /** Memory and world after an instruction that stores something. */
  function StoreEffect(c: Context, e: Exec, m: Machine): Machine
    requires Stores(e) && Enough(e, m)
  {
    if e.MStore? then m.(store := Write(m.store, Back(m.stack, 0), ToBytes(Back(m.stack, 1), 32)))
    else if e.MStore8? then m.(store := m.store[Back(m.stack, 0) := Back(m.stack, 1) % 256])
    else if e.SStore? then m.(world := Stored(m.world, c.self, Back(m.stack, 0), Back(m.stack, 1)))
    else m.(world := m.world.(logs := m.world.logs + [LogOf(c.self, m.stack, e.topics, m.store)]))
  }

  /** The stack after an instruction that only moves words. */
  function Moves(e: Exec, s: seq<Word>): seq<Word>
    requires (e.Pop? || e.JumpDest? || e.Swap?) && Pops(e) <= |s|
  {
    if e.Pop? then Drop(s, 1)
    else if e.Swap? then Exchanged(s, e.n)
    else s
  }

  /** What an instruction that runs no other code does, once it is paid for. */
  function Effect(env: Env, c: Context, op: byte, e: Exec, m: Machine): (t: Turn)
    requires Local(e) && Enough(e, m)
    ensures t.Next? ==> t.m.gas == m.gas && !Ends(e)
    ensures t.Over? ==> Left(t.out) <= m.gas
  {
    if Ends(e) then Over(EndEffect(c, e, m))
    else if e.Jump? || e.JumpI? then JumpEffect(c, e, m)
    else if Copies(e) then CopyEffect(c, e, m)
    else if Produces(e) then
      Next(m.(pc := m.pc + 1 + (if e.Push? then e.size else 0),
              stack := Drop(m.stack, if e.Dup? then 0 else Pops(e)) + [Produced(env, c, op, e, m)]))
    else if e.Pop? || e.JumpDest? || e.Swap? then Next(m.(pc := m.pc + 1, stack := Moves(e, m.stack)))
    else Next(StoreEffect(c, e, m).(pc := m.pc + 1, stack := Drop(m.stack, Pops(e))))
  }

  // What each kind of instruction works on, and what its effect comes to.

  lemma ProducedIs(env: Env, c: Context, op: byte, e: Exec, m: Machine)
    requires Produces(e) && Enough(e, m)
    ensures var kept := if e.Dup? then m.stack else Drop(m.stack, Pops(e));
            Effect(env, c, op, e, m) ==
            Next(m.(pc := m.pc + 1 + (if e.Push? then e.size else 0), stack := kept + [Produced(env, c, op, e, m)]))
  {
    hide Enough, Produced, Pops;
  }

  lemma MovedIs(env: Env, c: Context, op: byte, e: Exec, m: Machine)
    requires (e.Stop? || e.Pop? || e.JumpDest? || e.Swap?) && Enough(e, m)
    ensures Effect(env, c, op, e, m) ==
            if e.Stop? then Over(Finished([], m.gas, m.world, m.polls)) else Next(m.(pc := m.pc + 1, stack := Moves(e, m.stack)))
  {
    hide Enough, Moves, Pops;
  }

  lemma StoredIs(env: Env, c: Context, op: byte, e: Exec, m: Machine)
    requires Stores(e) && Enough(e, m)
    ensures Effect(env, c, op, e, m) == Next(StoreEffect(c, e, m).(pc := m.pc + 1, stack := Drop(m.stack, Pops(e))))
  {
    hide Enough, StoreEffect, Pops;
  }

  lemma EndedIs(env: Env, c: Context, op: byte, e: Exec, m: Machine)
    requires Ends(e) && Enough(e, m)
    ensures Effect(env, c, op, e, m) == Over(EndEffect(c, e, m))
  {
    hide Enough, EndEffect;
  }

  lemma CopiedIs(env: Env, c: Context, op: byte, e: Exec, m: Machine)
    requires Copies(e) && Enough(e, m)
    ensures Effect(env, c, op, e, m) == CopyEffect(c, e, m)
  {
    hide Enough, CopyEffect;
  }

  lemma JumpedIs(env: Env, c: Context, op: byte, e: Exec, m: Machine)
    requires (e.Jump? || e.JumpI?) && Enough(e, m)
    ensures Effect(env, c, op, e, m) == JumpEffect(c, e, m)
  {
    hide Enough, JumpEffect;
  }

  lemma EnoughStack(e: Exec, m: Machine)
    requires Enough(e, m)
    ensures e.Stop? || e.JumpDest? || e.Env? || e.Push? ==> Pops(e) == 0
    ensures e.Alu? ==> Pops(e) == e.args <= |m.stack|
    ensures e.Sha3? ==> Pops(e) == 2 <= |m.stack| && Inside(Back(m.stack, 0), Back(m.stack, 1), |m.store|)
    ensures e.Lookup? || e.Pop? ==> Pops(e) == 1 <= |m.stack|
    ensures e.Dup? ==> 1 <= e.n == Pops(e) <= |m.stack| && Pushes(e) == e.n + 1
    ensures e.Swap? ==> e.n + 1 == Pops(e) == Pushes(e) <= |m.stack|
    ensures Produces(e) && !e.Dup? ==> Pushes(e) == 1
    ensures e.MLoad? ==> Pops(e) == 1 <= |m.stack|
    ensures e.Stop? || e.Pop? || e.JumpDest? ==> Pushes(e) == 0
  {}

  lemma MovedSize(e: Exec, s: seq<Word>)
    requires (e.Stop? || e.Pop? || e.JumpDest? || e.Swap?) && Pops(e) <= |s|
    ensures !e.Stop? ==> |Moves(e, s)| == |s| - Pops(e) + Pushes(e)
    ensures e.Stop? ==> Pops(e) == Pushes(e)
  {
    hide Exchanged;
  }

  lemma EnoughMemory(e: Exec, m: Machine)
    requires Enough(e, m)
    ensures e.MLoad? ==> Pops(e) == 1 <= |m.stack| && Pushes(e) == 1 && Covered(Touches(MLoad), m.stack, |m.store|)
    ensures e.MStore? || e.MStore8? || e.Return? || e.Revert? ==> Pops(e) == 2 <= |m.stack| && Pushes(e) == 0
    ensures e.MStore? ==> Covered(Touches(MStore), m.stack, |m.store|)
    ensures e.MStore8? ==> Covered(Touches(MStore8), m.stack, |m.store|)
    ensures e.MLoad? || e.MStore? ==> Back(m.stack, 0) + 32 <= |m.store|
    ensures e.MStore8? ==> Back(m.stack, 0) < |m.store|
    ensures e.Return? || e.Revert? ==> Inside(Back(m.stack, 0), Back(m.stack, 1), |m.store|)
  {}

  lemma EnoughCopy(e: Exec, m: Machine)
    requires Enough(e, m) && Copies(e)
    ensures Pops(e) == (if e.ExtCodeCopy? then 4 else 3) <= |m.stack| && Pushes(e) == 0
    ensures Covered(Range(0, 2), CopyArgs(e, m.stack), |m.store|)
  {}

  // ---------------------------------------------------------------- charging

  /** What an instruction costs here. */
  function CostAt(env: Env, c: Context, o: Operation, m: Machine): Option<nat>
    requires HasArgs(o, m.stack)
  {
    Cost(env.galaxias, o, Price(o.dynamic, m.world, c.self, m.stack), m.stack, |m.store|, m.gas)
  }

  /** The gas a nested call starts with: its share, and the stipend when it carries value. */
  function Handed(env: Env, c: Context, o: Operation, m: Machine): nat
    requires HasArgs(o, m.stack) && CostAt(env, c, o, m).Some?
  {
    var price, size := Price(o.dynamic, m.world, c.self, m.stack), WantedSize(o.memory, m.stack).value;
    RestShare(o.dynamic, price, m.stack, |m.store|, size, m.gas - o.constantGas)
    + if MovesValue(o.dynamic, m.stack) then CALL_STIPEND else 0
  }

  /** A turn that goes on costs something, and what it leaves and hands over is less than there was. */
  lemma CostFacts(env: Env, c: Context, op: byte, o: Operation, m: Machine)
    requires Fits(op, o) && o.minStack <= |m.stack| && HasArgs(o, m.stack) && CostAt(env, c, o, m).Some?
    ensures CostAt(env, c, o, m).value <= m.gas
    ensures !o.halts && !o.reverts ==> CostAt(env, c, o, m).value > Handed(env, c, o, m)
  {
    hide Growth, Price, WantedSize, KvmGas.CallGas;
    PriceAtLeast(o.dynamic, m.world, c.self, m.stack);
  }

  function Charged(env: Env, c: Context, o: Operation, m: Machine): Machine
    requires HasArgs(o, m.stack) && CostAt(env, c, o, m).Some? && CostAt(env, c, o, m).value <= m.gas
  {
    m.(gas := m.gas - CostAt(env, c, o, m).value,
       store := Extended(m.store, WantedSize(o.memory, m.stack).value),
       world := Credited(o.dynamic, m.world, c.self, m.stack))
  }

  /** Once it is paid for, an instruction has what it works on. */
  lemma ChargedEnough(env: Env, c: Context, op: byte, o: Operation, m: Machine)
    requires Fits(op, o) && o.minStack <= |m.stack| && HasArgs(o, m.stack)
    requires CostAt(env, c, o, m).Some? && CostAt(env, c, o, m).value <= m.gas
    ensures Enough(o.execute, Charged(env, c, o, m))
  {
    hide Growth, Price, WantedSize, Credited, RestCost, Touches, Covered;
    WantedCovers(o.execute, m.stack, Larger(|m.store|, WantedSize(o.memory, m.stack).value));
  }

  // ---------------------------------------------------------------- nested runs seen by the frame that starts them

  /** Where a call's arguments start on the stack: one deeper when it carries a value. */
  function Shift(e: Exec): nat { if e.Call? || e.CallCode? then 1 else 0 }

  function ValueOf(e: Exec, s: seq<Word>): Word
    requires |s| >= 6 + Shift(e)
  {
    if Shift(e) == 1 then Back(s, 2) else 0
  }

  /** A call's arguments are on the stack, and the memory it reads and writes is there. */
  predicate CallReady(e: Exec, m: Machine) {
    var k := Shift(e);
    && CallsOut(e) && |m.stack| >= 6 + k
    && Inside(Back(m.stack, 2 + k), Back(m.stack, 3 + k), |m.store|)
    && Inside(Back(m.stack, 4 + k), Back(m.stack, 5 + k), |m.store|)
  }

  lemma EnoughCall(e: Exec, m: Machine)
    requires Enough(e, m)
    ensures CallsOut(e) ==> CallReady(e, m) && Pops(e) == 6 + Shift(e) && Pushes(e) == 1
    ensures Creates(e) ==> |m.stack| >= 3 && Inside(Back(m.stack, 1), Back(m.stack, 2), |m.store|)
    ensures e.Create? ==> Pops(e) == 3
    ensures e.Create2? ==> Pops(e) == 4 <= |m.stack|
  {}

  /** Memory once a call has written back as much of its result as was asked for. */
  function WrittenBack(e: Exec, m: Machine, r: Result): seq<byte>
    requires CallReady(e, m)
  {
    var off, size := Back(m.stack, 4 + Shift(e)), Back(m.stack, 5 + Shift(e));
    if size > 0 && (r.err.None? || r.err.value == ErrExecutionReverted) then Write(m.store, off, r.ret[..Min(size, |r.ret|)])
    else m.store
  }

  /** The frame after a call instruction: a flag, the bytes written back, the gas left over, and the return data. */
  function AfterCall(e: Exec, m: Machine, r: Result): Machine
    requires CallReady(e, m) && m.gas + r.left < TWO_64
  {
    m.(pc := m.pc + 1, stack := Drop(m.stack, 6 + Shift(e)) + [if r.err.None? then 1 else 0], store := WrittenBack(e, m, r),
       gas := m.gas + r.left, returnData := r.ret, world := r.world, polls := r.polls)
  }

  /** The code of a new contract, as the frame's memory holds it. */
  function InitCode(m: Machine): seq<byte>
    requires |m.stack| >= 3 && Inside(Back(m.stack, 1), Back(m.stack, 2), |m.store|)
  {
    Slice(m.store, Back(m.stack, 1), Back(m.stack, 2))
  }

  function NewAddress(env: Env, c: Context, e: Exec, m: Machine): Address
    requires Creates(e) && Enough(e, m)
  {
    EnoughCall(e, m);
    if e.Create? then env.createAddress(c.self, Acct(m.world, c.self).nonce)
    else env.createAddress2(c.self, Back(m.stack, 3), InitCode(m))
  }

  /** The gas a creation gets: all but one 64th, or for CREATE2 all of it. */
  function CreateShare(e: Exec, gas: uint64): uint64 { if e.Create? then gas - gas / 64 else gas }

  /** The frame after a creation: the address or zero, and data only from a revert. */
  function AfterCreate(e: Exec, m: Machine, a: Address, r: Result): Machine
    requires Creates(e) && Pops(e) <= |m.stack| && r.left <= CreateShare(e, m.gas)
  {
    m.(pc := m.pc + 1, stack := Drop(m.stack, Pops(e)) + [if r.err.None? then a else 0],
       gas := m.gas - CreateShare(e, m.gas) + r.left,
       returnData := if r.err == Some(ErrExecutionReverted) then r.ret else [], world := r.world, polls := r.polls)
  }

  // ---------------------------------------------------------------- ends of runs seen by the call that started them

  /** On an error the world is as it was before; only a revert gives gas back. */
  function Settled(w: World, out: Outcome): (r: Result)
    ensures r.left <= Left(out)
  {
    match out
    case Finished(ret, left, w', polls) => Result(ret, left, None, w', polls)
    case Reverted(ret, left, polls) => Result(ret, left, Some(ErrExecutionReverted), w, polls)
    case Failed(error, polls) => Result([], 0, Some(error), w, polls)
  }

  /** What the creation code returned becomes the code, if it is short enough and can be paid for. */
  function Deployed(w: World, a: Address, out: Outcome): (r: Result)
    ensures r.left <= Left(out)
  {
    if !out.Finished? then Settled(w, out)
    else if |out.ret| > MAX_CODE_SIZE then Result(out.ret, 0, Some(ErrMaxCodeSizeExceeded), w, out.polls)
    else if |out.ret| * CREATE_DATA_GAS > out.left then Result(out.ret, 0, Some(ErrCodeStoreOutOfGas), w, out.polls)
    else Result(out.ret, out.left - |out.ret| * CREATE_DATA_GAS, None, Coded(out.world, a, out.ret), out.polls)
  }

  function Precompiled(env: Env, a: Address, input: seq<byte>, gas: uint64, w: World, polls: nat): (out: Outcome)
    ensures Left(out) <= gas
  {
    var (cost, ret) := (env.requiredGas(a, input), env.runPrecompile(a, input));
    if gas < cost then Failed(ErrOutOfGas, polls)
    else if ret.None? then Failed(ErrPrecompile, polls)
    else Finished(ret.value, gas - cost, w, polls)
  }

  /** No account and no precompile is at the address. */
  predicate Absent(env: Env, w: World, a: Address) { a !in w.accounts && !env.isPrecompile(a) }

  /** Whether an account is in the way of a new contract. */
  predicate Taken(w: World, a: Address) { Acct(w, a).nonce != 0 || Acct(w, a).code != [] }

  /** Configured not to run nested calls, and nested. */
  predicate Skips(env: Env, depth: nat) { env.noRecursion && depth > 0 }

  lemma SettledSeen(w: World, ret: seq<byte>, gas: uint64, left: uint64, err: Option<Error>, w1: World, w2: World, polls: nat)
    requires NoData(ret, err) && w2 == (if err.None? then w1 else w)
    requires left == if err.None? || err.value == ErrExecutionReverted then gas else 0
    ensures Settled(w, Seen(ret, gas, err, w1, polls)) == Result(ret, left, err, w2, polls)
  {}

  // ---------------------------------------------------------------- runs

  /** One turn of the loop. One that goes on has used gas. */
  function TurnOf(env: Env, c: Context, depth: nat, m: Machine): (t: Turn)
    ensures t.Next? ==> t.m.gas < m.gas
    ensures t.Over? ==> Left(t.out) <= m.gas
    decreases m.gas, 4
  {
    var op := OpAt(c.code, m.pc);
    var entry := JumpTable(env.galaxias, op);
    if entry.None? then Over(Failed(ErrInvalidOpCode, m.polls)) else
    var o := entry.value;
    TableFits(env.galaxias, op);
    StackRoom(op, o);
    if |m.stack| < o.minStack then Over(Failed(ErrStackUnderflow, m.polls))
    else if |m.stack| > o.maxStack then Over(Failed(ErrStackOverflow, m.polls))
    else if c.readOnly && (o.writes || (op == 0xf1 && Back(m.stack, 2) != 0)) then Over(Failed(ErrWriteProtection, m.polls))
    else Performed(env, c, depth, op, o, m)
  }

  lemma StackRoom(op: byte, o: Operation)
    requires Fits(op, o)
    ensures (o.execute.Call? <==> op == 0xf1) && (op == 0xf1 ==> o.minStack >= 7)
    ensures forall s: seq<Word> | o.minStack <= |s| :: HasArgs(o, s)
    ensures o.dynamic.LogGas? ==> o.dynamic.topics <= 4
    ensures o.dynamic.SStoreGas? || o.dynamic.SelfDestructGas? ==> o.writes
  {}

  /** An instruction that passed the checks is charged for and executed. */
  function Performed(env: Env, c: Context, depth: nat, op: byte, o: Operation, m: Machine): (t: Turn)
    requires Fits(op, o) && o.minStack <= |m.stack| && HasArgs(o, m.stack)
    ensures t.Next? ==> t.m.gas < m.gas
    ensures t.Over? ==> Left(t.out) <= m.gas
    decreases m.gas, 3
  {
    if m.gas < o.constantGas then Over(Failed(ErrOutOfGas, m.polls))
    else if WantedSize(o.memory, m.stack).None? then Over(Failed(ErrGasUintOverflow, m.polls))
    else if CostAt(env, c, o, m).None? then Over(Failed(ErrOutOfGas, m.polls))
    else
      var e := o.execute;
      CostFacts(env, c, op, o, m);
      ChargedEnough(env, c, op, o, m);
      var m1 := Charged(env, c, o, m);
      EnoughCall(e, m1);
      if CallsOut(e) then Next(AfterCall(e, m1, CallOut(env, c, depth, e, m1, Handed(env, c, o, m))))
      else if Creates(e) then Next(AfterCreate(e, m1, NewAddress(env, c, e, m1), CreateOut(env, c, depth, e, m1)))
      else Effect(env, c, op, e, m1)
  }

  /** What the frame a call instruction starts, or the precompile it names, comes to. */
  function CallOut(env: Env, c: Context, depth: nat, e: Exec, m: Machine, gas: uint64): (r: Result)
    requires CallReady(e, m)
    ensures r.left <= gas
    decreases gas, 11
  {
    var a, value := ToAddress(Back(m.stack, 1)), ValueOf(e, m.stack);
    var args := Slice(m.store, Back(m.stack, 2 + Shift(e)), Back(m.stack, 3 + Shift(e)));
    Called(env, depth, e, c, a, args, gas, value, m.world, m.polls)
  }

  /** What each kind of call makes of its target: who runs whose code for which account. */
  function Called(env: Env, depth: nat, e: Exec, c: Context, a: Address, args: seq<byte>, gas: uint64, value: nat, w: World,
                  polls: nat): (r: Result)
    requires CallsOut(e)
    ensures r.left <= gas
    decreases gas, 10
  {
    if e.Call? then CallResult(env, depth, c.readOnly, c.self, a, args, gas, value, w, polls)
    else if e.CallCode? then CallCodeResult(env, depth, c.readOnly, c.self, a, args, gas, value, w, polls)
    else if e.DelegateCall? then DelegateResult(env, depth, c.readOnly, c.self, c.caller, c.value, a, args, gas, w, polls)
    else StaticResult(env, depth, c.self, a, args, gas, w, polls)
  }

  function CreateOut(env: Env, c: Context, depth: nat, e: Exec, m: Machine): (r: Result)
    requires Creates(e) && Enough(e, m)
    ensures r.left <= CreateShare(e, m.gas)
    decreases CreateShare(e, m.gas), 10
  {
    EnoughCall(e, m);
    CreateResult(env, depth, c.self, InitCode(m), CreateShare(e, m.gas), Back(m.stack, 0), NewAddress(env, c, e, m),
                 m.world, m.polls)
  }

  function CallResult(env: Env, depth: nat, ro: bool, caller: Address, a: Address, input: seq<byte>, gas: uint64, value: nat,
                      w: World, polls: nat): (r: Result)
    ensures r.left <= gas
    decreases gas, 9
  {
    if Skips(env, depth) then Result([], gas, None, w, polls)
    else if depth > CALL_CREATE_DEPTH then Result([], gas, Some(ErrDepth), w, polls)
    else if value != 0 && Acct(w, caller).balance < value then Result([], gas, Some(ErrInsufficientBalance), w, polls)
    else if Absent(env, w, a) && value == 0 then Result([], gas, None, w, polls)
    else
      var w1 := Paid(w, caller, a, value);
      Settled(w, RunAt(env, depth, a, Context(Acct(w1, a).code, a, caller, value, input, ro), gas, w1, polls))
  }

  function CallCodeResult(env: Env, depth: nat, ro: bool, caller: Address, a: Address, input: seq<byte>, gas: uint64, value: nat,
                          w: World, polls: nat): (r: Result)
    ensures r.left <= gas
    decreases gas, 9
  {
    if Skips(env, depth) then Result([], gas, None, w, polls)
    else if depth > CALL_CREATE_DEPTH then Result([], gas, Some(ErrDepth), w, polls)
    else if Acct(w, caller).balance < value then Result([], gas, Some(ErrInsufficientBalance), w, polls)
    else Settled(w, RunAt(env, depth, a, Context(Acct(w, a).code, caller, caller, value, input, ro), gas, w, polls))
  }

  function DelegateResult(env: Env, depth: nat, ro: bool, self: Address, caller: Address, value: nat, a: Address,
                          input: seq<byte>, gas: uint64, w: World, polls: nat): (r: Result)
    ensures r.left <= gas
    decreases gas, 9
  {
    if Skips(env, depth) then Result([], gas, None, w, polls)
    else if depth > CALL_CREATE_DEPTH then Result([], gas, Some(ErrDepth), w, polls)
    else Settled(w, RunAt(env, depth, a, Context(Acct(w, a).code, self, caller, value, input, ro), gas, w, polls))
  }

  function StaticResult(env: Env, depth: nat, caller: Address, a: Address, input: seq<byte>, gas: uint64, w: World, polls: nat)
    : (r: Result)
    ensures r.left <= gas
    decreases gas, 9
  {
    if Skips(env, depth) then Result([], gas, None, w, polls)
    else if depth > CALL_CREATE_DEPTH then Result([], gas, Some(ErrDepth), w, polls)
    else
      var w1 := Touched(w, a);
      Settled(w, RunAt(env, depth, a, Context(Acct(w1, a).code, a, caller, 0, input, true), gas, w1, polls))
  }

  function CreateResult(env: Env, depth: nat, caller: Address, code: seq<byte>, gas: uint64, value: nat, a: Address, w: World,
                        polls: nat): (r: Result)
    ensures r.left <= gas
    decreases gas, 9
  {
    if depth > CALL_CREATE_DEPTH then Result([], gas, Some(ErrDepth), w, polls)
    else if Acct(w, caller).balance < value then Result([], gas, Some(ErrInsufficientBalance), w, polls)
    else
      var w1 := NonceBumped(w, caller);
      if Taken(w1, a) then Result([], 0, Some(ErrContractAddressCollision), w1, polls) else
      var w2 := Endowed(w1, caller, a, value);
      if Skips(env, depth) then Result([], gas, None, w2, polls)
      else Deployed(w1, a, RunCode(env, depth, Context(code, a, caller, value, [], false), gas, w2, polls))
  }

  /** Runs what is at the address: a precompile, or its code in the given context. */
  function RunAt(env: Env, depth: nat, a: Address, c: Context, gas: uint64, w: World, polls: nat): (out: Outcome)
    ensures Left(out) <= gas
    decreases gas, 8
  {
    if env.isPrecompile(a) then Precompiled(env, a, c.input, gas, w, polls) else RunCode(env, depth, c, gas, w, polls)
  }

  /** A frame one level down, from an empty stack and memory. */
  function RunCode(env: Env, depth: nat, c: Context, gas: uint64, w: World, polls: nat): (out: Outcome)
    ensures Left(out) <= gas
    decreases gas, 7
  {
    if c.code == [] then Finished([], gas, w, polls)
    else RunFrom(env, c, depth + 1, Machine(0, [], [], gas, [], w, polls), 1)
  }

  /** The turns of a frame from the given one on; every so many, the cancellation flag is looked at first. */
  function RunFrom(env: Env, c: Context, depth: nat, m: Machine, turn: nat): (out: Outcome)
    ensures Left(out) <= m.gas
    decreases m.gas, 5
  {
    var polled := turn % POLL_EVERY == 0;
    if polled && env.abort(m.polls) then Finished([], m.gas, m.world, m.polls + 1)
    else
      var t := TurnOf(env, c, depth, if polled then m.(polls := m.polls + 1) else m);
      if t.Next? then RunFrom(env, c, depth, t.m, turn + 1) else t.out
  }

  lemma RunFromUnfolds(env: Env, c: Context, depth: nat, m: Machine, turn: nat)
    ensures var (polled, out) := (turn % POLL_EVERY == 0, RunFrom(env, c, depth, m, turn));
            if polled && env.abort(m.polls) then out == Finished([], m.gas, m.world, m.polls + 1)
            else
              var t := TurnOf(env, c, depth, if polled then m.(polls := m.polls + 1) else m);
              out == if t.Next? then RunFrom(env, c, depth, t.m, turn + 1) else t.out
  {
    hide TurnOf;
  }

  lemma CallsGoOn(op: byte, o: Operation)
    requires Fits(op, o)
    ensures !Local(o.execute) ==> !o.halts && !o.reverts
  {}

  /** An instruction that passes the checks and can be paid for is executed. */
  lemma PerformedPays(env: Env, c: Context, depth: nat, op: byte, o: Operation, m: Machine)
    requires Fits(op, o) && o.minStack <= |m.stack| && HasArgs(o, m.stack) && CostAt(env, c, o, m).Some?
    ensures CostAt(env, c, o, m).value <= m.gas && Enough(o.execute, Charged(env, c, o, m))
    ensures Local(o.execute) ==> Performed(env, c, depth, op, o, m) == Effect(env, c, op, o.execute, Charged(env, c, o, m))
    ensures CallsOut(o.execute) ==>
              var (e, m1, gas) := (o.execute, Charged(env, c, o, m), Handed(env, c, o, m));
              && CallReady(e, m1) && m1.gas + gas < m.gas
              && Performed(env, c, depth, op, o, m) == Next(AfterCall(e, m1, CallOut(env, c, depth, e, m1, gas)))
    ensures Creates(o.execute) ==>
              var (e, m1) := (o.execute, Charged(env, c, o, m));
              Performed(env, c, depth, op, o, m) ==
              Next(AfterCreate(e, m1, NewAddress(env, c, e, m1), CreateOut(env, c, depth, e, m1)))
  {
    hide Fits, RestCost, WantedSize, Credited, Price, Effect, CallOut, CreateOut, Enough, Extended, AfterCall, AfterCreate,
      RestShare, NewAddress, CallReady;
    CostFacts(env, c, op, o, m);
    ChargedEnough(env, c, op, o, m);
    EnoughCall(o.execute, Charged(env, c, o, m));
    CallsGoOn(op, o);
  }
}
