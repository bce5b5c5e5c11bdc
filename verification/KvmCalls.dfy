/** The interpreter loop and the nested calls and creations it makes. */
module KvmCalls {
  import opened Basics
  import opened KvmGas
  import opened KvmCode
  import opened KvmWorld
  import opened KvmTable
  import opened KvmFrame
  import opened KvmPrice
  import opened KvmSemantics

  function GetCodeHash(w: World, a: Address): CodeHash {
    if a in w.accounts then Keccak(w.accounts[a].code) else Unset
  }

  // ---------------------------------------------------------------- what every piece of a run keeps

  /** The state a call can see or change. */
  datatype View = View(world: World, revisions: seq<Revision>, saved: seq<World>, depth: nat, readOnly: bool)

  /**
   Depth and the read-only flag are as before, every snapshot that was live still is and still stands for the same
   world, no balance was made from nothing, and in read-only mode no account, log or refund changed.
   */
  ghost predicate Keeps(v: View, v': View) {
    && v'.depth == v.depth && v'.readOnly == v.readOnly
    && v.revisions <= v'.revisions && v.saved <= v'.saved && |v'.revisions| == |v'.saved|
    && Supply(v'.world) <= Supply(v.world)
    && (v.readOnly ==> SameState(v.world, v'.world))
  }

  lemma KeepsTrans(a: View, b: View, c: View)
    requires Keeps(a, b) && Keeps(b, c)
    ensures Keeps(a, c)
  {}

  lemma KeepsSame(v: View)
    requires |v.revisions| == |v.saved|
    ensures Keeps(v, v)
  {}

  lemma KeepsMode(v: View, v': View)
    requires Keeps(v, v')
    ensures v'.depth == v.depth && v'.readOnly == v.readOnly
  {}

  /** What a frame keeps, its caller keeps; and a read-only frame changes nothing for a caller that could. */
  lemma FrameKeeps(v: View, ro: bool, v2: View, v': View)
    requires Keeps(v.(depth := v.depth + 1, readOnly := ro), v2)
    requires v' == v2.(depth := v.depth, readOnly := v.readOnly) && (v.readOnly ==> ro)
    ensures Keeps(v, v') && (ro ==> SameState(v.world, v'.world))
  {
    hide Supply, SameState;
  }

  /** The snapshot id, taken of the world of v, is still there to go back to. */
  ghost predicate Live(v: View, id: nat, v': View) {
    && Keeps(v, v') && NonNegative(v.world)
    && var k := |v.revisions|;
       && |v.saved| == k < |v'.revisions| == |v'.saved|
       && v'.revisions[k].id == id && v'.saved[k] == v.world
  }

  /** Nothing that keeps the live snapshots makes a revert miss its target. */
  lemma LiveTrans(v: View, id: nat, v1: View, v2: View)
    requires Live(v, id, v1) && Keeps(v1, v2)
    ensures Live(v, id, v2) && Keeps(v, v2)
  {}

  /** Errors found before anything is done: they cost nothing and change nothing. */
  predicate Refused(e: Error) { e == ErrDepth || e == ErrInsufficientBalance }

  /** A failing call leaves the world as it found it; only a revert gives gas back. */
  ghost predicate CallOutcome(v: View, v': View, gas: nat, left: nat, err: Option<Error>) {
    && Keeps(v, v') && left <= gas
    && (err.Some? ==> v'.world == v.world)
    && (err.Some? && Refused(err.value) ==> left == gas)
    && (err.Some? && !Refused(err.value) && err.value != ErrExecutionReverted ==> left == 0)
  }

  /** A failing creation leaves the world as it found it, apart from the creator's nonce. */
  ghost predicate CreateOutcome(v: View, v': View, caller: Address, gas: nat, left: nat, err: Option<Error>) {
    && Keeps(v, v') && left <= gas
    && (err.Some? ==> v'.world == if Refused(err.value) then v.world else NonceBumped(v.world, caller))
    && (err.Some? && Refused(err.value) ==> left == gas)
    && (err.Some? && !Refused(err.value) && err.value != ErrExecutionReverted ==> left == 0)
  }

  lemma CreateKeeps(v: View, v': View, caller: Address, gas: nat, left: nat, err: Option<Error>)
    requires CreateOutcome(v, v', caller, gas, left, err)
    ensures Keeps(v, v') && left <= gas
  {}

  lemma PaidFacts(w: World, caller: Address, a: Address, value: nat)
    requires NonNegative(w) && (value == 0 || value <= Acct(w, caller).balance)
    ensures var w' := Paid(w, caller, a, value);
            && Supply(w') == Supply(w) && NonNegative(w') && (value == 0 ==> SameState(w, w'))
            && a in w'.accounts && Acct(w', a).code == Acct(w, a).code
  {
    SupplyPut(w, a, NO_ACCOUNT);
    TransferConserves(if a in w.accounts then w else Put(w, a, NO_ACCOUNT), caller, a, value);
    hide Supply;
  }

  /** A storage write is read back, leaves every other slot and account alone and moves no balance. */
  lemma StoredFacts(w: World, a: Address, k: Word, v: Word)
    requires NonNegative(w)
    ensures var w' := Stored(w, a, k, v);
            && Supply(w') == Supply(w) && NonNegative(w') && Slot(Acct(w', a).storage, k) == v
            && (forall k' | k' != k :: Slot(Acct(w', a).storage, k') == Slot(Acct(w, a).storage, k'))
            && (forall b | b != a :: Acct(w', b) == Acct(w, b))
  {
    SupplyPut(w, a, Acct(w, a).(storage := SetSlot(Acct(w, a).storage, k, v)));
    hide Supply;
  }

  lemma TouchFacts(w: World, a: Address)
    requires NonNegative(w)
    ensures var w' := Put(w, a, Acct(w, a)); Supply(w') == Supply(w) && NonNegative(w') && SameState(w, w')
  {
    SupplyPut(w, a, Acct(w, a));
    hide Supply;
  }

  lemma BumpFacts(w: World, a: Address)
    requires NonNegative(w)
    ensures var w' := NonceBumped(w, a); Supply(w') == Supply(w) && NonNegative(w') && Acct(w', a).balance == Acct(w, a).balance
  {
    SupplyPut(w, a, Acct(w, a).(nonce := Acct(w, a).nonce + 1));
    hide Supply;
  }

  lemma EndowedFacts(w: World, caller: Address, a: Address, value: nat)
    requires NonNegative(w) && value <= Acct(w, caller).balance
    ensures var w' := Endowed(w, caller, a, value); Supply(w') == Supply(w) && NonNegative(w')
  {
    var acc := NO_ACCOUNT.(balance := Acct(w, a).balance, nonce := 1);
    SupplyPut(w, a, acc);
    TransferConserves(Put(w, a, acc), caller, a, value);
    hide Supply;
  }

  lemma CodeFacts(w: World, a: Address, code: seq<byte>)
    requires NonNegative(w)
    ensures var w' := Put(w, a, Acct(w, a).(code := code)); Supply(w') == Supply(w) && NonNegative(w')
  {
    SupplyPut(w, a, Acct(w, a).(code := code));
    hide Supply;
  }

  class KVM {
    const db: StateDB
    const env: Env
    var depth: nat
    var readOnly: bool
    var returnData: seq<byte>
    var callGasTemp: uint64
    var polls: nat                 // looks at the cancellation flag so far

    ghost predicate Valid()
      reads this`depth, db
    {
      db.Valid() && NonNegative(db.world) && depth <= CALL_CREATE_DEPTH + 1
    }

    ghost function State(): View
      reads this`depth, this`readOnly, db
    {
      View(db.world, db.revisions, db.saved, depth, readOnly)
    }

    /** Where the frame stands. */
    function Snap(s: Scope): Machine
      reads this`returnData, this`polls, db`world, s`pc, s`stack, s`store, s`gas
    {
      Machine(s.pc, s.stack, s.store, s.gas, returnData, db.world, polls)
    }

    function Ctx(s: Scope): Context
      reads this`readOnly
    {
      Context(s.code, s.self, s.caller, s.value, s.input, readOnly)
    }

    lemma StateKept()
      requires Valid()
      ensures Keeps(State(), State())
    {}

    constructor (db: StateDB, env: Env)
      requires db.Valid() && NonNegative(db.world)
      ensures Valid() && !readOnly && depth == 0 && polls == 0 && this.db == db && this.env == env
    {
      this.db, this.env := db, env;
      depth, readOnly, returnData, callGasTemp, polls := 0, false, [], 0, 0;
    }

    // -------------------------------------------------------------- gas

    method MemoryGas(s: Scope, size: uint64) returns (fee: Option<uint64>)
      requires MemInv(|s.store|, s.lastGasCost) && size % 32 == 0
      modifies s`lastGasCost
      ensures fee.Some? <==> size <= MAX_MEM
      ensures fee.Some? ==> MemInv(Larger(|s.store|, size), s.lastGasCost)
      ensures fee.Some? ==> fee.value == s.lastGasCost - old(s.lastGasCost) && fee.value < 0x100_0000_0000_0000
      ensures fee.None? ==> s.lastGasCost == old(s.lastGasCost)
    {
      ExpansionTelescopes(|s.store|, s.lastGasCost, size);
      var r := MemoryGasCost(|s.store|, s.lastGasCost, size);
      hide MemInv, MemoryGasCost;
      if r.None? { return None; }
      s.lastGasCost := r.value.1;
      return Some(r.value.0);
    }

    /** Fee for memory plus a rate per word of data: copies and hashing. */
    method PerWordGas(s: Scope, size: uint64, len: Word, rate: nat) returns (cost: Option<uint64>)
      requires MemInv(|s.store|, s.lastGasCost) && size % 32 == 0 && rate <= 6
      modifies s`lastGasCost
      ensures cost.Some? <==> size <= MAX_MEM && len < TWO_64
      ensures cost.Some? ==> MemInv(Larger(|s.store|, size), s.lastGasCost)
      ensures cost.Some? ==> cost.value == s.lastGasCost - old(s.lastGasCost) + rate * Words(len)
      ensures s.lastGasCost - old(s.lastGasCost) < 0x100_0000_0000_0000
    {
      hide MemInv, ToWordSize, Words;
      var fee := MemoryGas(s, size);
      if fee.None? || len >= TWO_64 { return None; }
      WordSize(len);
      ProductMono(rate, Words(len), 0x800_0000_0000_0000);
      var words := SafeMul(ToWordSize(len), rate);
      if words.None? { return None; }
      return SafeAdd(fee.value, words.value);
    }

    method LogGas(s: Scope, size: uint64, topics: nat) returns (cost: Option<uint64>)
      requires MemInv(|s.store|, s.lastGasCost) && size % 32 == 0 && |s.stack| >= 2 && topics <= 4
      modifies s`lastGasCost
      ensures var due := s.lastGasCost - old(s.lastGasCost) + 375 + 375 * topics + 8 * Back(s.stack, 1);
              && (cost.Some? <==> size <= MAX_MEM && due < TWO_64)
              && (cost.Some? ==> cost.value == due)
      ensures cost.Some? ==> MemInv(Larger(|s.store|, size), s.lastGasCost)
      ensures s.lastGasCost - old(s.lastGasCost) < 0x100_0000_0000_0000
    {
      hide MemInv;
      var requested := Back(s.stack, 1);
      if requested >= TWO_64 { return None; }
      var fee := MemoryGas(s, size);
      if fee.None? { return None; }
      var data := SafeMul(requested, 8);
      if data.None? { return None; }
      return SafeAdd(fee.value + 375 + 375 * topics, data.value);
    }

    /** Cost of a storage write; clearing a slot earns a refund. */
    method SStoreGas(s: Scope) returns (cost: uint64)
      requires Valid() && |s.stack| >= 2 && !readOnly
      modifies db
      ensures Valid() && Keeps(old(State()), State()) && cost >= 5000
      ensures var (was, next) := (Slot(Acct(old(db.world), s.self).storage, Back(s.stack, 0)), Back(s.stack, 1));
              && cost == (if was == 0 && next != 0 then 20000 else 5000)
              && db.world == if was != 0 && next == 0 then Refunded(old(db.world), 15000) else old(db.world)
    {
      var val := Slot(Acct(db.world, s.self).storage, Back(s.stack, 0));
      var y := Back(s.stack, 1);
      if val == 0 && y != 0 { return 20000; }
      if val != 0 && y == 0 {
        db.AddRefund(15000);
        return 5000;
      }
      return 5000;
    }

    method SelfDestructGas(s: Scope) returns (cost: uint64)
      requires Valid() && |s.stack| >= 1 && !readOnly
      modifies db
      ensures Valid() && Keeps(old(State()), State())
      ensures cost == DestructPrice(old(db.world), s.self, ToAddress(Back(s.stack, 0)))
      ensures db.world == if Acct(old(db.world), s.self).suicided then old(db.world) else Refunded(old(db.world), 24000)
    {
      var a := ToAddress(Back(s.stack, 0));
      cost := 0;
      if Empty(db.world, a) && Acct(db.world, s.self).balance != 0 {
        cost := 25000;
      } else if a !in db.world.accounts {
        cost := 25000;
      }
      if !Acct(db.world, s.self).suicided { db.AddRefund(24000); }
    }

    /** Base cost of a nested call, and the share of the gas it may use. */
    method CallGas(s: Scope, d: Dynamic, size: uint64) returns (cost: Option<uint64>, ghost base: uint64)
      requires MemInv(|s.store|, s.lastGasCost) && size % 32 == 0 && Nested(d) && |s.stack| >= GasArgs(d)
      modifies s`lastGasCost, this`callGasTemp
      ensures cost.Some? <==> size <= MAX_MEM
      ensures cost.Some? ==> MemInv(Larger(|s.store|, size), s.lastGasCost)
      ensures cost.Some? ==> base == s.lastGasCost - old(s.lastGasCost) + Price(d, db.world, s.self, s.stack)
      ensures cost.Some? ==> ShareSet(s, cost.value, base)
    {
      hide MemInv, Empty, KvmGas.CallGas;
      var extra: uint64 := 0;
      if d.CallGas? {
        var transfersValue := Back(s.stack, 2) != 0;
        var a := ToAddress(Back(s.stack, 1));
        if transfersValue && Empty(db.world, a) { extra := extra + CALL_NEW_ACCOUNT_GAS; }
        if a !in db.world.accounts { extra := extra + CALL_NEW_ACCOUNT_GAS; }
        if transfersValue { extra := extra + CALL_VALUE_TRANSFER_GAS; }
      } else if d.CallCodeGas? && Back(s.stack, 2) != 0 {
        extra := extra + CALL_VALUE_TRANSFER_GAS;
      }
      var fee := MemoryGas(s, size);
      if fee.None? { return None, 0; }
      base := extra + fee.value;
      callGasTemp := KvmGas.CallGas(s.gas, extra + fee.value, Back(s.stack, 0));
      ShareBound(s.gas, base, Back(s.stack, 0));
      cost := SafeAdd(extra + fee.value, callGasTemp);
    }

    /** The gas share of a nested call has been worked out from the gas left and its base cost. */
    ghost predicate ShareSet(s: Scope, cost: uint64, base: uint64)
      requires |s.stack| >= 1
      reads this`callGasTemp, s`gas, s`stack
    {
      && base < 0x200_0000_0000_0000
      && callGasTemp == KvmGas.CallGas(s.gas, base, Back(s.stack, 0))
      && SafeAdd(base, callGasTemp) == Some(cost)
    }

    /** What a gas function reports: the growth of memory and the price, and for a nested call its share too. */
    method DynamicGas(s: Scope, d: Dynamic, size: uint64) returns (cost: Option<uint64>, ghost base: uint64)
      requires Valid() && MemInv(|s.store|, s.lastGasCost) && size % 32 == 0 && |s.stack| >= GasArgs(d)
      requires d.SStoreGas? || d.SelfDestructGas? ==> !readOnly
      requires d.LogGas? ==> d.topics <= 4
      modifies db, s`lastGasCost, this`callGasTemp
      ensures Valid() && Keeps(old(State()), State())
      ensures db.world == Credited(d, old(db.world), s.self, s.stack)
      ensures DataLen(d, s.stack) <= size ==> (cost.Some? <==> ChargesMemory(d) ==> size <= MAX_MEM)
      ensures cost.Some? && ChargesMemory(d) ==> size <= MAX_MEM && MemInv(Larger(|s.store|, size), s.lastGasCost)
      ensures !ChargesMemory(d) ==> s.lastGasCost == old(s.lastGasCost)
      ensures cost.Some? ==> base == s.lastGasCost - old(s.lastGasCost) + Price(d, old(db.world), s.self, s.stack)
      ensures cost.Some? ==> if Nested(d) then ShareSet(s, cost.value, base) else cost.value == base
    {
      hide StateDB.Valid, NonNegative, Keeps, MemInv, ShareSet, Empty, DestructPrice, CallPrice;
      StateKept();
      base := 0;
      cost := None;
      if Nested(d) {
        cost, base := CallGas(s, d, size);
      } else if ChargesMemory(d) {
        cost := SizedGas(s, d, size);
        base := if cost.Some? then cost.value else 0;
      } else {
        var plain := UnsizedGas(s, d);
        cost, base := Some(plain), plain;
      }
    }

    method SizedGas(s: Scope, d: Dynamic, size: uint64) returns (cost: Option<uint64>)
      requires MemInv(|s.store|, s.lastGasCost) && size % 32 == 0 && |s.stack| >= GasArgs(d)
      requires ChargesMemory(d) && !Nested(d) && (d.LogGas? ==> d.topics <= 4)
      modifies s`lastGasCost
      ensures DataLen(d, s.stack) <= size ==> (cost.Some? <==> size <= MAX_MEM)
      ensures cost.Some? ==> size <= MAX_MEM && MemInv(Larger(|s.store|, size), s.lastGasCost)
      ensures cost.Some? ==> cost.value == s.lastGasCost - old(s.lastGasCost) + Price(d, db.world, s.self, s.stack)
    {
      hide MemInv, Words, Empty, DestructPrice, CallPrice;
      if d.MemoryGas? {
        cost := MemoryGas(s, size);
      } else if d.CopierGas? {
        cost := PerWordGas(s, size, Back(s.stack, d.len), 3);
      } else if d.Sha3Gas? {
        cost := PerWordGas(s, size, Back(s.stack, 1), 6);
      } else {
        cost := LogGas(s, size, d.topics);
      }
    }

    method UnsizedGas(s: Scope, d: Dynamic) returns (cost: uint64)
      requires Valid() && |s.stack| >= GasArgs(d) && !ChargesMemory(d) && (d.SStoreGas? || d.SelfDestructGas? ==> !readOnly)
      modifies db
      ensures Valid() && Keeps(old(State()), State())
      ensures db.world == Credited(d, old(db.world), s.self, s.stack)
      ensures cost == Price(d, old(db.world), s.self, s.stack)
    {
      hide StateDB.Valid, NonNegative, Keeps, Empty, DestructPrice, CallPrice;
      StateKept();
      cost := 0;
      if d.ExpGas? {
        PowerOfWord();
        ByteLenBound(Back(s.stack, 1), 32);
        cost := ByteLen(Back(s.stack, 1)) * 50 + 10;
      } else if d.SStoreGas? {
        cost := SStoreGas(s);
      } else if d.SelfDestructGas? {
        cost := SelfDestructGas(s);
      }
    }

    /** Gas a nested call can hold: its share, and the stipend when it carries value. */
    function Share(s: Scope, d: Dynamic): nat
      requires |s.stack| >= GasArgs(d)
      reads this`callGasTemp, s`stack
    {
      if !Nested(d) then 0 else callGasTemp + if MovesValue(d, s.stack) then CALL_STIPEND else 0
    }

    /** What an instruction costs here. */
    ghost function CostOf(s: Scope, o: Operation): Option<nat>
      requires HasArgs(o, s.stack)
      reads this, db, s
    {
      CostAt(env, Ctx(s), o, Snap(s))
    }

    /**
     Charges for an instruction and grows memory for it: exactly its cost is taken, and it is refused exactly if it cannot
     be paid for. What is left and what a nested call may use are together less than before, and the share is at most all
     but one 64th of what there was.
     */
    method Charge(s: Scope, op: byte, o: Operation) returns (err: Option<Error>)
      requires Valid() && s.AtHead() && Fits(op, o) && o.minStack <= |s.stack| <= o.maxStack && HasArgs(o, s.stack)
      requires o.writes ==> !readOnly
      modifies db, s`gas, s`store, s`lastGasCost, s`feesPaid, this`callGasTemp
      ensures Valid() && Keeps(old(State()), State()) && s.gas <= old(s.gas)
      ensures err.None? ==> db.world == Credited(o.dynamic, old(db.world), s.self, s.stack)
      ensures err.None? <==> old(CostOf(s, o)).Some?
      ensures err.None? ==> s.gas == old(s.gas) - old(CostOf(s, o)).value
      ensures err.None? ==> s.MemPaid() && Covered(o.memory, s.stack, |s.store|)
      ensures err.None? ==> s.store == Extended(old(s.store), WantedSize(o.memory, s.stack).value)
      ensures err.None? && Nested(o.dynamic) ==>
                callGasTemp == RestShare(o.dynamic, Price(o.dynamic, old(db.world), s.self, s.stack), s.stack, |old(s.store)|,
                                         WantedSize(o.memory, s.stack).value, old(s.gas) - o.constantGas)
      ensures err.None? && !o.halts && !o.reverts ==> s.gas + Share(s, o.dynamic) < old(s.gas)
      ensures err.None? && Nested(o.dynamic) ==> callGasTemp <= old(s.gas) - old(s.gas) / 64
      ensures err == Some(ErrGasUintOverflow) <==> o.constantGas <= old(s.gas) && WantedSize(o.memory, s.stack).None?
      ensures err.Some? ==> err.value == ErrOutOfGas || err.value == ErrGasUintOverflow
    {
      hide Valid, StateDB.Valid, NonNegative, Keeps, Fits, Bounded, Flagged, MemInv, Covered, Touches, AreaArgs, GasArgs,
        WantedSize, Scope.AtHead, RestCost, Price, SizesData, DataLen, ChargesMemory, IsStart, RestShare, Credited;
      StateKept();
      HeadFacts(s, op, o);
      var ok := s.UseGas(o.constantGas);
      if !ok { return Some(ErrOutOfGas); }
      var wanted := WantedSize(o.memory, s.stack);
      if wanted.None? { return Some(ErrGasUintOverflow); }
      WantedCovers(o.execute, s.stack, Larger(|s.store|, wanted.value));
      DataFits(o, s.stack);
      err := ChargeSized(s, o, wanted.value);
    }

    method ChargeSized(s: Scope, o: Operation, size: uint64) returns (err: Option<Error>)
      requires Valid() && s.MemPaid() && GasArgs(o.dynamic) <= |s.stack| && size % 32 == 0
      requires o.constantGas <= 32000 && (o.writes ==> !readOnly)
      requires DataLen(o.dynamic, s.stack) <= size && (!ChargesMemory(o.dynamic) ==> size == 0)
      requires o.dynamic.LogGas? ==> o.dynamic.topics <= 4
      requires o.dynamic.SStoreGas? || o.dynamic.SelfDestructGas? ==> o.writes
      modifies db, s`gas, s`store, s`lastGasCost, s`feesPaid, this`callGasTemp
      ensures Valid() && Keeps(old(State()), State()) && s.gas <= old(s.gas)
      ensures err.None? ==> db.world == Credited(o.dynamic, old(db.world), s.self, s.stack)
      ensures var price := Price(o.dynamic, old(db.world), s.self, s.stack);
              var cost := RestCost(env.galaxias, o, price, s.stack, |old(s.store)|, size, old(s.gas));
              && (err.None? <==> cost.Some?)
              && (err.None? ==> s.gas == old(s.gas) - cost.value)
      ensures err.None? ==> s.MemPaid() && s.store == Extended(old(s.store), size)
      ensures err.None? && Nested(o.dynamic) ==>
                callGasTemp == RestShare(o.dynamic, Price(o.dynamic, old(db.world), s.self, s.stack), s.stack,
                                         |old(s.store)|, size, old(s.gas))
      ensures err.None? ==> s.gas + Share(s, o.dynamic) <= old(s.gas)
      ensures err.None? && (o.dynamic.ExpGas? || o.dynamic.LogGas? || o.dynamic.SStoreGas?) ==> s.gas < old(s.gas)
      ensures err.None? && Nested(o.dynamic) ==> callGasTemp <= old(s.gas) - old(s.gas) / 64
      ensures err.Some? ==> err.value == ErrOutOfGas
    {
      hide Valid, StateDB.Valid, NonNegative, Keeps, MemInv, GasArgs, Price, DataLen, Growth, RestShare;
      StateKept();
      if !o.dynamic.NoDynamic? {
        err := ChargeRest(s, o, size);
        if err.Some? { return; }
      }
      s.Resize(size);
      return None;
    }

    lemma HeadFacts(s: Scope, op: byte, o: Operation)
      requires s.AtHead() && Fits(op, o) && o.minStack <= |s.stack|
      ensures s.MemPaid() && o.constantGas <= 32000 && (s.pc >= |s.code| || IsStart(s.code, s.pc))
      ensures AreaArgs(o.memory) <= o.minStack && GasArgs(o.dynamic) <= o.minStack && o.memory == Touches(o.execute)
      ensures (o.memory != NoMemory ==> ChargesMemory(o.dynamic)) && SizesData(o.dynamic, o.memory)
      ensures (o.dynamic.LogGas? ==> o.dynamic.topics <= 4) && (o.dynamic.SStoreGas? || o.dynamic.SelfDestructGas? ==> o.writes)
      ensures o.halts || o.reverts || o.constantGas > 0 || o.dynamic.ExpGas? || o.dynamic.LogGas? || o.dynamic.SStoreGas?
    {}

    method ChargeRest(s: Scope, o: Operation, size: uint64) returns (err: Option<Error>)
      requires Valid() && MemInv(|s.store|, s.lastGasCost) && GasArgs(o.dynamic) <= |s.stack| && size % 32 == 0
      requires o.constantGas <= 32000 && !o.dynamic.NoDynamic? && (o.writes ==> !readOnly)
      requires DataLen(o.dynamic, s.stack) <= size && (!ChargesMemory(o.dynamic) ==> size == 0)
      requires o.dynamic.LogGas? ==> o.dynamic.topics <= 4
      requires o.dynamic.SStoreGas? || o.dynamic.SelfDestructGas? ==> o.writes
      modifies db, s`gas, s`lastGasCost, s`feesPaid, this`callGasTemp
      ensures Valid() && Keeps(old(State()), State()) && s.gas <= old(s.gas)
      ensures err.None? ==> db.world == Credited(o.dynamic, old(db.world), s.self, s.stack)
      ensures var price := Price(o.dynamic, old(db.world), s.self, s.stack);
              var cost := RestCost(env.galaxias, o, price, s.stack, |s.store|, size, old(s.gas));
              && (err.None? <==> cost.Some?)
              && (err.None? ==> s.gas == old(s.gas) - cost.value)
      ensures err.None? ==> MemInv(Larger(|s.store|, size), s.lastGasCost)
      ensures err.None? ==> s.feesPaid - old(s.feesPaid) == s.lastGasCost - old(s.lastGasCost)
      ensures err.None? && Nested(o.dynamic) ==>
                callGasTemp == RestShare(o.dynamic, Price(o.dynamic, old(db.world), s.self, s.stack), s.stack, |s.store|,
                                         size, old(s.gas))
      ensures err.None? ==> s.gas + Share(s, o.dynamic) <= old(s.gas)
      ensures err.None? && (o.dynamic.ExpGas? || o.dynamic.LogGas? || o.dynamic.SStoreGas?) ==> s.gas < old(s.gas)
      ensures err.None? && Nested(o.dynamic) ==> callGasTemp <= old(s.gas) - old(s.gas) / 64
      ensures err.Some? ==> err.value == ErrOutOfGas
    {
      hide Valid, StateDB.Valid, NonNegative, Keeps, MemInv, GasArgs, KvmGas.CallGas, ChargeDynamic, SafeAdd, Price,
        Growth, DataLen, RestShare, Credited;
      ghost var price := Price(o.dynamic, db.world, s.self, s.stack);
      ghost var base;
      var cost;
      cost, base := DynamicGas(s, o.dynamic, size);
      if cost.None? { return Some(ErrOutOfGas); }
      RestFacts(s, o, old(db.world), size, old(s.lastGasCost), base, cost.value);
      var left := ChargeDynamic(env.galaxias, s.gas, o.constantGas, cost);
      if left.None? { return Some(ErrOutOfGas); }
      s.gas := left.value;
      s.feesPaid := s.feesPaid + (base - price);
      return None;
    }

    lemma RestFacts(s: Scope, o: Operation, w: World, size: uint64, last: uint64, base: uint64, cost: uint64)
      requires GasArgs(o.dynamic) <= |s.stack| && o.constantGas <= 32000 && !o.dynamic.NoDynamic? && size <= MAX_MEM
      requires MemInv(|s.store|, last) && MemInv(Larger(|s.store|, size), s.lastGasCost)
      requires DataLen(o.dynamic, s.stack) <= size && (o.dynamic.LogGas? ==> o.dynamic.topics <= 4)
      requires base == s.lastGasCost - last + Price(o.dynamic, w, s.self, s.stack)
      requires if Nested(o.dynamic) then ShareSet(s, cost, base) else cost == base
      ensures base >= Price(o.dynamic, w, s.self, s.stack)
      ensures var left := ChargeDynamic(env.galaxias, s.gas, o.constantGas, Some(cost));
              var due := RestCost(env.galaxias, o, Price(o.dynamic, w, s.self, s.stack), s.stack, |s.store|, size, s.gas);
              && (left.Some? <==> due.Some?)
              && (left.Some? ==> left.value == s.gas - due.value && left.value + Share(s, o.dynamic) <= s.gas)
              && (left.Some? && (o.dynamic.ExpGas? || o.dynamic.LogGas? || o.dynamic.SStoreGas?) ==> left.value < s.gas)
              && (left.Some? && Nested(o.dynamic) ==> callGasTemp <= s.gas - s.gas / 64)
              && (left.Some? && Nested(o.dynamic) ==>
                    callGasTemp == RestShare(o.dynamic, Price(o.dynamic, w, s.self, s.stack), s.stack, |s.store|, size, s.gas))
    {
      hide MemInv, GasArgs, KvmGas.CallGas, ChargeDynamic, SafeAdd, Price, Growth, DataLen, RestCost;
      GrowthIs(|s.store|, last, size, s.lastGasCost);
      var price := Price(o.dynamic, w, s.self, s.stack);
      PriceBound(o.dynamic, w, s.self, s.stack);
      PriceAtLeast(o.dynamic, w, s.self, s.stack);
      var share := if Nested(o.dynamic) then callGasTemp else 0;
      RestExact(env.galaxias, o, price, s.stack, |s.store|, size, s.gas, base, cost, share);
    }

    // -------------------------------------------------------------- instructions

    /** The turn an executed instruction makes of the frame, once the program counter has moved on. */
    ghost function Took(s: Scope, e: Exec, ret: seq<byte>, err: Option<Error>): Turn
      reads this, db, s
    {
      if err.Some? then Over(Failed(err.value, polls))
      else if e.Revert? then Over(Reverted(ret, s.gas, polls))
      else if Ends(e) then Over(Finished(ret, s.gas, db.world, polls))
      else
        Next(Snap(s).(pc := if e.Jump? || e.JumpI? then s.pc else s.pc + 1,
                      returnData := if Local(e) then returnData else ret))
    }

    predicate OnStack(e: Exec) { Produces(e) || e.Stop? || e.Pop? || e.JumpDest? || e.Swap? }

    predicate Computes(e: Exec) { e.Alu? || e.Sha3? || e.Env? || e.Lookup? }

    /** Pushes a word that is computed from the words popped, or looked up. */
    method ExecuteCompute(s: Scope, op: byte, e: Exec)
      requires Computes(e) && Enough(e, Snap(s))
      modifies s`stack
      ensures s.stack == Drop(old(s.stack), Pops(e)) + [Produced(env, Ctx(s), op, e, old(Snap(s)))]
    {
      hide EnvWord, LookupWord, Enough, Pops, Covered, Touches;
      EnoughStack(e, Snap(s));
      if e.Alu? { s.ReplaceTop(e.args, env.alu(op, s.stack[|s.stack| - e.args..])); }
      else if e.Sha3? { s.ReplaceTop(2, env.keccak(s.GetPtr(Back(s.stack, 0), Back(s.stack, 1)))); }
      else if e.Env? { s.PushWord(EnvWord(env, Ctx(s), Snap(s), op)); }
      else { s.ReplaceTop(1, LookupWord(env, Ctx(s), Snap(s), op, Back(s.stack, 0))); }
    }

    /** Pushes a word: a computed one, or one from memory, from code or from the stack. */
    method ExecuteProduce(s: Scope, op: byte, e: Exec)
      requires Produces(e) && Enough(e, Snap(s))
      modifies s`stack, s`pc
      ensures s.stack ==
              (if e.Dup? then old(s.stack) else Drop(old(s.stack), Pops(e))) + [Produced(env, Ctx(s), op, e, old(Snap(s)))]
      ensures s.pc == old(s.pc) + if e.Push? then e.size else 0
    {
      hide PushData, WordOf, Enough, Pops, Covered, Touches;
      EnoughStack(e, Snap(s));
      EnoughMemory(e, Snap(s));
      if Computes(e) { ExecuteCompute(s, op, e); }
      else if e.MLoad? { s.OpMload(); }
      else if e.Push? { if e.size == 1 { s.OpPush1(); } else { s.OpPush(e.size); } }
      else { s.OpDup(e.n); }
    }

    /** Moves words, or does nothing. */
    method ExecuteMove(s: Scope, e: Exec)
      requires (e.Stop? || e.Pop? || e.JumpDest? || e.Swap?) && Enough(e, Snap(s))
      modifies s`stack
      ensures s.stack == if e.Stop? then old(s.stack) else Moves(e, old(s.stack))
    {
      hide Enough, Pops, Exchanged;
      EnoughStack(e, Snap(s));
      if e.Pop? { s.OpPop(); } else if e.Swap? { s.OpSwap(e.n); }
    }

    method ExecuteStack(s: Scope, op: byte, e: Exec)
      requires OnStack(e) && Enough(e, Snap(s))
      modifies s`stack, s`pc
      ensures |s.stack| == old(|s.stack|) - Pops(e) + Pushes(e)
      ensures s.pc == old(s.pc) + if e.Push? then e.size else 0
      ensures Took(s, e, [], None) == Effect(env, Ctx(s), op, e, old(Snap(s)))
    {
      hide Effect, Enough, Pops, Pushes, Produced, Moves, Drop, Ends, Local;
      EnoughStack(e, Snap(s));
      if Produces(e) {
        ProducedIs(env, Ctx(s), op, e, Snap(s));
        ExecuteProduce(s, op, e);
      } else {
        MovedIs(env, Ctx(s), op, e, Snap(s));
        MovedSize(e, s.stack);
        ExecuteMove(s, e);
      }
      TookIs(s, e);
    }

    lemma TookIs(s: Scope, e: Exec)
      requires OnStack(e)
      ensures Took(s, e, [], None) ==
              if e.Stop? then Over(Finished([], s.gas, db.world, polls)) else Next(Snap(s).(pc := s.pc + 1))
    {}

    predicate OnMemory(e: Exec) { e.MStore? || e.MStore8? || e.Return? || e.Revert? }

    /** Stores, and the two instructions that end a run with a piece of memory. */
    method ExecuteMemory(s: Scope, op: byte, e: Exec) returns (ret: seq<byte>)
      requires OnMemory(e) && Enough(e, Snap(s))
      modifies s`stack, s`store
      ensures |s.stack| == old(|s.stack|) - Pops(e) + Pushes(e) && |s.store| == old(|s.store|)
      ensures Took(s, e, ret, None) == Effect(env, Ctx(s), op, e, old(Snap(s)))
    {
      hide Write, ToBytes, WordOf, Effect, Enough, Pops, Pushes, Covered, Touches;
      ghost var c, m := Ctx(s), Snap(s);
      EnoughMemory(e, m);
      if Ends(e) { EndedIs(env, c, op, e, m); } else { StoredIs(env, c, op, e, m); }
      ret := [];
      if e.MStore? { s.OpMstore(); }
      else if e.MStore8? { s.OpMstore8(); }
      else {
        ret := s.GetPtr(Back(s.stack, 0), Back(s.stack, 1));
        s.stack := Drop(s.stack, 2);
      }
    }

    /** Copies data into memory: zeros stand for what lies past its end, except that return data has no such end. */
    method ExecuteCopy(s: Scope, op: byte, e: Exec) returns (err: Option<Error>)
      requires Copies(e) && Enough(e, Snap(s)) && |s.store| < TWO_64
      modifies s`stack, s`store
      ensures |s.stack| == old(|s.stack|) - Pops(e) + Pushes(e) && |s.store| == old(|s.store|)
      ensures Took(s, e, [], err) == Effect(env, Ctx(s), op, e, old(Snap(s)))
      ensures err.Some? ==> err.value == ErrReturnDataOutOfBounds
    {
      hide Write, Copied, Effect, Enough, Pops, Pushes, Took, Covered, Within;
      ghost var m := Snap(s);
      EnoughCopy(e, m);
      CopiedIs(env, Ctx(s), op, e, m);
      err := None;
      if e.CallDataCopy? { s.OpDataCopy(s.input); }
      else if e.CodeCopy? { s.OpDataCopy(s.code); }
      else if e.ReturnDataCopy? { err := s.OpReturnDataCopy(returnData); }
      else {
        var a := ToAddress(Back(s.stack, 0));
        s.OpPop();
        s.OpDataCopy(Acct(db.world, a).code);
      }
      CopyTook(s, e, err);
    }

    lemma CopyTook(s: Scope, e: Exec, err: Option<Error>)
      requires Copies(e)
      ensures Took(s, e, [], err) == if err.Some? then Over(Failed(err.value, polls)) else Next(Snap(s).(pc := s.pc + 1))
    {}

    method ExecuteJump(s: Scope, op: byte, e: Exec) returns (err: Option<Error>)
      requires s.Valid() && s.jumpdests.Valid() && (e.Jump? || e.JumpI?) && Enough(e, Snap(s))
      modifies s`stack, s`pc, s`analysis, s.jumpdests
      ensures s.Valid() && s.jumpdests.Valid()
      ensures |s.stack| == old(|s.stack|) - Pops(e) + Pushes(e) && (err.None? ==> s.pc == old(s.pc) + 1 || IsStart(s.code, s.pc))
      ensures Took(s, e, [], err) == Effect(env, Ctx(s), op, e, old(Snap(s)))
      ensures err.Some? ==> err.value == ErrInvalidJump
    {
      hide Scope.Valid, JumpCache.Valid, IsStart, Effect;
      JumpedIs(env, Ctx(s), op, e, Snap(s));
      if e.Jump? { err := s.OpJump(); } else { err := s.OpJumpi(); }
    }

    method OpSstore(s: Scope)
      requires Valid() && !readOnly && |s.stack| >= 2
      modifies db, s`stack
      ensures Valid() && Keeps(old(State()), State()) && s.stack == Drop(old(s.stack), 2)
      ensures db.world == Stored(old(db.world), s.self, Back(old(s.stack), 0), Back(old(s.stack), 1))
    {
      var loc, val := Back(s.stack, 0), Back(s.stack, 1);
      s.stack := Drop(s.stack, 2);
      StoredFacts(db.world, s.self, loc, val);
      hide Supply, StateDB.Valid, SameState, NonNegative;
      db.SetState(s.self, loc, val);
    }

    method OpLog(s: Scope, n: nat)
      requires Valid() && !readOnly && |s.stack| >= n + 2 && Covered(Range(0, 1), s.stack, |s.store|)
      modifies db, s`stack
      ensures Valid() && Keeps(old(State()), State()) && s.stack == Drop(old(s.stack), n + 2)
      ensures db.world == old(db.world).(logs := old(db.world).logs + [LogOf(s.self, old(s.stack), n, s.store)])
    {
      var topics := seq(n, i requires 0 <= i < n && n + 2 <= |s.stack| reads s => Back(s.stack, 2 + i));
      var data := s.GetPtr(Back(s.stack, 0), Back(s.stack, 1));
      s.stack := Drop(s.stack, n + 2);
      hide StateDB.Valid;
      var log := Log.Log(s.self, topics, data);
      assert log.topics == LogOf(s.self, old(s.stack), n, s.store).topics;
      db.AddLog(log);
    }

    method OpSuicide(s: Scope)
      requires Valid() && !readOnly && |s.stack| >= 1
      modifies db, s`stack
      ensures Valid() && Keeps(old(State()), State()) && s.stack == Drop(old(s.stack), 1)
      ensures db.world == Destructed(old(db.world), s.self, ToAddress(Back(old(s.stack), 0)))
    {
      var beneficiary := ToAddress(Back(s.stack, 0));
      s.stack := Drop(s.stack, 1);
      DestructSupply(db.world, s.self, beneficiary);
      hide StateDB.Valid, Supply, NonNegative, Destructed, SameState;
      db.SelfDestruct(s.self, beneficiary);
    }

    // -------------------------------------------------------------- calls

    /** Refusing a call, or not making it, is an outcome. */
    lemma NothingDone(gas: uint64)
      requires Valid()
      ensures forall err: Option<Error> | err.None? || Refused(err.value) :: CallOutcome(State(), State(), gas, gas, err)
    {
      StateKept();
    }

    method RunPrecompiled(a: Address, input: seq<byte>, gas: uint64) returns (ret: seq<byte>, left: uint64, err: Option<Error>)
      ensures left <= gas && (err.Some? ==> !Refused(err.value) && err.value != ErrExecutionReverted)
      ensures err.None? <==> env.requiredGas(a, input) <= gas && env.runPrecompile(a, input).Some?
      ensures err.None? ==> left == gas - env.requiredGas(a, input) && Some(ret) == env.runPrecompile(a, input)
      ensures Seen(ret, left, err, db.world, polls) == Precompiled(env, a, input, gas, db.world, polls) && NoData(ret, err)
    {
      var cost := env.requiredGas(a, input);
      if gas < cost { return [], 0, Some(ErrOutOfGas); }
      var out := env.runPrecompile(a, input);
      if out.None? { return [], gas - cost, Some(ErrPrecompile); }
      return out.value, gas - cost, None;
    }

    method Begin() returns (id: nat)
      requires Valid()
      modifies db
      ensures Valid() && Live(old(State()), id, State()) && Keeps(old(State()), State()) && db.world == old(db.world)
    {
      id := db.Snapshot();
    }

    /** On an error, undoes everything since the snapshot and, unless the callee asked for it, takes the gas. */
    method Settle(ghost v: View, id: nat, gas: uint64, err: Option<Error>) returns (left: uint64)
      requires Valid() && Live(v, id, State()) && (err.Some? ==> !Refused(err.value))
      modifies db
      ensures Valid() && CallOutcome(v, State(), gas, left, err)
      ensures db.world == (if err.None? then old(db.world) else v.world)
      ensures left == if err.None? || err.value == ErrExecutionReverted then gas else 0
    {
      if err.None? { return gas; }
      ghost var v1, k := State(), |v.revisions|;
      db.RevertToSnapshot(id, k);
      assert v1.revisions[..k] == v.revisions && v1.saved[..k] == v.saved;
      KeepsSame(v);
      return if err.value != ErrExecutionReverted then 0 else gas;
    }

    /** Makes the callee's account if it is missing and moves the value. */
    method Pay(caller: Address, a: Address, value: nat)
      requires Valid() && (value == 0 || (!readOnly && value <= Acct(db.world, caller).balance))
      modifies db
      ensures Valid() && Keeps(old(State()), State()) && db.revisions == old(db.revisions) && db.saved == old(db.saved)
      ensures db.world == Paid(old(db.world), caller, a, value)
      ensures a in db.world.accounts && Acct(db.world, a).code == Acct(old(db.world), a).code
    {
      hide Supply, StateDB.Valid, NonNegative, SameState, Moved;
      StateKept();
      PaidFacts(db.world, caller, a, value);
      if a !in db.world.accounts { db.CreateAccount(a); }
      db.Transfer(caller, a, value);
    }

    /** Runs code in a new frame. */
    method RunContract(code: seq<byte>, hash: CodeHash, self: Address, caller: Address, value: nat, input: seq<byte>,
                       jumpdests: JumpCache, gas: uint64, ro: bool)
      returns (ret: seq<byte>, left: uint64, err: Option<Error>)
      requires Valid() && jumpdests.Valid() && depth <= CALL_CREATE_DEPTH && (hash == Unset || hash == Keccak(code))
      modifies this, db, jumpdests
      ensures Valid() && jumpdests.Valid() && Keeps(old(State()), State()) && left <= gas
      ensures ro ==> SameState(old(db.world), db.world)
      ensures Seen(ret, left, err, db.world, polls) ==
              RunCode(env, old(depth), Context(code, self, caller, value, input, ro || old(readOnly)), gas, old(db.world),
                      old(polls))
      ensures NoData(ret, err) && (err.Some? ==> !Refused(err.value) && err.value != ErrContractAddressCollision)
      decreases gas, 7
    {
      hide StateDB.Valid, NonNegative, JumpCache.Valid, SameState, Supply, RunCode, NoData, Seen;
      var s := new Scope(code, hash, self, caller, value, input, jumpdests, gas);
      ret, err := Run(s, ro);
      left := s.gas;
    }

    method Call(caller: Address, jumpdests: JumpCache, a: Address, input: seq<byte>, gas: uint64, value: nat)
      returns (ret: seq<byte>, left: uint64, err: Option<Error>)
      requires Valid() && jumpdests.Valid() && (readOnly ==> value == 0)
      modifies this, db, jumpdests
      ensures Valid() && jumpdests.Valid() && CallOutcome(old(State()), State(), gas, left, err)
      ensures Result(ret, left, err, db.world, polls) ==
              CallResult(env, old(depth), old(readOnly), caller, a, input, gas, value, old(db.world), old(polls))
      decreases gas, 9
    {
      hide Valid, StateDB.Valid, NonNegative, JumpCache.Valid, Keeps, Live, Paid, SameState, RunAt, Settled, Seen, NoData;
      ghost var v := State();
      NothingDone(gas);
      if env.noRecursion && depth > 0 { return [], gas, None; }
      if depth > CALL_CREATE_DEPTH { return [], gas, Some(ErrDepth); }
      if value != 0 && Acct(db.world, caller).balance < value { return [], gas, Some(ErrInsufficientBalance); }
      var id := Begin();
      if a !in db.world.accounts && !env.isPrecompile(a) && value == 0 { return [], gas, None; }
      ghost var v1 := State();
      Pay(caller, a, value);
      ghost var v2 := State();
      LiveTrans(v, id, v1, v2);
      ret, left, err := RunTarget(a, caller, value, input, jumpdests, gas);
      LiveTrans(v, id, v2, State());
      ghost var w, kept := db.world, left;
      left := Settle(v, id, left, err);
      SettledSeen(v.world, ret, kept, left, err, w, db.world, polls);
    }

    /** Runs what is at the address: a precompile, its code, or nothing. */
    method RunTarget(a: Address, caller: Address, value: nat, input: seq<byte>, jumpdests: JumpCache, gas: uint64)
      returns (ret: seq<byte>, left: uint64, err: Option<Error>)
      requires Valid() && jumpdests.Valid() && depth <= CALL_CREATE_DEPTH
      modifies this, db, jumpdests
      ensures Valid() && jumpdests.Valid() && Keeps(old(State()), State()) && left <= gas && (err.Some? ==> !Refused(err.value))
      ensures Seen(ret, left, err, db.world, polls) ==
              RunAt(env, old(depth), a, Context(Acct(old(db.world), a).code, a, caller, value, input, old(readOnly)), gas,
                    old(db.world), old(polls))
      ensures NoData(ret, err)
      decreases gas, 8
    {
      hide StateDB.Valid, NonNegative, JumpCache.Valid, Keeps, SameState, RunFrom, Precompiled;
      StateKept();
      if env.isPrecompile(a) {
        ret, left, err := RunPrecompiled(a, input, gas);
      } else {
        var code := Acct(db.world, a).code;
        if |code| == 0 { return [], gas, None; }
        ret, left, err := RunContract(code, GetCodeHash(db.world, a), a, caller, value, input, jumpdests, gas, false);
      }
    }

    method CallCode(caller: Address, jumpdests: JumpCache, a: Address, input: seq<byte>, gas: uint64, value: nat)
      returns (ret: seq<byte>, left: uint64, err: Option<Error>)
      requires Valid() && jumpdests.Valid()
      modifies this, db, jumpdests
      ensures Valid() && jumpdests.Valid() && CallOutcome(old(State()), State(), gas, left, err)
      ensures Result(ret, left, err, db.world, polls) ==
              CallCodeResult(env, old(depth), old(readOnly), caller, a, input, gas, value, old(db.world), old(polls))
      decreases gas, 9
    {
      hide StateDB.Valid, NonNegative, JumpCache.Valid, Keeps, Live, CallOutcome, RunAt, Settled;
      NothingDone(gas);
      if env.noRecursion && depth > 0 { return [], gas, None; }
      if depth > CALL_CREATE_DEPTH { return [], gas, Some(ErrDepth); }
      if Acct(db.world, caller).balance < value { return [], gas, Some(ErrInsufficientBalance); }
      ret, left, err := RunCodeOf(a, caller, caller, value, jumpdests, input, gas);
    }

    method DelegateCall(self: Address, caller: Address, value: nat, jumpdests: JumpCache, a: Address, input: seq<byte>,
                        gas: uint64)
      returns (ret: seq<byte>, left: uint64, err: Option<Error>)
      requires Valid() && jumpdests.Valid()
      modifies this, db, jumpdests
      ensures Valid() && jumpdests.Valid() && CallOutcome(old(State()), State(), gas, left, err)
      ensures Result(ret, left, err, db.world, polls) ==
              DelegateResult(env, old(depth), old(readOnly), self, caller, value, a, input, gas, old(db.world), old(polls))
      decreases gas, 9
    {
      hide StateDB.Valid, NonNegative, JumpCache.Valid, Keeps, Live, CallOutcome, RunAt, Settled;
      NothingDone(gas);
      if env.noRecursion && depth > 0 { return [], gas, None; }
      if depth > CALL_CREATE_DEPTH { return [], gas, Some(ErrDepth); }
      ret, left, err := RunCodeOf(a, self, caller, value, jumpdests, input, gas);
    }

    /** Runs another account's code, or a precompile, for the account self. */
    method RunCodeOf(a: Address, self: Address, caller: Address, value: nat, jumpdests: JumpCache, input: seq<byte>, gas: uint64)
      returns (ret: seq<byte>, left: uint64, err: Option<Error>)
      requires Valid() && jumpdests.Valid() && depth <= CALL_CREATE_DEPTH
      modifies this, db, jumpdests
      ensures Valid() && jumpdests.Valid() && CallOutcome(old(State()), State(), gas, left, err)
      ensures Result(ret, left, err, db.world, polls) ==
              Settled(old(db.world),
                      RunAt(env, old(depth), a, Context(Acct(old(db.world), a).code, self, caller, value, input, old(readOnly)),
                            gas, old(db.world), old(polls)))
      decreases gas, 8
    {
      hide StateDB.Valid, NonNegative, JumpCache.Valid, Keeps, Live, RunCode, Precompiled, Settled, Seen, NoData;
      ghost var v := State();
      var id := Begin();
      if env.isPrecompile(a) {
        ret, left, err := RunPrecompiled(a, input, gas);
      } else {
        ghost var v1 := State();
        ret, left, err := RunContract(Acct(db.world, a).code, GetCodeHash(db.world, a), self, caller, value, input,
                                      jumpdests, gas, false);
        LiveTrans(v, id, v1, State());
      }
      ghost var w, kept := db.world, left;
      left := Settle(v, id, left, err);
      SettledSeen(v.world, ret, kept, left, err, w, db.world, polls);
    }

    /** Nothing is changed by a static call or anything it calls, whether or not the caller was read-only already. */
    method StaticCall(caller: Address, jumpdests: JumpCache, a: Address, input: seq<byte>, gas: uint64)
      returns (ret: seq<byte>, left: uint64, err: Option<Error>)
      requires Valid() && jumpdests.Valid()
      modifies this, db, jumpdests
      ensures Valid() && jumpdests.Valid() && CallOutcome(old(State()), State(), gas, left, err)
      ensures SameState(old(db.world), db.world)
      ensures Result(ret, left, err, db.world, polls) ==
              StaticResult(env, old(depth), caller, a, input, gas, old(db.world), old(polls))
      decreases gas, 8
    {
      hide StateDB.Valid, NonNegative, JumpCache.Valid, Keeps, Live, RunCode, Precompiled, Settled, Seen, NoData;
      NothingDone(gas);
      if env.noRecursion && depth > 0 { return [], gas, None; }
      if depth > CALL_CREATE_DEPTH { return [], gas, Some(ErrDepth); }
      ghost var v := State();
      var id := Begin();
      ghost var v1 := State();
      Touch(a);
      ghost var v2 := State();
      LiveTrans(v, id, v1, v2);
      if env.isPrecompile(a) {
        ret, left, err := RunPrecompiled(a, input, gas);
      } else {
        ret, left, err := RunContract(Acct(db.world, a).code, GetCodeHash(db.world, a), a, caller, 0, input, jumpdests,
                                      gas, true);
        LiveTrans(v, id, v2, State());
      }
      ghost var w, kept := db.world, left;
      left := Settle(v, id, left, err);
      SettledSeen(v.world, ret, kept, left, err, w, db.world, polls);
    }

    method Touch(a: Address)
      requires Valid()
      modifies db
      ensures Valid() && Keeps(old(State()), State()) && SameState(old(db.world), db.world)
      ensures db.world == Touched(old(db.world), a)
    {
      hide StateDB.Valid, NonNegative, Supply, SameState;
      StateKept();
      TouchFacts(db.world, a);
      db.AddBalance(a, 0);
    }

    // -------------------------------------------------------------- creation

    method BumpNonce(a: Address)
      requires Valid() && !readOnly
      modifies db
      ensures Valid() && Keeps(old(State()), State()) && db.world == NonceBumped(old(db.world), a)
      ensures db.revisions == old(db.revisions) && db.saved == old(db.saved)
      ensures Acct(db.world, a).balance == Acct(old(db.world), a).balance
    {
      hide StateDB.Valid, NonNegative, Supply, SameState;
      StateKept();
      BumpFacts(db.world, a);
      db.SetNonce(a, Acct(db.world, a).nonce + 1);
    }

    method Endow(caller: Address, a: Address, value: nat)
      requires Valid() && !readOnly && value <= Acct(db.world, caller).balance
      modifies db
      ensures Valid() && Keeps(old(State()), State()) && db.world == Endowed(old(db.world), caller, a, value)
    {
      hide StateDB.Valid, NonNegative, Supply, SameState, Moved;
      StateKept();
      EndowedFacts(db.world, caller, a, value);
      db.NewContract(a);
      db.Transfer(caller, a, value);
    }

    method StoreCode(a: Address, code: seq<byte>)
      requires Valid() && !readOnly
      modifies db
      ensures Valid() && Keeps(old(State()), State()) && Acct(db.world, a).code == code
      ensures db.world == Coded(old(db.world), a, code)
    {
      hide StateDB.Valid, NonNegative, Supply, SameState;
      StateKept();
      CodeFacts(db.world, a, code);
      db.SetCode(a, code);
    }

    method CreateAt(caller: Address, jumpdests: JumpCache, code: seq<byte>, hash: CodeHash, gas: uint64, value: nat, a: Address)
      returns (ret: seq<byte>, left: uint64, err: Option<Error>)
      requires Valid() && jumpdests.Valid() && !readOnly && (hash == Unset || hash == Keccak(code))
      modifies this, db, jumpdests
      ensures Valid() && jumpdests.Valid() && CreateOutcome(old(State()), State(), caller, gas, left, err)
      ensures Result(ret, left, err, db.world, polls) ==
              CreateResult(env, old(depth), caller, code, gas, value, a, old(db.world), old(polls))
      decreases gas, 8
    {
      hide StateDB.Valid, NonNegative, JumpCache.Valid, Keeps, Live, Endowed, NonceBumped, RunCode, Deployed, Seen, NoData;
      StateKept();
      ghost var v := State();
      if depth > CALL_CREATE_DEPTH { return [], gas, Some(ErrDepth); }
      if Acct(db.world, caller).balance < value { return [], gas, Some(ErrInsufficientBalance); }
      BumpNonce(caller);
      ghost var v1 := State();
      if Taken(db.world, a) { return [], 0, Some(ErrContractAddressCollision); }
      var id := Begin();
      ghost var v2 := State();
      Endow(caller, a, value);
      ghost var v3 := State();
      LiveTrans(v1, id, v2, v3);
      KeepsTrans(v, v1, v3);
      if env.noRecursion && depth > 0 { return [], gas, None; }
      ret, left, err := RunContract(code, hash, a, caller, value, [], jumpdests, gas, false);
      ghost var v4 := State();
      LiveTrans(v1, id, v3, v4);
      left, err := Deploy(v1, id, a, ret, left, err);
      KeepsTrans(v, v1, State());
    }

    /** Pays for and stores what the creation code returned, or undoes the creation. */
    method Deploy(ghost v: View, id: nat, a: Address, ret: seq<byte>, gas: uint64, runErr: Option<Error>)
      returns (left: uint64, err: Option<Error>)
      requires Valid() && !readOnly && Live(v, id, State()) && NoData(ret, runErr)
      requires runErr.Some? ==> !Refused(runErr.value) && runErr.value != ErrContractAddressCollision
      modifies db
      ensures Valid() && CallOutcome(v, State(), gas, left, err)
      ensures err.Some? ==> !Refused(err.value) && err.value != ErrContractAddressCollision
      ensures Result(ret, left, err, db.world, polls) == Deployed(v.world, a, Seen(ret, gas, runErr, old(db.world), polls))
    {
      hide StateDB.Valid, NonNegative, Keeps, Live;
      ghost var v1 := State();
      left, err := gas, runErr;
      if err.None? && |ret| <= MAX_CODE_SIZE {
        if |ret| * CREATE_DATA_GAS <= left {
          left := left - |ret| * CREATE_DATA_GAS;
          StoreCode(a, ret);
          LiveTrans(v, id, v1, State());
        } else {
          err := Some(ErrCodeStoreOutOfGas);
        }
      }
      if err.None? && |ret| > MAX_CODE_SIZE { err := Some(ErrMaxCodeSizeExceeded); }
      left := Settle(v, id, left, err);
    }

    /** A contract whose address comes from the creator's nonce; the code is not hashed. */
    method Create(caller: Address, jumpdests: JumpCache, code: seq<byte>, gas: uint64, value: nat)
      returns (ret: seq<byte>, a: Address, left: uint64, err: Option<Error>)
      requires Valid() && jumpdests.Valid() && !readOnly
      modifies this, db, jumpdests
      ensures Valid() && jumpdests.Valid() && CreateOutcome(old(State()), State(), caller, gas, left, err)
      ensures a == env.createAddress(caller, Acct(old(db.world), caller).nonce)
      ensures Result(ret, left, err, db.world, polls) ==
              CreateResult(env, old(depth), caller, code, gas, value, a, old(db.world), old(polls))
      decreases gas, 9
    {
      hide StateDB.Valid, NonNegative, JumpCache.Valid, Keeps, CreateResult, CreateOutcome;
      a := env.createAddress(caller, Acct(db.world, caller).nonce);
      ret, left, err := CreateAt(caller, jumpdests, code, Unset, gas, value, a);
    }

    method Create2(caller: Address, jumpdests: JumpCache, code: seq<byte>, gas: uint64, value: nat, salt: Word)
      returns (ret: seq<byte>, a: Address, left: uint64, err: Option<Error>)
      requires Valid() && jumpdests.Valid() && !readOnly
      modifies this, db, jumpdests
      ensures Valid() && jumpdests.Valid() && CreateOutcome(old(State()), State(), caller, gas, left, err)
      ensures a == env.createAddress2(caller, salt, code)
      ensures Result(ret, left, err, db.world, polls) ==
              CreateResult(env, old(depth), caller, code, gas, value, a, old(db.world), old(polls))
      decreases gas, 9
    {
      hide StateDB.Valid, NonNegative, JumpCache.Valid, Keeps, CreateResult, CreateOutcome;
      a := env.createAddress2(caller, salt, code);
      ret, left, err := CreateAt(caller, jumpdests, code, Keccak(code), gas, value, a);
    }

    // -------------------------------------------------------------- instructions that run other code

    /** Gas a call instruction hands over: the share set aside, and the stipend when it carries value. */
    function Given(s: Scope, e: Exec): nat
      requires |s.stack| >= 6 + Shift(e)
      reads this, s
    {
      callGasTemp + if ValueOf(e, s.stack) != 0 then CALL_STIPEND else 0
    }

    /**
     A call instruction: the callee starts with the gas handed over, its outcome is a flag on the stack, what it returned
     is written back as far as asked for, and what gas it left comes back.
     */
    method OpCall(s: Scope, e: Exec, ghost bound: nat) returns (ret: seq<byte>)
      requires Valid() && s.Valid() && s.jumpdests.Valid()
      requires CallReady(e, Snap(s))
      requires s.gas + Given(s, e) < bound <= TWO_64
      requires readOnly && e.Call? ==> ValueOf(e, s.stack) == 0
      modifies this, db, s`stack, s`store, s`gas, s.jumpdests
      ensures Valid() && s.Valid() && s.jumpdests.Valid() && Keeps(old(State()), State()) && |s.store| == |old(s.store)|
      ensures |s.stack| == |old(s.stack)| - 5 - Shift(e) && s.gas < bound
      ensures var r := CallOut(env, old(Ctx(s)), old(depth), e, old(Snap(s)), old(Given(s, e)));
              && Took(s, e, ret, None) == Next(AfterCall(e, old(Snap(s)), r))
              && CallOutcome(old(State()), State(), old(Given(s, e)), r.left, r.err)
      decreases bound, 0
    {
      hide Valid, Scope.Valid, Keeps, JumpCache.Valid, CallOutcome, Write, Called, CallOut, AfterCall, Took, Drop, Back,
        Inside, Slice;
      ghost var m := Snap(s);
      var k := Shift(e);
      var a, value := ToAddress(Back(s.stack, 1)), ValueOf(e, s.stack);
      var inOffset, inSize := Back(s.stack, 2 + k), Back(s.stack, 3 + k);
      var retOffset, retSize := Back(s.stack, 4 + k), Back(s.stack, 5 + k);
      var args := s.GetPtr(inOffset, inSize);
      var gas: uint64 := Given(s, e);
      s.stack := Drop(s.stack, 6 + k);
      var left, err;
      ret, left, err := Invoke(e, s, a, args, gas, value);
      s.Resume(err.None?, err.None? || err.value == ErrExecutionReverted, retOffset, retSize, ret, left);
      CallTook(s, e, old(Ctx(s)), old(depth), m, gas, Result(ret, left, err, db.world, polls));
    }

    lemma CallTook(s: Scope, e: Exec, c: Context, d: nat, m: Machine, gas: uint64, r: Result)
      requires CallReady(e, m) && m.gas + r.left < TWO_64
      requires r == Called(env, d, e, c, ToAddress(Back(m.stack, 1)),
                           Slice(m.store, Back(m.stack, 2 + Shift(e)), Back(m.stack, 3 + Shift(e))),
                           gas, ValueOf(e, m.stack), m.world, m.polls)
      requires s.stack == Drop(m.stack, 6 + Shift(e)) + [if r.err.None? then 1 else 0] && s.store == WrittenBack(e, m, r)
      requires (s.pc, s.gas, db.world, polls) == (m.pc, m.gas + r.left, r.world, r.polls)
      ensures CallOut(env, c, d, e, m, gas) == r && Took(s, e, r.ret, None) == Next(AfterCall(e, m, r))
    {
      hide WrittenBack, Called;
    }

    method Invoke(e: Exec, s: Scope, a: Address, args: seq<byte>, gas: uint64, value: nat)
      returns (ret: seq<byte>, left: uint64, err: Option<Error>)
      requires Valid() && s.jumpdests.Valid() && CallsOut(e) && (readOnly && e.Call? ==> value == 0)
      modifies this, db, s.jumpdests
      ensures Valid() && s.jumpdests.Valid() && CallOutcome(old(State()), State(), gas, left, err)
      ensures Keeps(old(State()), State()) && left <= gas
      ensures Result(ret, left, err, db.world, polls) ==
              Called(env, old(depth), e, old(Ctx(s)), a, args, gas, value, old(db.world), old(polls))
      decreases gas, 10
    {
      hide StateDB.Valid, NonNegative, JumpCache.Valid, Keeps, CallResult, CallCodeResult, DelegateResult, StaticResult;
      if e.Call? {
        ret, left, err := Call(s.self, s.jumpdests, a, args, gas, value);
      } else if e.CallCode? {
        ret, left, err := CallCode(s.self, s.jumpdests, a, args, gas, value);
      } else if e.DelegateCall? {
        ret, left, err := DelegateCall(s.self, s.caller, s.value, s.jumpdests, a, args, gas);
      } else {
        ret, left, err := StaticCall(s.self, s.jumpdests, a, args, gas);
      }
    }

    /** All but one 64th of the gas goes to the creation; its address or zero is pushed, and only a revert returns data. */
    method OpCreate(s: Scope, ghost bound: nat) returns (ret: seq<byte>)
      requires Valid() && s.Valid() && s.jumpdests.Valid() && !readOnly && Enough(Exec.Create, Snap(s))
      requires s.gas < bound <= TWO_64
      modifies this, db, s`stack, s`gas, s.jumpdests
      ensures Valid() && s.Valid() && s.jumpdests.Valid() && Keeps(old(State()), State())
      ensures |s.stack| == |old(s.stack)| - 2 && s.gas < bound
      ensures CreateTaken(s, Exec.Create, old(Ctx(s)), old(Snap(s)), old(State()), ret)
      decreases bound, 0
    {
      hide Valid, Scope.Valid, JumpCache.Valid, Keeps, CreateResult, CreateOutcome, NonceBumped, Touches, Pops, Enough, AreaArgs,
        CreateTaken, CreateOut, Took;
      ghost var c, m, v := Ctx(s), Snap(s), State();
      EnoughCall(Exec.Create, Snap(s));
      var value := Back(s.stack, 0);
      var code := s.GetPtr(Back(s.stack, 1), Back(s.stack, 2));
      var gas := s.gas - s.gas / 64;
      s.gas := s.gas - gas;
      s.stack := Drop(s.stack, 3);
      var a, left, err;
      ret, a, left, err := Create(s.self, s.jumpdests, code, gas, value);
      CreateKeeps(old(State()), State(), s.self, gas, left, err);
      s.PushWord(if err.None? then a else 0);
      s.gas := s.gas + left;
      ghost var r := Result(ret, left, err, db.world, polls);
      if err != Some(ErrExecutionReverted) { ret := []; }
      CreateTook(s, Exec.Create, c, m, v, a, r, ret);
    }

    /** All the gas goes to the creation; its address or zero is pushed, and only a revert returns data. */
    method OpCreate2(s: Scope, ghost bound: nat) returns (ret: seq<byte>)
      requires Valid() && s.Valid() && s.jumpdests.Valid() && !readOnly && Enough(Exec.Create2, Snap(s))
      requires s.gas < bound <= TWO_64
      modifies this, db, s`stack, s`gas, s.jumpdests
      ensures Valid() && s.Valid() && s.jumpdests.Valid() && Keeps(old(State()), State())
      ensures |s.stack| == |old(s.stack)| - 3 && s.gas < bound
      ensures CreateTaken(s, Exec.Create2, old(Ctx(s)), old(Snap(s)), old(State()), ret)
      decreases bound, 0
    {
      hide Valid, Scope.Valid, JumpCache.Valid, Keeps, CreateResult, CreateOutcome, NonceBumped, Touches, Pops, Enough, AreaArgs,
        CreateTaken, CreateOut, Took;
      ghost var c, m, v := Ctx(s), Snap(s), State();
      EnoughCall(Exec.Create2, Snap(s));
      var value, salt := Back(s.stack, 0), Back(s.stack, 3);
      var code := s.GetPtr(Back(s.stack, 1), Back(s.stack, 2));
      var gas := s.gas;
      s.gas := 0;
      s.stack := Drop(s.stack, 4);
      var a, left, err;
      ret, a, left, err := Create2(s.self, s.jumpdests, code, gas, value, salt);
      CreateKeeps(old(State()), State(), s.self, gas, left, err);
      s.PushWord(if err.None? then a else 0);
      s.gas := s.gas + left;
      ghost var r := Result(ret, left, err, db.world, polls);
      if err != Some(ErrExecutionReverted) { ret := []; }
      CreateTook(s, Exec.Create2, c, m, v, a, r, ret);
    }

    lemma CreateTook(s: Scope, e: Exec, c: Context, m: Machine, v: View, a: Address, r: Result, ret: seq<byte>)
      requires Creates(e) && Enough(e, m) && |m.stack| >= 3 && Inside(Back(m.stack, 1), Back(m.stack, 2), |m.store|)
      requires a == NewAddress(env, c, e, m) && r.left <= CreateShare(e, m.gas)
      requires r == CreateResult(env, v.depth, c.self, InitCode(m), CreateShare(e, m.gas), Back(m.stack, 0), a, m.world, m.polls)
      requires s.stack == Drop(m.stack, Pops(e)) + [if r.err.None? then a else 0]
      requires s.gas == m.gas - CreateShare(e, m.gas) + r.left
      requires (s.pc, s.store, db.world, polls) == (m.pc, m.store, r.world, r.polls)
      requires ret == if r.err == Some(ErrExecutionReverted) then r.ret else []
      requires CreateOutcome(v, State(), c.self, CreateShare(e, m.gas), r.left, r.err)
      ensures CreateTaken(s, e, c, m, v, ret)
    {
      hide CreateResult, CreateOutcome, Enough, Pops, NewAddress, InitCode;
    }

    /** The turn a creation instruction makes, and what it leaves of the world. */
    ghost predicate CreateTaken(s: Scope, e: Exec, c: Context, m: Machine, v: View, ret: seq<byte>)
      requires Creates(e) && Enough(e, m)
      reads this, db, s
    {
      var r := CreateOut(env, c, v.depth, e, m);
      && Took(s, e, ret, None) == Next(AfterCreate(e, m, NewAddress(env, c, e, m), r))
      && CreateOutcome(v, State(), c.self, CreateShare(e, m.gas), r.left, r.err)
    }

    // -------------------------------------------------------------- interpreter loop

    /** The instruction the frame would fetch next starts where the linear sweep of the code starts one, or past the end. */
    ghost predicate NextStarts(s: Scope, jumps: bool)
      reads s
    {
      var next := if jumps then s.pc else s.pc + 1;
      next >= |s.code| || IsStart(s.code, next)
    }

    ghost predicate Ready(s: Scope, op: byte, o: Operation)
      reads this`readOnly, s
    {
      && Fits(op, o) && o.minStack <= |s.stack| <= o.maxStack
      && s.MemPaid() && Covered(o.memory, s.stack, |s.store|)
      && op == s.GetOp(s.pc) && (s.pc >= |s.code| || IsStart(s.code, s.pc))
      && (readOnly ==> !o.writes && (o.execute.Call? ==> Back(s.stack, 2) == 0))
    }

    /** The frame can fetch again once the program counter has moved on. */
    ghost predicate Landed(s: Scope, o: Operation)
      reads s
    {
      o.halts || o.reverts || (|s.stack| <= STACK_LIMIT && s.MemPaid() && NextStarts(s, o.jumps))
    }

    /** What an instruction that is paid for does, by the reference. */
    ghost function Executed(s: Scope, op: byte, o: Operation): Turn
      requires Ready(s, op, o) && GasArgs(o.dynamic) <= |s.stack|
      requires CallsOut(o.execute) ==> s.gas + Share(s, o.dynamic) < TWO_64
      reads this, db, s
    {
      var c, m, e := Ctx(s), Snap(s), o.execute;
      ReadyEnough(s, op, o);
      if CallsOut(e) then Next(AfterCall(e, m, CallOut(env, c, depth, e, m, Share(s, o.dynamic))))
      else if Creates(e) then Next(AfterCreate(e, m, NewAddress(env, c, e, m), CreateOut(env, c, depth, e, m)))
      else Effect(env, c, op, e, m)
    }

    lemma ReadyEnough(s: Scope, op: byte, o: Operation)
      requires Ready(s, op, o)
      ensures Enough(o.execute, Snap(s)) && GasArgs(o.dynamic) <= |s.stack|
      ensures CallsOut(o.execute) ==> CallReady(o.execute, Snap(s))
    {
      EnoughCall(o.execute, Snap(s));
    }

    method Execute(s: Scope, op: byte, o: Operation, ghost bound: nat) returns (ret: seq<byte>, err: Option<Error>)
      requires Valid() && s.Valid() && s.jumpdests.Valid() && Ready(s, op, o) && s.gas <= bound <= TWO_64
      requires JumpTable(env.galaxias, op) == Some(o)
      requires GasArgs(o.dynamic) <= |s.stack| && (!o.halts && !o.reverts ==> s.gas + Share(s, o.dynamic) < bound)
      requires CallsOut(o.execute) ==> s.gas + Share(s, o.dynamic) < TWO_64
      modifies this, db, s, s.jumpdests
      ensures Valid() && s.Valid() && s.jumpdests.Valid() && Keeps(old(State()), State()) && s.gas <= bound
      ensures err.Some? ==> err.value == ErrInvalidJump || err.value == ErrReturnDataOutOfBounds
      ensures err.None? && !o.halts && !o.reverts ==> s.gas < bound
      ensures err.None? ==> Landed(s, o)
      ensures Took(s, o.execute, ret, err) == old(Executed(s, op, o))
      decreases bound, 2
    {
      hide Fits, Ready, Valid, Scope.Valid, JumpCache.Valid, Keeps, Share, Landed, JumpTable, Took, Effect, CallOut, CreateOut,
        AfterCall, AfterCreate, Enough, CallReady, GasArgs;
      MayChange(s, op, o);
      ReadyEnough(s, op, o);
      ret, err := [], None;
      if CallsOut(o.execute) {
        ret := ExecuteCall(s, op, o, bound);
      } else if o.execute.Create? || o.execute.Create2? {
        ret := ExecuteCreate(s, op, o, bound);
      } else if Changes(o.execute) {
        ExecuteChange(s, op, o);
      } else {
        StateKept();
        ret, err := ExecuteLocal(s, op, o);
      }
    }

    lemma MayChange(s: Scope, op: byte, o: Operation)
      requires Ready(s, op, o)
      ensures Changes(o.execute) ==> !readOnly
      ensures CallsOut(o.execute) || o.execute.Create? || o.execute.Create2? ==> !o.halts && !o.reverts
    {}

    /** The sizes and position a routine leaves the frame with. */
    ghost predicate Advanced(s: Scope, o: Operation, pc0: nat, stack0: nat, store0: nat, last0: nat)
      reads s
    {
      && |s.stack| == stack0 - Pops(o.execute) + Pushes(o.execute)
      && |s.store| == store0 && s.lastGasCost == last0 == s.feesPaid
      && (!o.jumps ==> s.pc == pc0 + if o.execute.Push? then o.execute.size else 0)
      && (o.jumps ==> s.pc == pc0 + 1 || IsStart(s.code, s.pc))
    }

    lemma Lands(s: Scope, op: byte, o: Operation, pc0: nat, stack0: nat, store0: nat, last0: nat)
      requires JumpTable(env.galaxias, op) == Some(o) && Advanced(s, o, pc0, stack0, store0, last0)
      requires op == s.GetOp(pc0) && (pc0 >= |s.code| || IsStart(s.code, pc0))
      requires stack0 <= o.maxStack && MemInv(store0, last0)
      ensures Landed(s, o)
    {
      TableFits(env.galaxias, op);
      if !o.halts && !o.reverts { SweepGoesOn(s.code, pc0, op, o); }
      hide JumpTable, Sweep, Touches, MemInv, AreaArgs, GasArgs, Pops, Pushes;
    }

    method ExecuteLocal(s: Scope, op: byte, o: Operation) returns (ret: seq<byte>, err: Option<Error>)
      requires s.Valid() && s.jumpdests.Valid() && Ready(s, op, o) && !Changes(o.execute) && !CallsOut(o.execute)
      requires JumpTable(env.galaxias, op) == Some(o) && Enough(o.execute, Snap(s))
      modifies s`stack, s`store, s`pc, s`analysis, s.jumpdests
      ensures s.Valid() && s.jumpdests.Valid()
      ensures err.Some? ==> err.value == ErrInvalidJump || err.value == ErrReturnDataOutOfBounds
      ensures err.None? ==> Landed(s, o)
      ensures Took(s, o.execute, ret, err) == Effect(env, Ctx(s), op, o.execute, old(Snap(s)))
    {
      hide Fits, Ready, Scope.Valid, JumpCache.Valid, MemInv, Covered, Touches, Sweep, AreaArgs, Analysis, JumpTable,
        Landed, Pops, Pushes, Effect, Took, Enough;
      ghost var pc0, stack0, store0, last0 := s.pc, |s.stack|, |s.store|, s.lastGasCost;
      ReadyFacts(s, op, o);
      ret, err := [], None;
      if OnStack(o.execute) {
        ExecuteStack(s, op, o.execute);
      } else if OnMemory(o.execute) {
        ret := ExecuteMemory(s, op, o.execute);
      } else if Copies(o.execute) {
        err := ExecuteCopy(s, op, o.execute);
      } else {
        err := ExecuteJump(s, op, o.execute);
      }
      if err.None? { Lands(s, op, o, pc0, stack0, store0, last0); }
    }

    lemma ChangeShape(e: Exec)
      ensures e.SStore? ==> Pops(e) == 2 && Pushes(e) == 0
      ensures e.Log? ==> Pops(e) == e.topics + 2 && Pushes(e) == 0 && Touches(e) == Range(0, 1)
      ensures e.SelfDestruct? ==> Pops(e) == 1 && Pushes(e) == 0
    {}

    predicate StoresOrEnds(e: Exec) { e.SStore? || e.Log? || e.SelfDestruct? }

    method ExecuteChange(s: Scope, op: byte, o: Operation)
      requires Valid() && Ready(s, op, o) && StoresOrEnds(o.execute)
      requires JumpTable(env.galaxias, op) == Some(o) && Enough(o.execute, Snap(s))
      modifies db, s`stack
      ensures Valid() && Keeps(old(State()), State()) && Landed(s, o)
      ensures Took(s, o.execute, [], None) == Effect(env, Ctx(s), op, o.execute, old(Snap(s)))
    {
      hide Valid, Keeps, MemInv, Covered, Touches, Pops, Pushes, AreaArgs, IsStart, JumpTable, Landed, Fits, Ready, Destructed,
        Stored, LogOf, Effect, Enough;
      ghost var pc0, stack0, store0, last0 := s.pc, |s.stack|, |s.store|, s.lastGasCost;
      ReadyFacts(s, op, o);
      ChangeShape(o.execute);
      ghost var m := Snap(s);
      if o.execute.SStore? {
        OpSstore(s);
      } else if o.execute.Log? {
        OpLog(s, o.execute.topics);
      } else {
        OpSuicide(s);
      }
      if Ends(o.execute) { EndedIs(env, Ctx(s), op, o.execute, m); } else { StoredIs(env, Ctx(s), op, o.execute, m); }
      Lands(s, op, o, pc0, stack0, store0, last0);
    }

    method ExecuteCall(s: Scope, op: byte, o: Operation, ghost bound: nat) returns (ret: seq<byte>)
      requires Valid() && s.Valid() && s.jumpdests.Valid() && Ready(s, op, o) && CallsOut(o.execute)
      requires GasArgs(o.dynamic) <= |s.stack| && CallReady(o.execute, Snap(s))
      requires s.gas + Share(s, o.dynamic) < bound <= TWO_64 && JumpTable(env.galaxias, op) == Some(o)
      modifies this, db, s`stack, s`store, s`gas, s.jumpdests
      ensures Valid() && s.Valid() && s.jumpdests.Valid() && Keeps(old(State()), State()) && s.gas < bound && Landed(s, o)
      ensures var r := CallOut(env, old(Ctx(s)), old(depth), o.execute, old(Snap(s)), old(Share(s, o.dynamic)));
              Took(s, o.execute, ret, None) == Next(AfterCall(o.execute, old(Snap(s)), r))
      decreases bound, 1
    {
      hide Fits, Ready, Valid, Scope.Valid, JumpCache.Valid, Keeps, MemInv, Covered, IsStart, AreaArgs, JumpTable, Landed,
        Pops, Pushes, Touches, Share, Given, ValueOf, Shift, CallReady, CallOutcome, CallOut, AfterCall, Took, GasArgs;
      ghost var pc0, stack0, store0, last0 := s.pc, |s.stack|, |s.store|, s.lastGasCost;
      ReadyFacts(s, op, o);
      CallFacts(s, op, o);
      ret := OpCall(s, o.execute, bound);
      Lands(s, op, o, pc0, stack0, store0, last0);
    }

    method ExecuteCreate(s: Scope, op: byte, o: Operation, ghost bound: nat) returns (ret: seq<byte>)
      requires Valid() && s.Valid() && s.jumpdests.Valid() && Ready(s, op, o) && Creates(o.execute)
      requires s.gas < bound <= TWO_64 && JumpTable(env.galaxias, op) == Some(o) && Enough(o.execute, Snap(s))
      modifies this, db, s`stack, s`gas, s.jumpdests
      ensures Valid() && s.Valid() && s.jumpdests.Valid() && Keeps(old(State()), State()) && s.gas < bound && Landed(s, o)
      ensures CreateTaken(s, o.execute, old(Ctx(s)), old(Snap(s)), old(State()), ret)
      decreases bound, 1
    {
      hide Fits, Ready, Valid, Scope.Valid, JumpCache.Valid, Keeps, MemInv, Covered, IsStart, AreaArgs, JumpTable, Landed,
        Pops, Pushes, Touches, CreateTaken, Inside, Enough;
      ghost var pc0, stack0, store0, last0 := s.pc, |s.stack|, |s.store|, s.lastGasCost;
      ReadyFacts(s, op, o);
      CallFacts(s, op, o);
      if o.execute.Create? {
        ret := OpCreate(s, bound);
      } else {
        ret := OpCreate2(s, bound);
      }
      Lands(s, op, o, pc0, stack0, store0, last0);
    }

    lemma CallFacts(s: Scope, op: byte, o: Operation)
      requires Ready(s, op, o)
      ensures var e := o.execute;
        && (e.Create? ==> Pops(e) == 3 && Pushes(e) == 1) && (e.Create2? ==> Pops(e) == 4 && Pushes(e) == 1)
        && (CallsOut(e) ==> CallReady(e, Snap(s)) && Pops(e) == 6 + Shift(e) && Pushes(e) == 1 && GasArgs(o.dynamic) <= |s.stack|)
        && (CallsOut(e) ==> Given(s, e) == Share(s, o.dynamic) && !o.jumps)
        && (CallsOut(e) && readOnly && e.Call? ==> ValueOf(e, s.stack) == 0)
        && (Creates(e) ==> !o.jumps)
    {}

    /** An instruction that lets the run go on is inside the code, and the sweep goes on right after its data. */
    lemma SweepGoesOn(code: seq<byte>, pc: nat, op: byte, o: Operation)
      requires JumpTable(env.galaxias, op) == Some(o) && !o.halts && !o.reverts
      requires op == (if pc < |code| then code[pc] else 0) && (pc >= |code| || IsStart(code, pc))
      ensures pc < |code| && IsStart(code, pc + 1 + if o.execute.Push? then o.execute.size else 0)
    {
      TableFits(env.galaxias, op);
      hide Bounded, JumpTable, Sweep;
      SweepExtends(code, 0, pc);
    }

    /** What being ready to execute gives each routine. */
    lemma ReadyFacts(s: Scope, op: byte, o: Operation)
      requires Ready(s, op, o)
      ensures op == s.GetOp(s.pc) && (s.pc >= |s.code| || IsStart(s.code, s.pc)) && |s.stack| <= o.maxStack
      ensures (Changes(o.execute) ==> !readOnly) && (o.jumps <==> o.execute.Jump? || o.execute.JumpI?)
      ensures o.execute.Dup? ==> o.execute.n >= 1
      ensures var e := o.execute;
        && Pops(e) <= |s.stack| && |s.stack| - Pops(e) + Pushes(e) <= STACK_LIMIT
        && AreaArgs(Touches(e)) <= |s.stack| && Covered(Touches(e), s.stack, |s.store|) && |s.store| < TWO_64
        && s.MemPaid()
    {}

    /** The turn made, as the loop sees it. */
    ghost function TurnSeen(s: Scope, done: bool, ret: seq<byte>, err: Option<Error>): Turn
      reads this, db, s
    {
      if done then Over(Seen(ret, s.gas, err, db.world, polls)) else Next(Snap(s))
    }

    method Run(s: Scope, ro: bool) returns (ret: seq<byte>, err: Option<Error>)
      requires Valid() && s.Valid() && s.jumpdests.Valid() && s.AtHead() && depth <= CALL_CREATE_DEPTH
      requires s.pc == 0 && s.stack == [] && s.store == []
      modifies this, db, s, s.jumpdests
      ensures Valid() && s.Valid() && s.jumpdests.Valid() && Keeps(old(State()), State()) && s.gas <= old(s.gas)
      ensures ro ==> SameState(old(db.world), db.world)
      ensures Seen(ret, s.gas, err, db.world, polls) ==
              RunCode(env, old(depth), Context(s.code, s.self, s.caller, s.value, s.input, ro || old(readOnly)), old(s.gas),
                      old(db.world), old(polls))
      ensures NoData(ret, err) && (err.Some? ==> !Refused(err.value) && err.value != ErrContractAddressCollision)
      decreases s.gas, 6
    {
      hide StateDB.Valid, NonNegative, Scope.Valid, Scope.AtHead, Keeps, SameState, RunFrom;
      ghost var v := State();
      var entersReadOnly := ro && !readOnly;
      depth := depth + 1;
      if entersReadOnly { readOnly := true; }
      returnData := [];
      ghost var v1 := State();
      if |s.code| == 0 {
        ret, err := [], None;
        StateKept();
      } else {
        ret, err := RunLoop(s);
      }
      ghost var v2 := State();
      KeepsMode(v1, v2);
      if entersReadOnly { readOnly := false; }
      depth := depth - 1;
      FrameKeeps(v, v1.readOnly, v2, State());
    }

    method RunLoop(s: Scope) returns (ret: seq<byte>, err: Option<Error>)
      requires Valid() && s.Valid() && s.jumpdests.Valid() && s.AtHead()
      modifies this, db, s, s.jumpdests
      ensures Valid() && s.Valid() && s.jumpdests.Valid() && Keeps(old(State()), State()) && s.gas <= old(s.gas)
      ensures Seen(ret, s.gas, err, db.world, polls) == RunFrom(env, old(Ctx(s)), old(depth), old(Snap(s)), 1)
      ensures NoData(ret, err) && (err.Some? ==> !Refused(err.value) && err.value != ErrContractAddressCollision)
      decreases s.gas, 5
    {
      hide StateDB.Valid, NonNegative, Scope.Valid, Scope.AtHead, Keeps, RunFrom, TurnOf;
      StateKept();
      ghost var v, c, d, out := State(), Ctx(s), depth, RunFrom(env, Ctx(s), depth, Snap(s), 1);
      var steps := 0;
      while true
        invariant Valid() && s.Valid() && s.jumpdests.Valid() && s.AtHead() && Keeps(v, State()) && s.gas <= old(s.gas)
        invariant Ctx(s) == c && depth == d && RunFrom(env, c, d, Snap(s), steps + 1) == out
        decreases s.gas
      {
        steps := steps + 1;
        RunFromUnfolds(env, c, d, Snap(s), steps);
        if steps % POLL_EVERY == 0 {
          var abort := env.abort(polls);
          polls := polls + 1;
          if abort { break; }
        }
        ghost var v1 := State();
        var done;
        done, ret, err := Step(s);
        KeepsTrans(v, v1, State());
        KeepsMode(v1, State());
        if done { return; }
      }
      return [], None;
    }

    /** One turn of the loop, as the reference has it. Unless it is the last, it ends at another loop head. */
    method Step(s: Scope) returns (done: bool, ret: seq<byte>, err: Option<Error>)
      requires Valid() && s.Valid() && s.jumpdests.Valid() && s.AtHead()
      modifies this, db, s, s.jumpdests
      ensures Valid() && s.Valid() && s.jumpdests.Valid() && Keeps(old(State()), State()) && s.gas <= old(s.gas)
      ensures !done ==> s.AtHead() && s.gas < old(s.gas)
      ensures TurnSeen(s, done, ret, err) == TurnOf(env, old(Ctx(s)), old(depth), old(Snap(s)))
      ensures NoData(ret, err) && (err.Some? ==> !Refused(err.value) && err.value != ErrContractAddressCollision)
      decreases s.gas, 4
    {
      hide StateDB.Valid, NonNegative, JumpCache.Valid, Keeps, Fits, MemInv, Covered, JumpTable, Sweep, Analysis, CostOf, HasArgs,
        Scope.AtHead, Performed;
      StateKept();
      var op := s.GetOp(s.pc);
      var entry := JumpTable(env.galaxias, op);
      if entry.None? { return true, [], Some(ErrInvalidOpCode); }
      var o := entry.value;
      TableFits(env.galaxias, op);
      if |s.stack| < o.minStack { return true, [], Some(ErrStackUnderflow); }
      if |s.stack| > o.maxStack { return true, [], Some(ErrStackOverflow); }
      StackRoom(op, o);
      if readOnly && (o.writes || (op == 0xf1 && Back(s.stack, 2) != 0)) { return true, [], Some(ErrWriteProtection); }
      done, ret, err := Perform(s, op, o);
    }

    /** Charges for and executes an instruction that passed the checks. */
    method Perform(s: Scope, op: byte, o: Operation) returns (done: bool, ret: seq<byte>, err: Option<Error>)
      requires Valid() && s.Valid() && s.jumpdests.Valid() && s.AtHead()
      requires op == s.GetOp(s.pc) && JumpTable(env.galaxias, op) == Some(o) && Fits(op, o)
      requires o.minStack <= |s.stack| <= o.maxStack && HasArgs(o, s.stack)
      requires readOnly ==> !o.writes && (o.execute.Call? ==> |s.stack| >= 7 && Back(s.stack, 2) == 0)
      modifies this, db, s, s.jumpdests
      ensures Valid() && s.Valid() && s.jumpdests.Valid() && Keeps(old(State()), State()) && s.gas <= old(s.gas)
      ensures !done ==> s.AtHead() && s.gas < old(s.gas)
      ensures TurnSeen(s, done, ret, err) == Performed(env, old(Ctx(s)), old(depth), op, o, old(Snap(s)))
      ensures NoData(ret, err) && (err.Some? ==> !Refused(err.value) && err.value != ErrContractAddressCollision)
      decreases s.gas, 3
    {
      hide Valid, Scope.Valid, JumpCache.Valid, Keeps, Fits, JumpTable, Share, Landed, Scope.AtHead, Ready, CostOf, HasArgs,
        Scope.GetOp, Back, GasArgs, Performed, Executed, Took, CallsOut, OpAt, TurnSeen, NoData, State, Snap, Ctx;
      ghost var v, bound := State(), s.gas;
      err := Prepare(s, op, o);
      if err.Some? {
        FailureSeen(s, err.value);
        return true, [], err;
      }
      ghost var v1 := State();
      ret, err := Execute(s, op, o, bound);
      KeepsTrans(v, v1, State());
      done, ret, err := Conclude(s, op, o, ret, err);
    }

    lemma FailureSeen(s: Scope, e: Error)
      requires e != ErrExecutionReverted
      ensures TurnSeen(s, true, [], Some(e)) == Over(Failed(e, polls)) && NoData([], Some(e))
    {}

    /** What the loop makes of an executed instruction: it stops with its result, or moves on. */
    method Conclude(s: Scope, op: byte, o: Operation, res: seq<byte>, failure: Option<Error>)
      returns (done: bool, ret: seq<byte>, err: Option<Error>)
      requires Fits(op, o) && (failure.None? ==> Landed(s, o)) && failure != Some(ErrExecutionReverted)
      modifies this`returnData, s`pc
      ensures TurnSeen(s, done, ret, err) == old(Took(s, o.execute, res, failure))
      ensures !done ==> s.AtHead() && failure.None? && !o.halts && !o.reverts
      ensures NoData(ret, err) && (err.Some? ==> err == failure || err == Some(ErrExecutionReverted))
    {
      hide Fits, Took, Landed, Scope.AtHead;
      TookFlags(s, op, o, res, failure);
      if o.setsReturn { returnData := res; }
      if failure.Some? { return true, [], failure; }
      if o.reverts { return true, res, Some(ErrExecutionReverted); }
      if o.halts { return true, res, None; }
      MoveOn(s, o);
      return false, [], None;
    }

    /** The flags of a table entry say what its routine does to the loop. */
    lemma TookFlags(s: Scope, op: byte, o: Operation, ret: seq<byte>, err: Option<Error>)
      requires Fits(op, o)
      ensures Took(s, o.execute, ret, err) ==
              if err.Some? then Over(Failed(err.value, polls))
              else if o.reverts then Over(Reverted(ret, s.gas, polls))
              else if o.halts then Over(Finished(ret, s.gas, db.world, polls))
              else
                Next(Snap(s).(pc := if o.jumps then s.pc else s.pc + 1,
                              returnData := if o.setsReturn then ret else returnData))
    {}

    method Prepare(s: Scope, op: byte, o: Operation) returns (err: Option<Error>)
      requires Valid() && s.AtHead() && op == s.GetOp(s.pc) && Fits(op, o) && o.minStack <= |s.stack| <= o.maxStack
      requires readOnly ==> !o.writes && (o.execute.Call? ==> |s.stack| >= 7 && Back(s.stack, 2) == 0)
      requires HasArgs(o, s.stack)
      modifies db, s`gas, s`store, s`lastGasCost, s`feesPaid, this`callGasTemp
      ensures Valid() && Keeps(old(State()), State()) && s.gas <= old(s.gas)
      ensures err.None? ==> Ready(s, op, o) && GasArgs(o.dynamic) <= |s.stack|
      ensures err.None? && !o.halts && !o.reverts ==> s.gas + Share(s, o.dynamic) < old(s.gas)
      ensures err.None? && CallsOut(o.execute) ==> s.gas + Share(s, o.dynamic) < TWO_64
      ensures err.Some? ==> err.value == ErrOutOfGas || err.value == ErrGasUintOverflow
      ensures Performed(env, Ctx(s), depth, op, o, old(Snap(s))) ==
              if err.None? then Executed(s, op, o) else Over(Failed(err.value, polls))
    {
      hide Valid, Keeps, Fits, MemInv, Covered, IsStart, Share, Scope.AtHead, Ready, CostAt, WantedSize, HasArgs, AreaArgs,
        Executed, Performed, GasArgs, Credited, RestShare, Price;
      ghost var m := Snap(s);
      StackRoom(op, o);
      HeadFacts(s, op, o);
      err := Charge(s, op, o);
      if err.None? { BecomesReady(s, op, o); }
      ReadyNests(op, o);
      PerformedIs(s, op, o, m, err);
    }

    lemma BecomesReady(s: Scope, op: byte, o: Operation)
      requires Fits(op, o) && o.minStack <= |s.stack| <= o.maxStack && op == s.GetOp(s.pc)
      requires s.MemPaid() && AreaArgs(o.memory) <= |s.stack| && Covered(o.memory, s.stack, |s.store|)
      requires s.pc >= |s.code| || IsStart(s.code, s.pc)
      requires readOnly ==> !o.writes && (o.execute.Call? ==> |s.stack| >= 7 && Back(s.stack, 2) == 0)
      ensures Ready(s, op, o)
    {}

    /** A charge that went through leaves the frame as the reference has it, and one that did not ends the run as it says. */
    lemma PerformedIs(s: Scope, op: byte, o: Operation, m: Machine, err: Option<Error>)
      requires Fits(op, o) && o.minStack <= |s.stack| && HasArgs(o, s.stack)
      requires (s.pc, s.stack, returnData, polls) == (m.pc, m.stack, m.returnData, m.polls)
      requires var due := CostAt(env, Ctx(s), o, m);
        && (err.None? <==> due.Some?)
        && (err.None? ==> s.gas == m.gas - due.value && s.store == Extended(m.store, WantedSize(o.memory, m.stack).value))
        && (err.None? ==> db.world == Credited(o.dynamic, m.world, s.self, m.stack))
        && (err == Some(ErrGasUintOverflow) <==> o.constantGas <= m.gas && WantedSize(o.memory, m.stack).None?)
        && (err.Some? ==> err.value == ErrOutOfGas || err.value == ErrGasUintOverflow)
      requires err.None? && Nested(o.dynamic) ==>
                 callGasTemp == RestShare(o.dynamic, Price(o.dynamic, m.world, s.self, s.stack), s.stack, |m.store|,
                                          WantedSize(o.memory, s.stack).value, m.gas - o.constantGas)
      requires err.None? ==> Ready(s, op, o)
      requires err.None? && CallsOut(o.execute) ==> s.gas + Share(s, o.dynamic) < TWO_64
      ensures Performed(env, Ctx(s), depth, op, o, m) == if err.None? then Executed(s, op, o) else Over(Failed(err.value, polls))
    {
      hide Fits, WantedSize, Credited, Price, RestShare, Effect, CallOut, CreateOut, AfterCall, AfterCreate, RestCost, Ready;
      ReadyNests(op, o);
    }

    lemma ReadyNests(op: byte, o: Operation)
      requires Fits(op, o)
      ensures CallsOut(o.execute) <==> Nested(o.dynamic)
      ensures CallsOut(o.execute) ==> !o.halts && !o.reverts
    {}

    method MoveOn(s: Scope, o: Operation)
      requires Landed(s, o) && !o.halts && !o.reverts
      modifies s`pc
      ensures s.AtHead() && s.pc == if o.jumps then old(s.pc) else old(s.pc) + 1
    {
      hide MemInv, IsStart;
      if !o.jumps { s.pc := s.pc + 1; }
    }
  }
}
