/** The accounts a contract can see and change, and the journal that undoes changes. */
module KvmWorld {
  import opened Basics
  import opened KvmGas
  import opened KvmCode

  type Address = a: nat | a < TWO_160
  type Storage = m: map<Word, Word> | forall k | k in m :: m[k] != 0 witness map[]  // absent slots are zero

  datatype Account = Account(balance: int, nonce: nat, code: seq<byte>, storage: Storage, suicided: bool)
  const NO_ACCOUNT := Account(0, 0, [], map[], false)

  datatype Log = Log(address: Address, topics: seq<Word>, data: seq<byte>)

  datatype World = World(accounts: map<Address, Account>, logs: seq<Log>, refund: nat)

  function Acct(w: World, a: Address): Account {
    if a in w.accounts then w.accounts[a] else NO_ACCOUNT
  }

  predicate Empty(w: World, a: Address) {
    var acc := Acct(w, a);
    acc.balance == 0 && acc.nonce == 0 && acc.code == []
  }

  function Slot(s: Storage, k: Word): Word { if k in s then s[k] else 0 }
  function SetSlot(s: Storage, k: Word, v: Word): Storage { if v == 0 then s - {k} else s[k := v] }

  function Put(w: World, a: Address, acc: Account): World {
    w.(accounts := w.accounts[a := acc])
  }

  /** No balance, nonce, code, slot, log or refund differs; only empty accounts may have come into being. */
  ghost predicate SameState(w: World, w': World) {
    && (forall a: Address :: Acct(w, a) == Acct(w', a))
    && w.logs == w'.logs && w.refund == w'.refund
  }

  // ---------------------------------------------------------------- total balance

  ghost function Sum(m: map<Address, Account>): int {
    if m == map[] then 0
    else
      var a :| a in m;
      m[a].balance + Sum(m - {a})
  }

  ghost function Supply(w: World): int { Sum(w.accounts) }

  ghost predicate NonNegative(w: World) {
    forall a | a in w.accounts :: w.accounts[a].balance >= 0
  }

  lemma {:induction false} SumRemove(m: map<Address, Account>, a: Address)
    requires a in m
    ensures Sum(m) == m[a].balance + Sum(m - {a})
    decreases |m|
  {
    var b :| b in m && Sum(m) == m[b].balance + Sum(m - {b});
    if b != a {
      assert |m - {b}| < |m| && |m - {a}| < |m| by { SmallerMap(m, a); SmallerMap(m, b); }
      SumRemove(m - {b}, a);
      SumRemove(m - {a}, b);
      assert m - {b} - {a} == m - {a} - {b};
    }
  }

  lemma SmallerMap(m: map<Address, Account>, a: Address)
    requires a in m
    ensures |m - {a}| < |m|
  {}

  /** Changing one account changes the total by the difference of its balances. */
  lemma SupplyPut(w: World, a: Address, acc: Account)
    ensures Supply(Put(w, a, acc)) == Supply(w) - Acct(w, a).balance + acc.balance
  {
    var m, m' := w.accounts, w.accounts[a := acc];
    SumRemove(m', a);
    if a in m {
      SumRemove(m, a);
      assert m' - {a} == m - {a};
    } else {
      assert m' - {a} == m;
    }
  }

  function Moved(w: World, sender: Address, recipient: Address, amount: int): World {
    var w1 := Put(w, sender, Acct(w, sender).(balance := Acct(w, sender).balance - amount));
    Put(w1, recipient, Acct(w1, recipient).(balance := Acct(w1, recipient).balance + amount))
  }

  /** A covered transfer keeps the total and leaves no negative balance; one of nothing changes nothing. */
  lemma TransferConserves(w: World, sender: Address, recipient: Address, amount: nat)
    requires NonNegative(w) && (amount == 0 || amount <= Acct(w, sender).balance)
    ensures Supply(Moved(w, sender, recipient, amount)) == Supply(w)
    ensures NonNegative(Moved(w, sender, recipient, amount))
    ensures amount == 0 ==> SameState(w, Moved(w, sender, recipient, amount))
  {
    hide Supply, NonNegative, SameState;
    var acc := Acct(w, sender).(balance := Acct(w, sender).balance - amount);
    var w1 := Put(w, sender, acc);
    SupplyPut(w, sender, acc);
    SupplyPut(w1, recipient, Acct(w1, recipient).(balance := Acct(w1, recipient).balance + amount));
    MovedFacts(w, sender, recipient, amount);
  }

  lemma MovedFacts(w: World, sender: Address, recipient: Address, amount: nat)
    requires NonNegative(w) && (amount == 0 || amount <= Acct(w, sender).balance)
    ensures NonNegative(Moved(w, sender, recipient, amount))
    ensures amount == 0 ==> SameState(w, Moved(w, sender, recipient, amount))
  {
    var w' := Moved(w, sender, recipient, amount);
    assert forall a | a != sender && a != recipient :: Acct(w', a) == Acct(w, a);
  }

  /** A self-destruct moves the balance away, or burns it when the account names itself. */
  function Destructed(w: World, self: Address, beneficiary: Address): World {
    var b := Acct(w, self).balance;
    var w1 := Put(w, beneficiary, Acct(w, beneficiary).(balance := Acct(w, beneficiary).balance + b));
    if self in w1.accounts then Put(w1, self, w1.accounts[self].(suicided := true, balance := 0)) else w1
  }

  lemma DestructSupply(w: World, self: Address, beneficiary: Address)
    requires NonNegative(w)
    ensures Supply(Destructed(w, self, beneficiary)) ==
            Supply(w) - (if self == beneficiary then Acct(w, self).balance else 0)
    ensures NonNegative(Destructed(w, self, beneficiary)) && Acct(Destructed(w, self, beneficiary), self).balance == 0
    ensures Supply(Destructed(w, self, beneficiary)) <= Supply(w)
  {
    hide Supply;
    var b := Acct(w, self).balance;
    var acc := Acct(w, beneficiary).(balance := Acct(w, beneficiary).balance + b);
    var w1 := Put(w, beneficiary, acc);
    SupplyPut(w, beneficiary, acc);
    if self in w1.accounts { SupplyPut(w1, self, w1.accounts[self].(suicided := true, balance := 0)); }
  }

  /** Writing the old value back restores the storage. */
  lemma SlotBack(s: Storage, k: Word, v: Word)
    ensures SetSlot(SetSlot(s, k, v), k, Slot(s, k)) == s
    ensures v == Slot(s, k) ==> SetSlot(s, k, v) == s
  {}

  // ---------------------------------------------------------------- journal

  datatype Entry =
    | CreateObject(a: Address)
    | ResetObject(a: Address, prevAccount: Account)
    | SuicideChange(a: Address, prevSuicided: bool, prevBalance: int)
    | BalanceChange(a: Address, prevBalance: int)
    | NonceChange(a: Address, prevNonce: nat)
    | StorageChange(a: Address, key: Word, prevValue: Word)
    | CodeChange(a: Address, prevCode: seq<byte>)
    | RefundChange(prevRefund: nat)
    | AddLogChange
    | TouchChange(a: Address)

  /** What reverting one entry does. */
  function Undo(w: World, e: Entry): World {
    match e
    case CreateObject(a) => w.(accounts := w.accounts - {a})
    case ResetObject(a, prev) => Put(w, a, prev)
    case SuicideChange(a, s, b) => Put(w, a, Acct(w, a).(suicided := s, balance := b))
    case BalanceChange(a, b) => Put(w, a, Acct(w, a).(balance := b))
    case NonceChange(a, n) => Put(w, a, Acct(w, a).(nonce := n))
    case StorageChange(a, k, v) => Put(w, a, Acct(w, a).(storage := SetSlot(Acct(w, a).storage, k, v)))
    case CodeChange(a, c) => Put(w, a, Acct(w, a).(code := c))
    case RefundChange(r) => w.(refund := r)
    case AddLogChange => if w.logs == [] then w else w.(logs := w.logs[..|w.logs| - 1])
    case TouchChange(_) => w
  }

  /** Reverting entries from the last to the first. */
  function UndoAll(w: World, es: seq<Entry>): World
    decreases |es|
  {
    if es == [] then w else UndoAll(Undo(w, es[|es| - 1]), es[..|es| - 1])
  }

  lemma {:induction false} UndoConcat(w: World, a: seq<Entry>, b: seq<Entry>)
    ensures UndoAll(w, a + b) == UndoAll(UndoAll(w, b), a)
    decreases |b|
  {
    if b == [] {
      assert a + b == a;
    } else {
      var e := b[|b| - 1];
      assert (a + b)[..|a + b| - 1] == a + b[..|b| - 1];
      UndoConcat(Undo(w, e), a, b[..|b| - 1]);
    }
  }

  lemma UndoSplit(w: World, es: seq<Entry>, lo: nat, hi: nat)
    requires lo <= hi <= |es|
    ensures UndoAll(w, es[lo..]) == UndoAll(UndoAll(w, es[hi..]), es[..hi][lo..])
  {
    assert es[lo..] == es[..hi][lo..] + es[hi..];
    UndoConcat(w, es[..hi][lo..], es[hi..]);
  }

  datatype Revision = Revision(id: nat, index: nat)

  class StateDB {
    var world: World
    var journal: seq<Entry>
    var revisions: seq<Revision>
    var nextId: nat
    ghost var saved: seq<World>  // the world at each live revision

    /** Undoing the journal back to a live revision gives the world it was taken of. */
    ghost predicate Valid()
      reads this
    {
      && |saved| == |revisions|
      && (forall i | 0 <= i < |revisions| :: revisions[i].index <= |journal| && revisions[i].id < nextId)
      && (forall i, j | 0 <= i < j < |revisions| ::
            revisions[i].id < revisions[j].id && revisions[i].index <= revisions[j].index)
      && (forall i | 0 <= i < |revisions| :: UndoAll(world, journal[revisions[i].index..]) == saved[i])
    }

    constructor (w: World)
      ensures Valid() && world == w && revisions == []
    {
      world, journal, revisions, nextId, saved := w, [], [], 0, [];
    }

    /** Records how to undo a change and makes it. */
    method Change(e: Entry, w: World)
      requires Valid() && Undo(w, e) == world
      modifies this`world, this`journal
      ensures Valid() && world == w
    {
      ghost var before := journal;
      journal := journal + [e];
      world := w;
      forall i | 0 <= i < |revisions| ensures UndoAll(world, journal[revisions[i].index..]) == saved[i] {
        assert journal[revisions[i].index..] == before[revisions[i].index..] + [e];
        UndoConcat(w, before[revisions[i].index..], [e]);
        assert UndoAll(Undo(w, e), []) == UndoAll(w, [e]);
      }
    }

    method CreateAccount(a: Address)
      requires Valid()
      modifies this`world, this`journal
      ensures Valid()
      ensures world == Put(old(world), a, NO_ACCOUNT.(balance := Acct(old(world), a).balance))
    {
      var w := Put(world, a, NO_ACCOUNT.(balance := Acct(world, a).balance));
      if a in world.accounts {
        assert Undo(w, ResetObject(a, world.accounts[a])) == world by {
          assert w.accounts[a := world.accounts[a]] == world.accounts;
        }
        Change(ResetObject(a, world.accounts[a]), w);
      } else {
        assert w.accounts - {a} == world.accounts;
        Change(CreateObject(a), w);
      }
    }

    method GetOrNewStateObject(a: Address)
      requires Valid()
      modifies this`world, this`journal
      ensures Valid() && a in world.accounts && world == Put(old(world), a, Acct(old(world), a))
    {
      if a !in world.accounts {
        CreateAccount(a);
      } else {
        assert world.accounts[a := world.accounts[a]] == world.accounts;
      }
    }

    method AddBalance(a: Address, amount: int)
      requires Valid()
      modifies this`world, this`journal
      ensures Valid() && world == Put(old(world), a, Acct(old(world), a).(balance := Acct(old(world), a).balance + amount))
    {
      hide Valid, UndoAll;
      GetOrNewStateObject(a);
      var acc := world.accounts[a];
      if amount == 0 {
        if Empty(world, a) { Change(TouchChange(a), world); }
        return;
      }
      var w := Put(world, a, acc.(balance := acc.balance + amount));
      assert w.accounts[a := acc] == world.accounts;
      Change(BalanceChange(a, acc.balance), w);
    }

    method SubBalance(a: Address, amount: int)
      requires Valid()
      modifies this`world, this`journal
      ensures Valid() && world == Put(old(world), a, Acct(old(world), a).(balance := Acct(old(world), a).balance - amount))
    {
      hide Valid, UndoAll;
      GetOrNewStateObject(a);
      var acc := world.accounts[a];
      if amount == 0 { return; }
      var w := Put(world, a, acc.(balance := acc.balance - amount));
      assert w.accounts[a := acc] == world.accounts;
      Change(BalanceChange(a, acc.balance), w);
    }

    /** Moves value between accounts; both come into being if they were missing. */
    method Transfer(sender: Address, recipient: Address, amount: int)
      requires Valid()
      modifies this`world, this`journal
      ensures Valid() && world == Moved(old(world), sender, recipient, amount)
    {
      hide Valid;
      SubBalance(sender, amount);
      AddBalance(recipient, amount);
    }

    method SetNonce(a: Address, nonce: nat)
      requires Valid()
      modifies this`world, this`journal
      ensures Valid() && world == Put(old(world), a, Acct(old(world), a).(nonce := nonce))
    {
      hide Valid, UndoAll;
      GetOrNewStateObject(a);
      var acc := world.accounts[a];
      var w := Put(world, a, acc.(nonce := nonce));
      assert w.accounts[a := acc] == world.accounts;
      Change(NonceChange(a, acc.nonce), w);
    }

    /** A new account with nonce one that keeps the balance found at the address. */
    method NewContract(a: Address)
      requires Valid()
      modifies this`world, this`journal
      ensures Valid()
      ensures world == Put(old(world), a, NO_ACCOUNT.(balance := Acct(old(world), a).balance, nonce := 1))
    {
      hide Valid;
      CreateAccount(a);
      SetNonce(a, 1);
      assert world.accounts == old(world).accounts[a := NO_ACCOUNT.(balance := Acct(old(world), a).balance, nonce := 1)];
    }

    method SetCode(a: Address, code: seq<byte>)
      requires Valid()
      modifies this`world, this`journal
      ensures Valid() && world == Put(old(world), a, Acct(old(world), a).(code := code))
    {
      GetOrNewStateObject(a);
      var acc := world.accounts[a];
      var w := Put(world, a, acc.(code := code));
      assert w.accounts[a := acc] == world.accounts;
      Change(CodeChange(a, acc.code), w);
    }

    method SetState(a: Address, k: Word, v: Word)
      requires Valid()
      modifies this`world, this`journal
      ensures Valid() && world == Put(old(world), a, Acct(old(world), a).(storage := SetSlot(Acct(old(world), a).storage, k, v)))
    {
      hide Valid, UndoAll;
      GetOrNewStateObject(a);
      var acc := world.accounts[a];
      var prev := Slot(acc.storage, k);
      SlotBack(acc.storage, k, v);
      hide SetSlot;
      if prev == v { return; }
      var w := Put(world, a, acc.(storage := SetSlot(acc.storage, k, v)));
      assert w.accounts[a := acc] == world.accounts;
      Change(StorageChange(a, k, prev), w);
    }

    /** Marks the account and empties its balance; a missing account is left alone. */
    method Suicide(a: Address)
      requires Valid()
      modifies this`world, this`journal
      ensures Valid()
      ensures world == if a in old(world).accounts
                       then Put(old(world), a, old(world).accounts[a].(suicided := true, balance := 0)) else old(world)
    {
      if a !in world.accounts { return; }
      var acc := world.accounts[a];
      var w := Put(world, a, acc.(suicided := true, balance := 0));
      assert w.accounts[a := acc] == world.accounts;
      Change(SuicideChange(a, acc.suicided, acc.balance), w);
    }

    /** Pays the balance out and marks the account, in that order. */
    method SelfDestruct(self: Address, beneficiary: Address)
      requires Valid()
      modifies this`world, this`journal
      ensures Valid() && world == Destructed(old(world), self, beneficiary)
    {
      hide Valid;
      AddBalance(beneficiary, Acct(world, self).balance);
      Suicide(self);
    }

    method AddRefund(gas: nat)
      requires Valid()
      modifies this`world, this`journal
      ensures Valid() && world == old(world).(refund := old(world).refund + gas)
    {
      Change(RefundChange(world.refund), world.(refund := world.refund + gas));
    }

    method AddLog(log: Log)
      requires Valid()
      modifies this`world, this`journal
      ensures Valid() && world == old(world).(logs := old(world).logs + [log])
    {
      assert (world.logs + [log])[..|world.logs|] == world.logs;
      Change(AddLogChange, world.(logs := world.logs + [log]));
    }

    method Snapshot() returns (id: nat)
      requires Valid()
      modifies this`revisions, this`nextId, this`saved
      ensures Valid() && saved == old(saved) + [world]
      ensures |revisions| == |old(revisions)| + 1 && revisions[..|old(revisions)|] == old(revisions)
      ensures revisions[|old(revisions)|].id == id
    {
      hide Undo;
      id := nextId;
      nextId := nextId + 1;
      revisions := revisions + [Revision(id, |journal|)];
      saved := saved + [world];
      assert journal[|journal|..] == [];
    }

    /** Reverts the entries from the end of the journal down to the given position. */
    method RevertJournal(snapshot: nat)
      requires snapshot <= |journal|
      modifies this`world, this`journal
      ensures world == UndoAll(old(world), old(journal)[snapshot..]) && journal == old(journal)[..snapshot]
    {
      var i := |journal|;
      assert journal[..i] == journal;
      while i > snapshot
        invariant snapshot <= i <= |journal|
        invariant UndoAll(world, journal[snapshot..i]) == UndoAll(old(world), journal[snapshot..])
        invariant journal == old(journal)
      {
        assert journal[snapshot..i][..i - snapshot - 1] == journal[snapshot..i - 1];
        i := i - 1;
        world := Undo(world, journal[i]);
      }
      journal := journal[..snapshot];
    }

    /** Undoes the journal back to a live revision: the world is the one the revision was taken of. */
    method RevertToSnapshot(id: nat, ghost k: nat)
      requires Valid() && k < |revisions| && revisions[k].id == id
      modifies this
      ensures Valid() && world == old(saved)[k]
      ensures revisions == old(revisions)[..k] && saved == old(saved)[..k]
    {
      var idx := 0;
      while idx < |revisions| && revisions[idx].id < id
        invariant 0 <= idx <= k
      {
        idx := idx + 1;
      }
      assert idx == k;
      var snapshot := revisions[idx].index;
      ghost var w0, j0 := world, journal;
      RevertJournal(snapshot);
      forall m | 0 <= m < idx ensures UndoAll(world, journal[revisions[m].index..]) == saved[m] {
        UndoSplit(w0, j0, revisions[m].index, snapshot);
      }
      revisions := revisions[..idx];
      saved := saved[..idx];
    }
  }
}
