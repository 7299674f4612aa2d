/** The wallet CRUD layer over a store that it updates in place: the wallets
    table with its unique email index, and the append-only operations table
    with its primary-key index. Each method is one transaction and is proved
    against the transition function of the same name in LedgerSpec. */
module WalletCrud {
  import opened Records
  import Money
  import Spec = LedgerSpec

  class Ledger {
    var wallets: map<Uuid, Wallet>
    var byEmail: map<string, Uuid>
    var ops: seq<Operation>
    /** Primary keys of `ops`, as the table's index holds them. */
    var opIds: set<Uuid>

    function Snapshot(): Spec.Store
      reads this
    {
      Spec.Store(wallets, byEmail, ops)
    }

    ghost predicate Valid()
      reads this
    {
      Spec.Valid(Snapshot()) && opIds == Spec.IdsOf(ops)
    }

    constructor ()
      ensures Valid() && Snapshot() == Spec.Empty
    {
      wallets, byEmail, ops, opIds := map[], map[], [], {};
      new;
      Spec.EmptyValid();
    }

    /** `get_wallet_by_id`. */
    method GetById(id: Uuid) returns (r: Option<Wallet>)
      requires Valid()
      ensures r == Spec.FindById(Snapshot(), id)
      ensures r.Some? <==> id in wallets
      ensures r.Some? ==> r.value.id == id && r.value == wallets[id]
    {
      if id in wallets {
        r := Some(wallets[id]);
      } else {
        r := None;
      }
    }

    /** `get_wallet_by_email`, through the unique index. */
    method GetByEmail(email: string) returns (r: Option<Wallet>)
      requires Valid()
      ensures r == Spec.FindByEmail(Snapshot(), email)
      ensures r.Some? <==> exists id | id in wallets :: wallets[id].email == email
      ensures r.Some? ==> r.value.email == email && r.value.id in wallets && wallets[r.value.id] == r.value
    {
      if email in byEmail {
        r := Some(wallets[byEmail[email]]);
      } else {
        r := None;
      }
    }

    /** `create_wallet_by_email`: `id` is the freshly drawn primary key. */
    method CreateWallet(email: string, id: Uuid) returns (r: Result<Wallet>)
      requires Valid()
      modifies this
      ensures Valid()
      ensures Spec.CreateWallet(old(Snapshot()), email, id) == Spec.Step(r, Snapshot())
      ensures r.Err? ==> r.error == Conflict && unchanged(this)
    {
      if email in byEmail || id in wallets {
        // the unique constraint fires; the insert is rolled back
        return Err(Conflict);
      }
      var w := Wallet(id, email, Spec.DefaultBalance);
      ghost var next := Spec.Insert(Snapshot(), w);
      Spec.InsertPreservesValid(Snapshot(), w);
      wallets, byEmail := wallets[id := w], byEmail[email := id];
      assert Snapshot() == next;
      r := Ok(w);
    }

    /** `update_wallet_balance`: `opId` and `at` are the primary key and the
        creation time the store assigns to the new operation record. */
    method Apply(wid: Uuid, kind: OperationType, amount: int, opId: Uuid, at: Timestamp)
      returns (r: Result<Operation>)
      requires Valid()
      requires amount > 0
      modifies this
      ensures Valid()
      ensures Spec.Apply(old(Snapshot()), wid, kind, amount, opId, at) == Spec.Step(r, Snapshot())
      ensures r.Err? ==> unchanged(this)
    {
      ghost var s := Snapshot();
      if wid !in wallets {
        assert Spec.Apply(s, wid, kind, amount, opId, at) == Spec.Step(Err(NotFound), s);
        return Err(NotFound);
      }
      var w := wallets[wid];
      var balance := w.balance;
      if kind == Withdraw {
        if balance < amount {
          assert Spec.Apply(s, wid, kind, amount, opId, at) == Spec.Step(Err(InsufficientFunds), s);
          return Err(InsufficientFunds);
        }
        balance := balance - amount;
      } else {
        balance := balance + amount;
      }
      if !Money.Fits(balance) || opId in opIds {
        // the store raises at commit; the transaction is rolled back
        assert Spec.Apply(s, wid, kind, amount, opId, at) == Spec.Step(Err(StorageFailure), s);
        return Err(StorageFailure);
      }
      var op := Operation(opId, wid, kind, amount, at);
      ghost var next := Spec.Commit(s, op, balance);
      assert Spec.Apply(s, wid, kind, amount, opId, at) == Spec.Step(Ok(op), next);
      Spec.CommitPreservesValid(s, op, balance);
      Spec.IdsOfAppend(ops, op);
      wallets, ops, opIds := wallets[wid := w.(balance := balance)], ops + [op], opIds + {opId};
      r := Ok(op);
      assert Snapshot() == next;
    }
  }

  /** A new wallet starts at 0 under the requested email and is found by id
      and by email. */
  method CreateScenario(w: Uuid) returns (created: Result<Wallet>, byId: Option<Wallet>, byEmail: Option<Wallet>)
    ensures created == Ok(Wallet(w, "test@example.com", 0))
    ensures byId == byEmail == Some(created.value)
  {
    var ledger := new Ledger();
    created := ledger.CreateWallet("test@example.com", w);
    byId := ledger.GetById(w);
    byEmail := ledger.GetByEmail("test@example.com");
  }

  /** A second wallet with an email already in use is refused, whatever id it
      would get. */
  method DuplicateEmailScenario(w: Uuid, w2: Uuid) returns (again: Result<Wallet>)
    ensures again == Err(Conflict)
  {
    var ledger := new Ledger();
    var first := ledger.CreateWallet("test@example.com", w);
    again := ledger.CreateWallet("test@example.com", w2);
  }

  /** A deposit into a wallet at 0 succeeds, is recorded for that wallet, and
      leaves the deposited amount as the balance. */
  method DepositScenario(ledger: Ledger, w: Uuid, amount: int, o: Uuid, at: Timestamp) returns (r: Result<Operation>)
    requires ledger.Valid() && w in ledger.wallets && ledger.wallets[w].balance == 0
    requires 0 < amount <= Money.MaxMinor && o !in ledger.opIds
    modifies ledger
    ensures r.Ok? && r.value.walletId == w && r.value.kind == Deposit && w in ledger.wallets
    ensures ledger.wallets[w].balance == amount
  {
    r := ledger.Apply(w, Deposit, amount, o, at);
  }

  /** A withdrawal of at most the balance from a wallet holding 10.00 succeeds
      and leaves 10.00 minus the amount; withdrawing all of it leaves 0. */
  method WithdrawScenario(ledger: Ledger, w: Uuid, amount: int, o: Uuid, at: Timestamp) returns (r: Result<Operation>)
    requires ledger.Valid() && w in ledger.wallets && ledger.wallets[w].balance == 10 * Money.MinorPerMajor
    requires 0 < amount <= 10 * Money.MinorPerMajor && o !in ledger.opIds
    modifies ledger
    ensures r.Ok? && r.value.walletId == w && r.value.kind == Withdraw && w in ledger.wallets
    ensures ledger.wallets[w].balance == 10 * Money.MinorPerMajor - amount
    ensures amount == 10 * Money.MinorPerMajor ==> ledger.wallets[w].balance == 0
  {
    r := ledger.Apply(w, Withdraw, amount, o, at);
  }

  /** Withdrawing 11.00 from a wallet holding 10.00 is refused and changes
      nothing. */
  method InsufficientFundsScenario(ledger: Ledger, w: Uuid, o: Uuid, at: Timestamp) returns (r: Result<Operation>)
    requires ledger.Valid() && w in ledger.wallets && ledger.wallets[w].balance == 10 * Money.MinorPerMajor
    modifies ledger
    ensures r == Err(InsufficientFunds)
    ensures unchanged(ledger)
  {
    r := ledger.Apply(w, Withdraw, 11 * Money.MinorPerMajor, o, at);
  }
}
