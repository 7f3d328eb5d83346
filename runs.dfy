/** Sequences of store operations, one committed after the other, and what
    holds across any of them: the store stays well formed, a settled
    transaction or a sold bill never changes again (so each is applied at
    most once), and wallets stay non-negative as long as no negative amount
    is ever recorded. */
module Runs {
  import opened Domain
  import opened Crud
  import opened Ledger

  /** One call into the store. */
  datatype Command =
    | CreateUserCmd(phone: string, passwordHash: string, fullName: string, role: Role)
    | ApproveUserCmd(userId: nat, approveAs: Role)
    | CreateCardCmd(suffix: string, bankName: string, customerId: nat)
    | ImportBillCmd(customerCode: string, totalAmount: real, importerId: nat)
    | ExportBillCmd(billId: nat, buyerId: nat)
    | CreateTransactionCmd(owner: nat, amount: real, txType: TxType)
    | ProcessTransactionCmd(txId: nat, newStatus: TxStatus)

  /** The store after one command. */
  function Apply(db: Db, c: Command): Db {
    match c
    case CreateUserCmd(phone, hash, name, role) => CreateUser(db, phone, hash, name, role).db
    case ApproveUserCmd(u, role) => ApproveUser(db, u, role).db
    case CreateCardCmd(suffix, bank, customer) => CreateCustomerCard(db, suffix, bank, customer).db
    case ImportBillCmd(code, total, importer) => ImportBill(db, code, total, importer).db
    case ExportBillCmd(b, buyer) => ExportBill(db, b, buyer).db
    case CreateTransactionCmd(owner, amount, t) => CreateTransaction(db, owner, amount, t).db
    case ProcessTransactionCmd(id, s) => ProcessTransaction(db, id, s).db
  }

  /** The store after the commands, in order. */
  function Run(db: Db, cs: seq<Command>): Db
    decreases |cs|
  {
    if cs == [] then db else Run(Apply(db, cs[0]), cs[1..])
  }

  lemma {:induction false} RunPreservesWellFormed(db: Db, cs: seq<Command>)
    requires WellFormed(db)
    ensures WellFormed(Run(db, cs))
    decreases |cs|
  {
    if cs != [] {
      RunPreservesWellFormed(Apply(db, cs[0]), cs[1..]);
    }
  }

  /** No single command writes a settled transaction. */
  lemma ApplyKeepsSettled(db: Db, c: Command, id: nat)
    requires WellFormed(db)
    requires id in db.txs && db.txs[id].status != Pending
    ensures id in Apply(db, c).txs && Apply(db, c).txs[id] == db.txs[id]
  {
    match c
    case CreateTransactionCmd(owner, amount, t) =>
      assert CreateTransaction(db, owner, amount, t).out.value.id != id;
    case ProcessTransactionCmd(tid, s) =>
      assert tid == id ==> !IsPending(db, tid);
    case _ =>
  }

  /** No single command writes a sold bill. */
  lemma ApplyKeepsSold(db: Db, c: Command, id: nat)
    requires WellFormed(db)
    requires id in db.bills && db.bills[id].status == Sold
    ensures id in Apply(db, c).bills && Apply(db, c).bills[id] == db.bills[id]
  {
    match c
    case ImportBillCmd(code, total, importer) =>
      assert ImportBill(db, code, total, importer).out.value.id != id;
    case ExportBillCmd(b, buyer) =>
      assert b == id ==> !ExportBill(db, b, buyer).out.Done?;
    case _ =>
  }

  /** A transaction that is no longer pending is never written again. */
  lemma {:induction false} SettledTransactionIsFinal(db: Db, cs: seq<Command>, id: nat)
    requires WellFormed(db)
    requires id in db.txs && db.txs[id].status != Pending
    ensures id in Run(db, cs).txs && Run(db, cs).txs[id] == db.txs[id]
    decreases |cs|
  {
    if cs != [] {
      ApplyKeepsSettled(db, cs[0], id);
      SettledTransactionIsFinal(Apply(db, cs[0]), cs[1..], id);
    }
  }

  /** A sold bill is never written again. */
  lemma {:induction false} SoldBillIsFinal(db: Db, cs: seq<Command>, id: nat)
    requires WellFormed(db)
    requires id in db.bills && db.bills[id].status == Sold
    ensures id in Run(db, cs).bills && Run(db, cs).bills[id] == db.bills[id]
    decreases |cs|
  {
    if cs != [] {
      ApplyKeepsSold(db, cs[0], id);
      SoldBillIsFinal(Apply(db, cs[0]), cs[1..], id);
    }
  }

  /** Once a transaction is approved or rejected, whatever happens next, a
      further approval or rejection of it fails and changes nothing: its
      wallet effect is applied at most once. */
  lemma DecisionAppliedAtMostOnce(db: Db, id: nat, first: TxStatus, cs: seq<Command>, later: TxStatus)
    requires WellFormed(db)
    requires first != Pending
    requires ProcessTransaction(db, id, first).out.Done?
    ensures
      var dbN := Run(ProcessTransaction(db, id, first).db, cs);
      && ProcessTransaction(dbN, id, later) == Step(dbN, NotFound)
      && id in dbN.txs && dbN.txs[id].status == first
  {
    var db1 := ProcessTransaction(db, id, first).db;
    SettledTransactionIsFinal(db1, cs, id);
  }

  /** Once a bill is sold, whatever happens next, a further export fails and
      the first buyer stays recorded. */
  lemma SaleAppliedAtMostOnce(db: Db, billId: nat, buyer: nat, cs: seq<Command>, laterBuyer: nat)
    requires WellFormed(db)
    requires ExportBill(db, billId, buyer).out.Done?
    ensures
      var dbN := Run(ExportBill(db, billId, buyer).db, cs);
      && ExportBill(dbN, billId, laterBuyer) == Step(dbN, NotFound)
      && billId in dbN.bills && dbN.bills[billId].status == Sold
      && dbN.bills[billId].buyerId == Some(buyer)
  {
    var db1 := ExportBill(db, billId, buyer).db;
    SoldBillIsFinal(db1, cs, billId);
  }

  /** Every wallet and every recorded amount is non-negative. */
  ghost predicate Solvent(db: Db) {
    WalletsNonNegative(db) && AmountsNonNegative(db.txs)
  }

  ghost predicate AmountsNonNegative(txs: map<nat, Transaction>) {
    forall k :: k in txs ==> txs[k].amount >= 0.0
  }

  /** No command records a negative transaction amount. */
  predicate NonNegativeRequests(cs: seq<Command>) {
    forall i :: 0 <= i < |cs| && cs[i].CreateTransactionCmd? ==> cs[i].amount >= 0.0
  }

  /** Approving a transaction of non-negative amount leaves no wallet below
      zero. */
  lemma MoveWalletKeepsNonNegative(db: Db, t: Transaction)
    requires WalletsNonNegative(db) && t.amount >= 0.0
    requires MoveWallet(db, t).Some?
    ensures WalletsNonNegative(MoveWallet(db, t).value)
  {
    var db2 := MoveWallet(db, t).value;
    if t.txType == AgentDeposit && t.userId in db.agents {
      assert db2.customers == db.customers;
      assert forall u :: u in db2.agents && u != t.userId ==> db2.agents[u] == db.agents[u];
    } else if t.txType == CustomerWithdraw && t.userId in db.customers {
      assert db2.agents == db.agents;
      assert forall u :: u in db2.customers && u != t.userId ==> db2.customers[u] == db.customers[u];
    }
  }

  /** One command keeps every wallet and recorded amount non-negative, as
      long as it does not itself record a negative amount. */
  lemma ApplyKeepsSolvent(db: Db, c: Command)
    requires Solvent(db)
    requires c.CreateTransactionCmd? ==> c.amount >= 0.0
    ensures Solvent(Apply(db, c))
  {
    match c
    case ProcessTransactionCmd(id, s) =>
      var r := ProcessTransaction(db, id, s);
      if r.out.Done? {
        var t := db.txs[id].(status := s);
        var db1 := db.(txs := db.txs[id := t]);
        assert AmountsNonNegative(db1.txs);
        if s == Approved {
          MoveWalletKeepsNonNegative(db1, t);
          assert r.db == MoveWallet(db1, t).value;
        }
      }
    case ApproveUserCmd(u, role) =>
      var r := ApproveUser(db, u, role);
      assert r.db.txs == db.txs;
    case CreateTransactionCmd(owner, amount, t) =>
      var r := CreateTransaction(db, owner, amount, t);
      assert r.db.agents == db.agents && r.db.customers == db.customers;
    case _ =>
  }

  /** Wallets never go negative, provided every amount ever recorded is
      non-negative (nothing in the request path checks this). */
  lemma {:induction false} RunKeepsSolvent(db: Db, cs: seq<Command>)
    requires Solvent(db)
    requires NonNegativeRequests(cs)
    ensures Solvent(Run(db, cs))
    ensures TotalFunds(Run(db, cs)) >= 0.0
    decreases |cs|
  {
    if cs == [] {
      TotalFundsNonNegative(db);
    } else {
      ApplyKeepsSolvent(db, cs[0]);
      assert NonNegativeRequests(cs[1..]) by {
        forall i | 0 <= i < |cs[1..]| && cs[1..][i].CreateTransactionCmd?
          ensures cs[1..][i].amount >= 0.0
        {
          assert cs[1..][i] == cs[i + 1];
        }
      }
      RunKeepsSolvent(Apply(db, cs[0]), cs[1..]);
    }
  }
}
