/** The store as the crud layer uses it: one object whose tables the
    operations update in place and then commit, or roll back. Each method
    is tied to the function of `Crud` that gives its committed state and
    its return value. */
module Session {
  import opened Domain
  import Crud

  class Store {
    var users: map<nat, User>
    var agents: map<nat, AgentProfile>
    var customers: map<nat, CustomerProfile>
    var cards: map<nat, CreditCard>
    var bills: map<nat, Bill>
    var txs: map<nat, Transaction>
    var nextUser: nat
    var nextCard: nat
    var nextBill: nat
    var nextTx: nat

    /** The committed contents of the tables. */
    function Snapshot(): Db
      reads this
    {
      Db(users, agents, customers, cards, bills, txs, nextUser, nextCard, nextBill, nextTx)
    }

    ghost predicate Valid()
      reads this
    {
      WellFormed(Snapshot())
    }

    constructor ()
      ensures Valid() && Snapshot() == EmptyDb()
    {
      users, agents, customers, cards, bills, txs := map[], map[], map[], map[], map[], map[];
      nextUser, nextCard, nextBill, nextTx := 1, 1, 1, 1;
    }

    method CreateUser(phone: string, passwordHash: string, fullName: string, role: Role) returns (out: Outcome<User>)
      requires Valid()
      modifies this
      ensures Valid()
      ensures Snapshot() == Crud.CreateUser(old(Snapshot()), phone, passwordHash, fullName, role).db
      ensures out == Crud.CreateUser(old(Snapshot()), phone, passwordHash, fullName, role).out
    {
      ghost var spec := Crud.CreateUser(Snapshot(), phone, passwordHash, fullName, role);
      assert WellFormed(spec.db);
      if Crud.PhoneTaken(Snapshot(), phone) {
        return Conflict;
      }
      var u := User(nextUser, phone, passwordHash, fullName, role, PendingApproval);
      users := users[u.id := u];
      nextUser := nextUser + 1;
      assert Snapshot() == spec.db;
      return Done(u);
    }

    method ApproveUser(userId: nat, role: Role) returns (out: Outcome<User>)
      requires Valid()
      modifies this
      ensures Valid()
      ensures Snapshot() == Crud.ApproveUser(old(Snapshot()), userId, role).db
      ensures out == Crud.ApproveUser(old(Snapshot()), userId, role).out
    {
      ghost var spec := Crud.ApproveUser(Snapshot(), userId, role);
      assert WellFormed(spec.db);
      if userId !in users {
        return NotFound;
      }
      var committed := users;
      var u := users[userId].(status := Active);
      users := users[userId := u];
      if role == Agent {
        if userId in agents {
          users := committed;  // the duplicate key aborts the commit
          assert Snapshot() == spec.db;
          return Conflict;
        }
        agents := agents[userId := AgentProfile(userId, Crud.AgentNamePrefix + u.fullName, 0.0)];
      } else if role == Customer {
        if userId in customers {
          users := committed;
          assert Snapshot() == spec.db;
          return Conflict;
        }
        customers := customers[userId := CustomerProfile(userId, 0.0)];
      }
      assert Snapshot() == spec.db;
      return Done(u);
    }

    method CreateCustomerCard(suffix: string, bankName: string, customerId: nat) returns (out: Outcome<CreditCard>)
      requires Valid()
      modifies this
      ensures Valid()
      ensures Snapshot() == Crud.CreateCustomerCard(old(Snapshot()), suffix, bankName, customerId).db
      ensures out == Crud.CreateCustomerCard(old(Snapshot()), suffix, bankName, customerId).out
    {
      ghost var spec := Crud.CreateCustomerCard(Snapshot(), suffix, bankName, customerId);
      assert WellFormed(spec.db);
      var c := CreditCard(nextCard, suffix, bankName, customerId);
      cards := cards[c.id := c];
      nextCard := nextCard + 1;
      assert Snapshot() == spec.db;
      return Done(c);
    }

    method ImportBill(customerCode: string, totalAmount: real, importerId: nat) returns (out: Outcome<Bill>)
      requires Valid()
      modifies this
      ensures Valid()
      ensures Snapshot() == Crud.ImportBill(old(Snapshot()), customerCode, totalAmount, importerId).db
      ensures out == Crud.ImportBill(old(Snapshot()), customerCode, totalAmount, importerId).out
    {
      ghost var spec := Crud.ImportBill(Snapshot(), customerCode, totalAmount, importerId);
      assert WellFormed(spec.db);
      var b := Bill(nextBill, customerCode, totalAmount, InStock, importerId, None);
      bills := bills[b.id := b];
      nextBill := nextBill + 1;
      assert Snapshot() == spec.db;
      return Done(b);
    }

    method ExportBill(billId: nat, buyerId: nat) returns (out: Outcome<Bill>)
      requires Valid()
      modifies this
      ensures Valid()
      ensures Snapshot() == Crud.ExportBill(old(Snapshot()), billId, buyerId).db
      ensures out == Crud.ExportBill(old(Snapshot()), billId, buyerId).out
    {
      ghost var spec := Crud.ExportBill(Snapshot(), billId, buyerId);
      assert WellFormed(spec.db);
      if billId !in bills || bills[billId].status != InStock {
        return NotFound;
      }
      var b := bills[billId].(status := Sold);
      b := b.(buyerId := Some(buyerId));
      bills := bills[billId := b];
      assert Snapshot() == spec.db;
      return Done(b);
    }

    method CreateTransaction(userId: nat, amount: real, txType: TxType) returns (out: Outcome<Transaction>)
      requires Valid()
      modifies this
      ensures Valid()
      ensures Snapshot() == Crud.CreateTransaction(old(Snapshot()), userId, amount, txType).db
      ensures out == Crud.CreateTransaction(old(Snapshot()), userId, amount, txType).out
    {
      ghost var spec := Crud.CreateTransaction(Snapshot(), userId, amount, txType);
      assert WellFormed(spec.db);
      var t := Transaction(nextTx, userId, amount, txType, Pending);
      txs := txs[t.id := t];
      nextTx := nextTx + 1;
      assert Snapshot() == spec.db;
      return Done(t);
    }

    /** Moves the wallet that approving `t` moves; false, with nothing
        moved, when a customer wallet cannot cover the withdrawal. */
    method MoveWallet(t: Transaction) returns (covered: bool)
      requires Valid()
      modifies this
      ensures Valid()
      ensures covered <==> Crud.MoveWallet(old(Snapshot()), t).Some?
      ensures covered ==> Snapshot() == Crud.MoveWallet(old(Snapshot()), t).value
      ensures !covered ==> Snapshot() == old(Snapshot())
    {
      ghost var spec := Crud.MoveWallet(Snapshot(), t);
      if t.txType == AgentDeposit && t.userId in agents {
        var p := agents[t.userId];
        agents := agents[t.userId := p.(balance := p.balance + t.amount)];
        assert Snapshot() == spec.value;
        assert WellFormed(spec.value);
      } else if t.txType == CustomerWithdraw && t.userId in customers {
        var p := customers[t.userId];
        if p.balance < t.amount {
          return false;
        }
        customers := customers[t.userId := p.(balance := p.balance - t.amount)];
        assert Snapshot() == spec.value;
        assert WellFormed(spec.value);
      } else {
        assert Snapshot() == spec.value;
        assert WellFormed(spec.value);
      }
      return true;
    }

    method ProcessTransaction(id: nat, newStatus: TxStatus) returns (out: Outcome<Transaction>)
      requires Valid()
      modifies this
      ensures Valid()
      ensures Snapshot() == Crud.ProcessTransaction(old(Snapshot()), id, newStatus).db
      ensures out == Crud.ProcessTransaction(old(Snapshot()), id, newStatus).out
    {
      ghost var spec := Crud.ProcessTransaction(Snapshot(), id, newStatus);
      assert WellFormed(spec.db);
      if id !in txs || txs[id].status != Pending {
        return NotFound;
      }
      var committed := txs;
      var t := txs[id].(status := newStatus);
      txs := txs[id := t];
      if newStatus == Approved {
        var covered := MoveWallet(t);
        if !covered {
          txs := committed;  // rollback undoes the status write
          assert Snapshot() == spec.db;
          return InsufficientFunds;
        }
      }
      assert Snapshot() == spec.db;
      return Done(t);
    }
  }
}
