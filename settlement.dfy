/** What one store operation, or two in a row, promises: the settlement
    cases of a transaction, the one-shot sale of a bill, and user approval. */
module Settlement {
  import opened Domain
  import opened Crud
  import opened Ledger

  // ------------------------------------------------ transaction settlement

  /** A settled transaction cannot be approved or rejected again. */
  lemma SecondDecisionFails(db: Db, id: nat, first: TxStatus, second: TxStatus)
    requires first != Pending
    requires ProcessTransaction(db, id, first).out.Done?
    ensures
      var db1 := ProcessTransaction(db, id, first).db;
      ProcessTransaction(db1, id, second) == Step(db1, NotFound)
  {
  }

  /** A wallet moves only for the owner of an approved deposit (agent
      wallet) or withdrawal (customer wallet). */
  lemma OnlyOwnerWalletMoves(db: Db, id: nat, newStatus: TxStatus, u: nat)
    ensures
      var r := ProcessTransaction(db, id, newStatus);
      && (u in db.agents && r.db.agents[u] != db.agents[u] ==>
            r.out.Done? && newStatus == Approved && db.txs[id].txType == AgentDeposit && u == db.txs[id].userId)
      && (u in db.customers && r.db.customers[u] != db.customers[u] ==>
            r.out.Done? && newStatus == Approved && db.txs[id].txType == CustomerWithdraw && u == db.txs[id].userId)
  {
  }

  /** Approving a pending deposit whose agent wallet exists credits exactly
      that wallet by the amount. */
  lemma ApprovedDepositCredits(db: Db, id: nat)
    requires IsPending(db, id)
    requires db.txs[id].txType == AgentDeposit && db.txs[id].userId in db.agents
    ensures
      var r := ProcessTransaction(db, id, Approved);
      var t := db.txs[id];
      && r.out.Done? && r.out.value.status == Approved
      && r.db.agents[t.userId].balance == db.agents[t.userId].balance + t.amount
      && (forall v :: v in db.agents && v != t.userId ==> r.db.agents[v] == db.agents[v])
      && r.db.customers == db.customers
      && TotalFunds(r.db) == TotalFunds(db) + t.amount
  {
    var r := ProcessTransaction(db, id, Approved);
    var t := db.txs[id];
    assert AgentWallets(r.db) == AgentWallets(db)[t.userId := db.agents[t.userId].balance + t.amount];
    SumUpdate(AgentWallets(db), t.userId, db.agents[t.userId].balance + t.amount);
  }

  /** Approving a pending withdrawal that the customer wallet covers debits
      exactly that wallet by the amount, leaving it non-negative. */
  lemma ApprovedWithdrawalDebits(db: Db, id: nat)
    requires IsPending(db, id)
    requires db.txs[id].txType == CustomerWithdraw && db.txs[id].userId in db.customers
    requires db.customers[db.txs[id].userId].balance >= db.txs[id].amount
    ensures
      var r := ProcessTransaction(db, id, Approved);
      var t := db.txs[id];
      && r.out.Done? && r.out.value.status == Approved
      && r.db.customers[t.userId].balance == db.customers[t.userId].balance - t.amount
      && r.db.customers[t.userId].balance >= 0.0
      && (forall v :: v in db.customers && v != t.userId ==> r.db.customers[v] == db.customers[v])
      && r.db.agents == db.agents
      && TotalFunds(r.db) == TotalFunds(db) - t.amount
  {
    var r := ProcessTransaction(db, id, Approved);
    var t := db.txs[id];
    assert CustomerWallets(r.db) == CustomerWallets(db)[t.userId := db.customers[t.userId].balance - t.amount];
    SumUpdate(CustomerWallets(db), t.userId, db.customers[t.userId].balance - t.amount);
  }

  /** A withdrawal the wallet cannot cover is rolled back whole: the
      transaction stays pending and no wallet moves. */
  lemma ShortfallRollsBack(db: Db, id: nat)
    requires IsPending(db, id) && Shortfall(db, db.txs[id])
    ensures
      var r := ProcessTransaction(db, id, Approved);
      && r == Step(db, InsufficientFunds)
      && id in TransactionsByStatus(r.db, Pending)
  {
  }

  /** With no wallet of the kind the type names, approval still commits and
      no money moves. */
  lemma MissingProfileStillApproves(db: Db, id: nat)
    requires IsPending(db, id)
    requires !(db.txs[id].txType == AgentDeposit && db.txs[id].userId in db.agents)
    requires !(db.txs[id].txType == CustomerWithdraw && db.txs[id].userId in db.customers)
    ensures
      var r := ProcessTransaction(db, id, Approved);
      && r.out.Done? && r.out.value.status == Approved
      && r.db.agents == db.agents && r.db.customers == db.customers
      && TotalFunds(r.db) == TotalFunds(db)
  {
  }

  /** Rejecting a pending transaction settles it without touching a wallet. */
  lemma RejectionTouchesNoWallet(db: Db, id: nat)
    requires IsPending(db, id)
    ensures
      var r := ProcessTransaction(db, id, Rejected);
      && r.out.Done? && r.out.value.status == Rejected
      && r.db.agents == db.agents && r.db.customers == db.customers
      && TotalFunds(r.db) == TotalFunds(db)
  {
  }

  /** A settled transaction leaves the pending list for the list of its new
      status. */
  lemma SettledLeavesPendingList(db: Db, id: nat, s: TxStatus)
    requires s != Pending
    requires ProcessTransaction(db, id, s).out.Done?
    ensures
      var r := ProcessTransaction(db, id, s);
      id !in TransactionsByStatus(r.db, Pending) && id in TransactionsByStatus(r.db, s)
  {
  }

  /** Customer wallet 100, withdrawal of 150: refused, nothing moves. */
  lemma ScenarioOverdraftRefused()
    ensures
      var db := EmptyDb().(
        users := map[1 := User(1, "0900000001", "h", "C", Customer, Active)],
        customers := map[1 := CustomerProfile(1, 100.0)],
        txs := map[1 := Transaction(1, 1, 150.0, CustomerWithdraw, Pending)],
        nextUser := 2, nextTx := 2);
      var r := ProcessTransaction(db, 1, Approved);
      && WellFormed(db)
      && r.out == InsufficientFunds
      && r.db.customers[1].balance == 100.0
      && r.db.txs[1].status == Pending
  {
  }

  /** Agent wallet 0, deposit of 500: approved, wallet 500. */
  lemma ScenarioDepositCredited()
    ensures
      var db := EmptyDb().(
        users := map[1 := User(1, "0900000001", "h", "A", Agent, Active)],
        agents := map[1 := AgentProfile(1, "A", 0.0)],
        txs := map[1 := Transaction(1, 1, 500.0, AgentDeposit, Pending)],
        nextUser := 2, nextTx := 2);
      var r := ProcessTransaction(db, 1, Approved);
      && WellFormed(db)
      && r.out.Done?
      && r.db.agents[1].balance == 500.0
      && r.db.txs[1].status == Approved
  {
  }

  /** Nothing rejects a negative amount, so approving a negative deposit
      lowers the agent's wallet, here below zero. */
  lemma NegativeDepositDrainsWallet()
    ensures
      var db := EmptyDb().(
        users := map[1 := User(1, "0900000001", "h", "A", Agent, Active)],
        agents := map[1 := AgentProfile(1, "A", 10.0)],
        txs := map[1 := Transaction(1, 1, -25.0, AgentDeposit, Pending)],
        nextUser := 2, nextTx := 2);
      var r := ProcessTransaction(db, 1, Approved);
      && WellFormed(db)
      && r.out.Done?
      && r.db.agents[1].balance == -15.0
  {
  }

  // ----------------------------------------------------------- bill sale

  /** A bill is sold at most once: a later export fails and the first buyer
      and status stay. */
  lemma SecondExportFails(db: Db, billId: nat, buyer: nat, otherBuyer: nat)
    requires ExportBill(db, billId, buyer).out.Done?
    ensures
      var db1 := ExportBill(db, billId, buyer).db;
      && ExportBill(db1, billId, otherBuyer) == Step(db1, NotFound)
      && db1.bills[billId].status == Sold
      && db1.bills[billId].buyerId == Some(buyer)
  {
  }

  /** A sold bill leaves the warehouse list. */
  lemma ExportLeavesWarehouse(db: Db, billId: nat, buyer: nat)
    requires ExportBill(db, billId, buyer).out.Done?
    ensures
      var r := ExportBill(db, billId, buyer);
      billId !in BillsByStatus(r.db, InStock) && billId in BillsByStatus(r.db, Sold)
  {
  }

  /** An imported bill is listed in the warehouse. */
  lemma ImportedBillInWarehouse(db: Db, customerCode: string, totalAmount: real, importerId: nat)
    requires WellFormed(db)
    ensures
      var r := ImportBill(db, customerCode, totalAmount, importerId);
      BillsByStatus(r.db, InStock) == BillsByStatus(db, InStock)[r.out.value.id := r.out.value]
  {
  }

  // -------------------------------------------------------- registration

  /** A new registration waits in the pending list of its role. */
  lemma RegisteredUserAwaitsApproval(db: Db, phone: string, passwordHash: string, fullName: string, role: Role)
    requires !PhoneTaken(db, phone)
    ensures
      var r := CreateUser(db, phone, passwordHash, fullName, role);
      r.out.value.id in UsersByStatusAndRole(r.db, PendingApproval, role)
  {
  }

  /** Registering the same phone twice stores one user. */
  lemma DuplicatePhoneRefused(db: Db, phone: string, hash1: string, hash2: string, name1: string, name2: string, role1: Role, role2: Role)
    requires WellFormed(db)
    requires CreateUser(db, phone, hash1, name1, role1).out.Done?
    ensures
      var db1 := CreateUser(db, phone, hash1, name1, role1).db;
      && CreateUser(db1, phone, hash2, name2, role2) == Step(db1, Conflict)
      && |db1.users| == |db.users| + 1
  {
    var r := CreateUser(db, phone, hash1, name1, role1);
    assert r.out.value.id in r.db.users;
  }

  /** Approval does not look at the user's status: an already active user
      is approved again as long as the profile it would add is free. */
  lemma ApprovalIgnoresStatus(db: Db, userId: nat, role: Role)
    requires userId in db.users && db.users[userId].status == Active
    requires !ProfileTaken(db, userId, role)
    ensures ApproveUser(db, userId, role).out == Done(db.users[userId])
  {
  }

  /** Approval adds exactly one profile for the agent and customer roles and
      none for the others. */
  lemma ApprovalAddsOneProfile(db: Db, userId: nat, role: Role)
    requires ApproveUser(db, userId, role).out.Done?
    ensures
      var r := ApproveUser(db, userId, role);
      |r.db.agents| + |r.db.customers| == |db.agents| + |db.customers| + (if role == Agent || role == Customer then 1 else 0)
  {
  }

  /** Approving the same user twice with the same profile role cannot
      commit a second profile. */
  lemma ReapprovalConflicts(db: Db, userId: nat, role: Role)
    requires role == Agent || role == Customer
    requires ApproveUser(db, userId, role).out.Done?
    ensures
      var db1 := ApproveUser(db, userId, role).db;
      ApproveUser(db1, userId, role) == Step(db1, Conflict)
  {
  }

  /** An approved user leaves every pending list and is listed as active
      under its own role. */
  lemma ApprovedUserLeavesPendingList(db: Db, userId: nat, role: Role, anyRole: Role)
    requires ApproveUser(db, userId, role).out.Done?
    ensures
      var r := ApproveUser(db, userId, role);
      && userId !in UsersByStatusAndRole(r.db, PendingApproval, anyRole)
      && userId in UsersByStatusAndRole(r.db, Active, db.users[userId].role)
  {
  }

  /** A new profile opens with an empty wallet, so approval moves no money. */
  lemma ApprovalKeepsFunds(db: Db, userId: nat, role: Role)
    ensures TotalFunds(ApproveUser(db, userId, role).db) == TotalFunds(db)
  {
    var r := ApproveUser(db, userId, role);
    if r.out.Done? && role == Agent {
      assert AgentWallets(r.db) == AgentWallets(db)[userId := 0.0];
      SumInsert(AgentWallets(db), userId, 0.0);
    } else if r.out.Done? && role == Customer {
      assert CustomerWallets(r.db) == CustomerWallets(db)[userId := 0.0];
      SumInsert(CustomerWallets(db), userId, 0.0);
    }
  }

  // --------------------------------------------------------------- cards

  /** A new card is listed under its customer, and only there. */
  lemma CardListedForCustomer(db: Db, suffix: string, bankName: string, customerId: nat, other: nat)
    requires WellFormed(db)
    requires other != customerId
    ensures
      var r := CreateCustomerCard(db, suffix, bankName, customerId);
      && CustomerCards(r.db, customerId) == CustomerCards(db, customerId)[r.out.value.id := r.out.value]
      && CustomerCards(r.db, other) == CustomerCards(db, other)
  {
  }
}
