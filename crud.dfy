/** The store operations of the ledger, one function per operation, each
    giving the committed store and what the operation returns. A failed
    operation hands back the store it was given: whatever it had written is
    rolled back. */
module Crud {
  import opened Domain

  /** Name given to an agent's profile at approval. */
  const AgentNamePrefix: string := "Đại lý "

  // ---------------------------------------------------------------- users

  /** Some user already holds `phone`. */
  predicate PhoneTaken(db: Db, phone: string) {
    exists k :: k in db.users && db.users[k].phone == phone
  }

  /** Registers a user. The phone column is unique, so a phone already held
      makes the commit fail and nothing is stored. */
  function CreateUser(db: Db, phone: string, passwordHash: string, fullName: string, role: Role): (r: Step<User>)
    ensures r.out.Done? || r.out.Conflict?
    ensures r.out.Conflict? <==> PhoneTaken(db, phone)
    ensures r.out.Conflict? ==> r.db == db
    ensures r.out.Done? ==>
      var u := r.out.value;
      && u.phone == phone && u.passwordHash == passwordHash && u.fullName == fullName
      && u.role == role && u.status == PendingApproval
      && r.db.users == db.users[u.id := u]
      && r.db.(users := db.users, nextUser := db.nextUser) == db
    ensures WellFormed(db) ==> WellFormed(r.db)
    ensures WellFormed(db) && r.out.Done? ==> r.out.value.id !in db.users
  {
    if PhoneTaken(db, phone) then Step(db, Conflict)
    else
      var u := User(db.nextUser, phone, passwordHash, fullName, role, PendingApproval);
      Step(db.(users := db.users[u.id := u], nextUser := db.nextUser + 1), Done(u))
  }

  /** A profile of the kind that approving with `role` would create is
      already stored for `userId`. */
  predicate ProfileTaken(db: Db, userId: nat, role: Role) {
    || (role == Agent && userId in db.agents)
    || (role == Customer && userId in db.customers)
  }

  /** Activates a user and creates the profile that `role` (the argument, not
      the user's own role) names. No guard on the user's current status.
      Profiles are keyed by user id, so a second profile of the same kind
      cannot be committed. */
  function ApproveUser(db: Db, userId: nat, role: Role): (r: Step<User>)
    ensures r.out.Done? || r.out.NotFound? || r.out.Conflict?
    ensures r.out.NotFound? <==> userId !in db.users
    ensures r.out.Conflict? <==> userId in db.users && ProfileTaken(db, userId, role)
    ensures !r.out.Done? ==> r.db == db
    ensures r.out.Done? ==>
      && userId in db.users
      && r.out.value == db.users[userId].(status := Active)
      && r.db.users == db.users[userId := r.out.value]
      && r.db.(users := db.users, agents := db.agents, customers := db.customers) == db
    ensures r.out.Done? && role == Agent ==>
      && r.db.agents == db.agents[userId := AgentProfile(userId, AgentNamePrefix + db.users[userId].fullName, 0.0)]
      && r.db.customers == db.customers
    ensures r.out.Done? && role == Customer ==>
      && r.db.customers == db.customers[userId := CustomerProfile(userId, 0.0)]
      && r.db.agents == db.agents
    ensures r.out.Done? && role != Agent && role != Customer ==>
      r.db.agents == db.agents && r.db.customers == db.customers
    ensures WellFormed(db) ==> WellFormed(r.db)
  {
    if userId !in db.users then Step(db, NotFound)
    else if ProfileTaken(db, userId, role) then Step(db, Conflict)
    else
      var u := db.users[userId].(status := Active);
      var db1 := db.(users := db.users[userId := u]);
      assert WellFormed(db) ==> WellFormed(db1) by {
        if WellFormed(db) { RestatusKeepsWellFormed(db, userId, Active); }
      }
      if role == Agent then
        Step(db1.(agents := db.agents[userId := AgentProfile(userId, AgentNamePrefix + u.fullName, 0.0)]), Done(u))
      else if role == Customer then
        Step(db1.(customers := db.customers[userId := CustomerProfile(userId, 0.0)]), Done(u))
      else
        Step(db1, Done(u))
  }

  /** The users with the given status and role. */
  function UsersByStatusAndRole(db: Db, status: UserStatus, role: Role): (r: map<nat, User>)
    ensures forall k :: k in r <==> k in db.users && db.users[k].status == status && db.users[k].role == role
    ensures forall k :: k in r ==> r[k] == db.users[k]
  {
    map k | k in db.users && db.users[k].status == status && db.users[k].role == role :: db.users[k]
  }

  // ---------------------------------------------------------------- cards

  /** Adds a card for a customer. */
  function CreateCustomerCard(db: Db, suffix: string, bankName: string, customerId: nat): (r: Step<CreditCard>)
    ensures r.out.Done?
    ensures r.out.value.suffix == suffix && r.out.value.bankName == bankName && r.out.value.customerId == customerId
    ensures r.db.cards == db.cards[r.out.value.id := r.out.value]
    ensures r.db.(cards := db.cards, nextCard := db.nextCard) == db
    ensures WellFormed(db) ==> WellFormed(r.db) && r.out.value.id !in db.cards
  {
    var c := CreditCard(db.nextCard, suffix, bankName, customerId);
    Step(db.(cards := db.cards[c.id := c], nextCard := db.nextCard + 1), Done(c))
  }

  /** The cards of one customer. */
  function CustomerCards(db: Db, customerId: nat): (r: map<nat, CreditCard>)
    ensures forall k :: k in r <==> k in db.cards && db.cards[k].customerId == customerId
    ensures forall k :: k in r ==> r[k] == db.cards[k]
  {
    map k | k in db.cards && db.cards[k].customerId == customerId :: db.cards[k]
  }

  // ---------------------------------------------------------------- bills

  /** Puts a bill into stock, recording who imported it. */
  function ImportBill(db: Db, customerCode: string, totalAmount: real, importerId: nat): (r: Step<Bill>)
    ensures r.out.Done?
    ensures
      var b := r.out.value;
      && b.customerCode == customerCode && b.totalAmount == totalAmount && b.importerId == importerId
      && b.status == InStock && b.buyerId == None
    ensures r.db.bills == db.bills[r.out.value.id := r.out.value]
    ensures r.db.(bills := db.bills, nextBill := db.nextBill) == db
    ensures WellFormed(db) ==> WellFormed(r.db) && r.out.value.id !in db.bills
  {
    var b := Bill(db.nextBill, customerCode, totalAmount, InStock, importerId, None);
    Step(db.(bills := db.bills[b.id := b], nextBill := db.nextBill + 1), Done(b))
  }

  /** The bills in the given status. */
  function BillsByStatus(db: Db, status: BillStatus): (r: map<nat, Bill>)
    ensures forall k :: k in r <==> k in db.bills && db.bills[k].status == status
    ensures forall k :: k in r ==> r[k] == db.bills[k]
  {
    map k | k in db.bills && db.bills[k].status == status :: db.bills[k]
  }

  /** Sells an in-stock bill to `buyerId`; an absent or already sold bill is
      reported as not found and nothing changes. */
  function ExportBill(db: Db, billId: nat, buyerId: nat): (r: Step<Bill>)
    ensures r.out.Done? || r.out.NotFound?
    ensures r.out.Done? <==> billId in db.bills && db.bills[billId].status == InStock
    ensures r.out.NotFound? ==> r.db == db
    ensures r.out.Done? ==>
      && r.out.value == db.bills[billId].(status := Sold, buyerId := Some(buyerId))
      && r.db.bills == db.bills[billId := r.out.value]
      && r.db.(bills := db.bills) == db
    ensures WellFormed(db) ==> WellFormed(r.db)
  {
    if billId !in db.bills || db.bills[billId].status != InStock then Step(db, NotFound)
    else
      var b := db.bills[billId].(status := Sold, buyerId := Some(buyerId));
      Step(db.(bills := db.bills[billId := b]), Done(b))
  }

  // --------------------------------------------------------- transactions

  /** Records a pending transaction for `userId`, with the amount and type as
      given: neither is checked here. */
  function CreateTransaction(db: Db, userId: nat, amount: real, txType: TxType): (r: Step<Transaction>)
    ensures r.out.Done?
    ensures
      var t := r.out.value;
      t.userId == userId && t.amount == amount && t.txType == txType && t.status == Pending
    ensures r.db.txs == db.txs[r.out.value.id := r.out.value]
    ensures r.db.(txs := db.txs, nextTx := db.nextTx) == db
    ensures WellFormed(db) ==> WellFormed(r.db) && r.out.value.id !in db.txs
  {
    var t := Transaction(db.nextTx, userId, amount, txType, Pending);
    Step(db.(txs := db.txs[t.id := t], nextTx := db.nextTx + 1), Done(t))
  }

  /** The transactions in the given status. */
  function TransactionsByStatus(db: Db, status: TxStatus): (r: map<nat, Transaction>)
    ensures forall k :: k in r <==> k in db.txs && db.txs[k].status == status
    ensures forall k :: k in r ==> r[k] == db.txs[k]
  {
    map k | k in db.txs && db.txs[k].status == status :: db.txs[k]
  }

  /** Transaction `id` exists and is still pending. */
  predicate IsPending(db: Db, id: nat) {
    id in db.txs && db.txs[id].status == Pending
  }

  /** Approving `t` would debit a customer wallet that holds less than the
      amount. */
  predicate Shortfall(db: Db, t: Transaction) {
    t.txType == CustomerWithdraw && t.userId in db.customers && db.customers[t.userId].balance < t.amount
  }

  /** The wallets after approving `t`: a deposit credits the owner's agent
      wallet and a withdrawal debits the owner's customer wallet, by the
      amount; None when that customer wallet holds less than the amount.
      When the owner has no wallet of the kind the type names, nothing
      moves. */
  function MoveWallet(db: Db, t: Transaction): (r: Option<Db>)
    ensures r.None? <==> Shortfall(db, t)
    ensures r.Some? ==> r.value.(agents := db.agents, customers := db.customers) == db
    ensures r.Some? ==> r.value.agents.Keys == db.agents.Keys && r.value.customers.Keys == db.customers.Keys
    ensures t.txType == AgentDeposit && t.userId in db.agents ==>
      && r.Some?
      && r.value.agents == db.agents[t.userId := db.agents[t.userId].(balance := db.agents[t.userId].balance + t.amount)]
      && r.value.customers == db.customers
    ensures r.Some? && t.txType == CustomerWithdraw && t.userId in db.customers ==>
      && r.value.customers == db.customers[t.userId := db.customers[t.userId].(balance := db.customers[t.userId].balance - t.amount)]
      && r.value.agents == db.agents
    // no wallet of the kind the type names (or a type the workflow does not know): nothing moves
    ensures !(t.txType == AgentDeposit && t.userId in db.agents) && !(t.txType == CustomerWithdraw && t.userId in db.customers) ==>
      r == Some(db)
    ensures r.Some? && WellFormed(db) ==> WellFormed(r.value)
  {
    if t.txType == AgentDeposit && t.userId in db.agents then
      var p := db.agents[t.userId];
      Some(db.(agents := db.agents[t.userId := p.(balance := p.balance + t.amount)]))
    else if t.txType == CustomerWithdraw && t.userId in db.customers then
      var p := db.customers[t.userId];
      if p.balance >= t.amount then
        Some(db.(customers := db.customers[t.userId := p.(balance := p.balance - t.amount)]))
      else
        None
    else
      Some(db)
  }

  /** Settles a pending transaction with `newStatus`. Approving moves the
      owner's wallet as `MoveWallet` says, and a wallet that cannot cover a
      withdrawal rolls the whole step back, the status write included. */
  function ProcessTransaction(db: Db, id: nat, newStatus: TxStatus): (r: Step<Transaction>)
    ensures r.out.Done? || r.out.NotFound? || r.out.InsufficientFunds?
    ensures r.out.NotFound? <==> !IsPending(db, id)
    ensures r.out.InsufficientFunds? <==> IsPending(db, id) && newStatus == Approved && Shortfall(db, db.txs[id])
    ensures !r.out.Done? ==> r.db == db
    ensures r.out.Done? ==>
      && id in db.txs
      && r.out.value == db.txs[id].(status := newStatus)
      && r.db.txs == db.txs[id := r.out.value]
    // only wallets and the one transaction can change, and no profile appears or vanishes
    ensures r.db.(txs := db.txs, agents := db.agents, customers := db.customers) == db
    ensures r.db.agents.Keys == db.agents.Keys && r.db.customers.Keys == db.customers.Keys
    ensures WellFormed(db) ==> WellFormed(r.db)
  {
    if !IsPending(db, id) then Step(db, NotFound)
    else
      var t := db.txs[id].(status := newStatus);
      var db1 := db.(txs := db.txs[id := t]);
      if newStatus != Approved then Step(db1, Done(t))
      else
        match MoveWallet(db1, t)
        case None => Step(db, InsufficientFunds)
        case Some(db2) => Step(db2, Done(t))
  }
}
