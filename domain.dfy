/** Records of the ledger's store and the outcome shape shared by every operation.
    The store is a value here (`Db`): one map per table, keyed by primary key,
    and one id counter per table standing for the database's id sequence. */
module Domain {

  datatype Option<+T> = None | Some(value: T)

  /** The four roles of `UserRole`. */
  datatype Role = Admin | Staff | Agent | Customer

  /** A user's registration status: `pending_approval` or `active`. */
  datatype UserStatus = PendingApproval | Active

  /** A type string other than the two the workflow knows. */
  type UnlistedName = s: string | s != "agent_deposit" && s != "customer_withdraw" witness ""

  /** A transaction's type. The request schema takes any string, so every
      string other than `agent_deposit` and `customer_withdraw` is kept as
      `Unlisted`; each string has exactly one encoding. */
  datatype TxType = AgentDeposit | CustomerWithdraw | Unlisted(name: UnlistedName)

  /** `pending`, `approved` or `rejected`. */
  datatype TxStatus = Pending | Approved | Rejected

  /** `in_stock` or `sold`. */
  datatype BillStatus = InStock | Sold

  datatype User = User(
    id: nat,
    phone: string,
    passwordHash: string,
    fullName: string,
    role: Role,
    status: UserStatus)

  /** Keyed by the user it extends; the wallet starts at 0. */
  datatype AgentProfile = AgentProfile(userId: nat, agentName: string, balance: real)

  datatype CustomerProfile = CustomerProfile(userId: nat, balance: real)

  datatype CreditCard = CreditCard(id: nat, suffix: string, bankName: string, customerId: nat)

  datatype Bill = Bill(
    id: nat,
    customerCode: string,
    totalAmount: real,
    status: BillStatus,
    importerId: nat,
    buyerId: Option<nat>)

  datatype Transaction = Transaction(
    id: nat,
    userId: nat,
    amount: real,
    txType: TxType,
    status: TxStatus)

  /** The committed contents of the store. */
  datatype Db = Db(
    users: map<nat, User>,
    agents: map<nat, AgentProfile>,
    customers: map<nat, CustomerProfile>,
    cards: map<nat, CreditCard>,
    bills: map<nat, Bill>,
    txs: map<nat, Transaction>,
    nextUser: nat,
    nextCard: nat,
    nextBill: nat,
    nextTx: nat)

  /** What an operation reports back to its caller. */
  datatype Outcome<+T> =
    | Done(value: T)       // the committed (refreshed) record
    | NotFound             // the operation returned None: absent, or not in the required state
    | InsufficientFunds    // the withdrawal was rolled back: "insufficient_funds"
    | Conflict             // the commit broke a unique or primary key, so nothing was stored
    | Refused              // the request was turned away before reaching the store

  /** An operation's new store together with its outcome. */
  datatype Step<+T> = Step(db: Db, out: Outcome<T>)

  /** An empty store whose id sequences start at 1. */
  function EmptyDb(): Db {
    Db(map[], map[], map[], map[], map[], map[], 1, 1, 1, 1)
  }

  /** Every user sits under its own id, drawn from the id sequence, and no
      two users share a phone number (the phone column is unique). */
  ghost predicate UsersKeyed(users: map<nat, User>, next: nat) {
    && (forall k :: k in users ==> users[k].id == k && k < next)
    && (forall a, b :: a in users && b in users && users[a].phone == users[b].phone ==> a == b)
  }

  /** Profiles are keyed by the id of an existing user. */
  ghost predicate AgentsKeyed(agents: map<nat, AgentProfile>, users: map<nat, User>) {
    forall k :: k in agents ==> agents[k].userId == k && k in users
  }

  ghost predicate CustomersKeyed(customers: map<nat, CustomerProfile>, users: map<nat, User>) {
    forall k :: k in customers ==> customers[k].userId == k && k in users
  }

  ghost predicate CardsKeyed(cards: map<nat, CreditCard>, next: nat) {
    forall k :: k in cards ==> cards[k].id == k && k < next
  }

  ghost predicate BillsKeyed(bills: map<nat, Bill>, next: nat) {
    forall k :: k in bills ==> bills[k].id == k && k < next
  }

  ghost predicate TxsKeyed(txs: map<nat, Transaction>, next: nat) {
    forall k :: k in txs ==> txs[k].id == k && k < next
  }

  /** The constraints the database keeps: every row sits under its own key,
      every key was drawn from its sequence, profiles belong to existing
      users, and no two users share a phone number. */
  ghost predicate WellFormed(db: Db) {
    && UsersKeyed(db.users, db.nextUser)
    && AgentsKeyed(db.agents, db.users)
    && CustomersKeyed(db.customers, db.users)
    && CardsKeyed(db.cards, db.nextCard)
    && BillsKeyed(db.bills, db.nextBill)
    && TxsKeyed(db.txs, db.nextTx)
  }

  /** Changing a user's status keeps the store's constraints. */
  lemma RestatusKeepsWellFormed(db: Db, userId: nat, status: UserStatus)
    requires WellFormed(db) && userId in db.users
    ensures WellFormed(db.(users := db.users[userId := db.users[userId].(status := status)]))
  {
    var users := db.users[userId := db.users[userId].(status := status)];
    assert users.Keys == db.users.Keys;
    assert forall k :: k in users ==> users[k].phone == db.users[k].phone;
  }
}
