/** The transaction request endpoint: which transaction types a requester's
    role may ask for, in front of the store's transaction creation. */
module Requests {
  import opened Domain
  import Crud
  import Session

  /** An agent may only ask for a deposit and a customer only for a
      withdrawal; other roles are not checked. */
  predicate Admits(role: Role, txType: TxType) {
    && !(role == Agent && txType != AgentDeposit)
    && !(role == Customer && txType != CustomerWithdraw)
  }

  /** A request by `requester`: refused before the store is touched when the
      role does not admit the type, otherwise one new pending transaction
      owned by the requester, with the amount and type as asked. */
  function Request(db: Db, requester: User, amount: real, txType: TxType): (r: Step<Transaction>)
    ensures r.out.Done? || r.out.Refused?
    ensures r.out.Refused? <==>
      || (requester.role == Agent && txType != AgentDeposit)
      || (requester.role == Customer && txType != CustomerWithdraw)
    ensures r.out.Refused? ==> r.db == db
    ensures r.out.Done? ==>
      var t := r.out.value;
      && t.userId == requester.id && t.amount == amount && t.txType == txType && t.status == Pending
      && r.db.txs == db.txs[t.id := t]
      && r.db.(txs := db.txs, nextTx := db.nextTx) == db
    ensures WellFormed(db) && r.out.Done? ==> r.out.value.id !in db.txs && |r.db.txs| == |db.txs| + 1
    ensures WellFormed(db) ==> WellFormed(r.db)
  {
    if !Admits(requester.role, txType) then Step(db, Refused)
    else Crud.CreateTransaction(db, requester.id, amount, txType)
  }

  /** Administrators and staff may create a transaction of any type. */
  lemma OtherRolesUnchecked(db: Db, requester: User, amount: real, txType: TxType)
    requires requester.role == Admin || requester.role == Staff
    ensures Request(db, requester, amount, txType).out.Done?
  {
  }

  /** The endpoint run against the store. */
  method RequestTransaction(store: Session.Store, requester: User, amount: real, txType: TxType)
      returns (out: Outcome<Transaction>)
    requires store.Valid()
    modifies store
    ensures store.Valid()
    ensures store.Snapshot() == Request(old(store.Snapshot()), requester, amount, txType).db
    ensures out == Request(old(store.Snapshot()), requester, amount, txType).out
  {
    if !Admits(requester.role, txType) {
      return Refused;
    }
    out := store.CreateTransaction(requester.id, amount, txType);
  }
}
