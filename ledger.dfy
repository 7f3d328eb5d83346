/** The money held in the store: the sum of every agent and customer wallet,
    and how that sum responds to a single wallet being set or added. */
module Ledger {
  import opened Domain

  /** Some key of a non-empty map; the one `Sum` peels off first. */
  ghost function Pick(m: map<nat, real>): (k: nat)
    requires m != map[]
    ensures k in m
  {
    assert m.Keys != {};
    var k :| k in m; k
  }

  /** The total of the values of `m`. */
  ghost function Sum(m: map<nat, real>): real
    decreases |m|
  {
    if m == map[] then 0.0
    else
      var k := Pick(m);
      assert |m - {k}| < |m| by { assert (m - {k}).Keys == m.Keys - {k}; }
      m[k] + Sum(m - {k})
  }

  /** Any key, not only the one `Sum` picks, can be taken out of the total. */
  lemma {:induction false} SumRemove(m: map<nat, real>, j: nat)
    requires j in m
    ensures Sum(m) == m[j] + Sum(m - {j})
    decreases |m|
  {
    var k := Pick(m);
    if k != j {
      assert (m - {k}).Keys == m.Keys - {k};
      assert (m - {j}).Keys == m.Keys - {j};
      SumRemove(m - {k}, j);
      SumRemove(m - {j}, k);
      assert m - {k} - {j} == m - {j} - {k};
    }
  }

  /** Setting one existing entry changes the total by the difference. */
  lemma SumUpdate(m: map<nat, real>, k: nat, v: real)
    requires k in m
    ensures Sum(m[k := v]) == Sum(m) - m[k] + v
  {
    SumRemove(m, k);
    SumRemove(m[k := v], k);
    assert m[k := v] - {k} == m - {k};
  }

  /** Adding a new entry adds its value to the total. */
  lemma SumInsert(m: map<nat, real>, k: nat, v: real)
    requires k !in m
    ensures Sum(m[k := v]) == Sum(m) + v
  {
    SumRemove(m[k := v], k);
    assert m[k := v] - {k} == m;
  }

  /** A total of non-negative values is non-negative. */
  lemma {:induction false} SumNonNegative(m: map<nat, real>)
    requires forall k :: k in m ==> m[k] >= 0.0
    ensures Sum(m) >= 0.0
    decreases |m|
  {
    if m != map[] {
      var k := Pick(m);
      assert (m - {k}).Keys == m.Keys - {k};
      SumNonNegative(m - {k});
    }
  }

  /** Agent wallets by user id. */
  function AgentWallets(db: Db): map<nat, real> {
    map u | u in db.agents :: db.agents[u].balance
  }

  /** Customer wallets by user id. */
  function CustomerWallets(db: Db): map<nat, real> {
    map u | u in db.customers :: db.customers[u].balance
  }

  /** All money held in wallets. */
  ghost function TotalFunds(db: Db): real {
    Sum(AgentWallets(db)) + Sum(CustomerWallets(db))
  }

  /** Every wallet holds a non-negative balance. */
  ghost predicate WalletsNonNegative(db: Db) {
    AgentsNonNegative(db.agents) && CustomersNonNegative(db.customers)
  }

  ghost predicate AgentsNonNegative(agents: map<nat, AgentProfile>) {
    forall u :: u in agents ==> agents[u].balance >= 0.0
  }

  ghost predicate CustomersNonNegative(customers: map<nat, CustomerProfile>) {
    forall u :: u in customers ==> customers[u].balance >= 0.0
  }

  /** With no wallet below zero, the money held is not below zero either. */
  lemma TotalFundsNonNegative(db: Db)
    requires WalletsNonNegative(db)
    ensures TotalFunds(db) >= 0.0
  {
    SumNonNegative(AgentWallets(db));
    SumNonNegative(CustomerWallets(db));
  }
}
