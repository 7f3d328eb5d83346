# 7ty ledger core in Dafny

This project models the bookkeeping core of the 7ty.vn backend. That backend is a small ledger for trading prepaid electricity bills:

- agents ask to deposit money into their wallet, and customers ask to withdraw from theirs;
- an administrator approves or rejects those requests, and approves registrations;
- bills are imported into a warehouse and exported to a buyer.

The model covers the store operations of `app/crud.py` and the role/type admission rule of the transaction request endpoint in `app/routers/transactions.py`. It has three one-shot state machines, each guarded by the state it needs first:

- a transaction goes `pending → approved | rejected`, and approval moves a wallet;
- a bill goes `in_stock → sold`, and the sale records the buyer;
- approving a user sets it `active` and attaches an agent or customer profile.

Layout:

- `domain.dfy` (module `Domain`): the records, the store as a value `Db` (one map per table, keyed by primary key, plus one id sequence per table), the outcome shape `Outcome` and the table constraints `WellFormed`. The outcome shape mirrors what the routers do with each result: `None` becomes `NotFound`, `"insufficient_funds"` becomes `InsufficientFunds`, a broken key constraint becomes `Conflict`, and a request the router turns away becomes `Refused`.
- `crud.dfy` (module `Crud`): one function per store operation. Each returns the committed store and what the operation returns. A failed operation returns the store it was given, which is how commit versus rollback is modelled.
- `session.dfy` (module `Session`): class `Store`. It holds the tables as fields and its methods update them in place, the way the crud code does: write the status, move the wallet, and on a shortfall restore what was written. Each method is proved to end in the committed state and outcome given by its `Crud` function, and to keep `WellFormed`.
- `requests.dfy` (module `Requests`): the admission predicate, the request as a function over the store, and the endpoint run against a `Store`.
- `ledger.dfy` (module `Ledger`): the money held in all wallets (`TotalFunds`) and how that sum moves when one wallet is set or added.
- `settlement.dfy` (module `Settlement`): lemmas about one operation or two in a row.
- `runs.dfy` (module `Runs`): any sequence of store commands. These lemmas show that the store stays well formed, that a settled transaction or a sold bill is never written again (so each is applied at most once), and that wallets stay non-negative while no negative amount is recorded.

Amounts and balances are exact `real`s. Status, role and type strings are closed datatypes. A transaction type is `AgentDeposit`, `CustomerWithdraw` or `Unlisted(name)`, because the request schema accepts any string as a type. The name of an `Unlisted` type can be neither `agent_deposit` nor `customer_withdraw`, so each type string has exactly one encoding. Password hashing lives in a module that is not part of this model, so `CreateUser` takes the hash as a parameter.

## Where the code differs from the intended design

The model follows the code in each of these cases.

- **Missing wallet.** When approving a transaction finds no profile of the kind its type names, the code still commits `approved` and moves no money (app/crud.py:91-97, 107). The design calls this a `ProfileNotFound` error. See `Settlement.MissingProfileStillApproves`. An `Unlisted` type behaves the same way.
- **No approval guard.** `approve_user` does not check that the user is `pending_approval`. It creates the profile named by its `role` argument, not by the user's own role (app/crud.py:24-35). See `Settlement.ApprovalIgnoresStatus`. The design fears that a second approval creates a duplicate profile. That cannot happen, because both profile tables use `user_id` as their primary key (app/models.py:27, 34). A second profile of the same kind cannot be committed: the commit raises and nothing is stored. The model reports this as `Conflict` (`Settlement.ReapprovalConflicts`).
- **Other roles unchecked.** The request rule checks only agents and customers. Administrators and staff may request any type (app/routers/transactions.py:16-21). The design says they may not create transactions at all. See `Requests.OtherRolesUnchecked`.
- **Amounts unchecked.** Nothing checks that an amount is positive. Approving a negative deposit lowers a wallet, even below zero (`Settlement.NegativeDepositDrainsWallet`). Non-negativity of wallets therefore holds only while every recorded amount is non-negative (`Runs.RunKeepsSolvent`).
- **Status fields.** The `User` table in app/models.py:13-20 has `is_active`, not the `status` field that the crud code reads and writes. The model has `status`, as the crud code uses it. The bill, transaction and card tables are not part of app/models.py. Their initial statuses are taken from the design and from the routers' queries: a user starts `pending_approval`, a bill `in_stock`, a transaction `pending`.
- **Duplicate phone.** `create_user` itself does not check for a duplicate phone. The phone column is unique (app/models.py:16), so a duplicate cannot be committed. The registration route also checks first (app/routers/auth.py:16-19). `Crud.CreateUser` reports a taken phone as `Conflict` and stores nothing.

## Model

| member | source | states |
|---|---|---|
| Crud.CreateUser | app/crud.py:8-19 | a phone already held is refused with no change (unique phone column); otherwise exactly one new `pending_approval` user with the given phone, hash, name and role, under a fresh id, nothing else changed; keeps the table constraints |
| Crud.UsersByStatusAndRole | app/crud.py:21-22 | exactly the users with that status and that role |
| Crud.ApproveUser | app/crud.py:24-39 | unknown id: not found, no change; otherwise status `active` plus one profile chosen by the role argument (agent named "Đại lý " + full name, or customer, both with a zero wallet; none for other roles), with no guard on the prior status; a profile of that kind already present makes the commit fail with no change |
| Crud.CreateCustomerCard | app/crud.py:42-47 | one new card with the given suffix, bank and customer under a fresh id, nothing else changed |
| Crud.CustomerCards | app/crud.py:49-50 | exactly the cards of that customer |
| Crud.ImportBill | app/crud.py:53-58 | one new `in_stock` bill with no buyer, the given code, amount and importer, under a fresh id, nothing else changed |
| Crud.BillsByStatus | app/crud.py:60-61 | exactly the bills in that status |
| Crud.ExportBill | app/crud.py:63-71 | succeeds iff the bill exists and is `in_stock`; then only that bill changes, to `sold` with the buyer recorded; otherwise not found and no change |
| Crud.CreateTransaction | app/crud.py:74-79 | one new `pending` transaction owned by the user with the amount and type unchanged, under a fresh id, nothing else changed |
| Crud.TransactionsByStatus | app/crud.py:81-82 | exactly the transactions in that status |
| Crud.MoveWallet | app/crud.py:91-105 | the wallet movement of an approval: none possible iff a customer wallet holds less than a withdrawal's amount; otherwise, of all wallets, only the owner's agent wallet changes for a deposit, gaining the amount, and only the owner's customer wallet changes for a withdrawal, losing it; an owner with no wallet of that kind, or a type the workflow does not know, moves nothing at all; keeps the table constraints |
| Crud.ProcessTransaction | app/crud.py:84-109 | not found and no change iff the transaction is absent or not pending; `insufficient_funds` and no change iff approving a withdrawal whose customer wallet holds less than the amount; otherwise the transaction takes the new status and only it and the wallets change; no profile appears or vanishes; keeps the table constraints |
| Session.Store.CreateUser | app/crud.py:8-19 | the in-place insert commits the state and result given by `Crud.CreateUser` and keeps the table constraints |
| Session.Store.ApproveUser | app/crud.py:24-39 | the in-place status write and profile insert commit the state and result given by `Crud.ApproveUser`; on a duplicate profile the status write is undone |
| Session.Store.CreateCustomerCard | app/crud.py:42-47 | commits the state and result given by `Crud.CreateCustomerCard` |
| Session.Store.ImportBill | app/crud.py:53-58 | commits the state and result given by `Crud.ImportBill` |
| Session.Store.ExportBill | app/crud.py:63-71 | the in-place status and buyer writes commit the state and result given by `Crud.ExportBill` |
| Session.Store.CreateTransaction | app/crud.py:74-79 | commits the state and result given by `Crud.CreateTransaction` |
| Session.Store.MoveWallet | app/crud.py:91-105 | the in-place balance update leaves the state given by `Crud.MoveWallet` and keeps the table constraints; it reports false with nothing moved when the wallet cannot cover the withdrawal |
| Session.Store.ProcessTransaction | app/crud.py:84-109 | the in-place status write, wallet update and rollback end in the state and result given by `Crud.ProcessTransaction`, and keep the table constraints |
| Requests.Request | app/routers/transactions.py:13-21 | refused with no change iff the admission rule `Requests.Admits` fails, that is iff an agent asks for anything but a deposit or a customer for anything but a withdrawal; otherwise exactly one new pending transaction owned by the requester, with the amount and type as asked |
| Requests.RequestTransaction | app/routers/transactions.py:13-21 | the endpoint against the store ends in the state and result given by `Requests.Request` |
| Requests.OtherRolesUnchecked | app/routers/transactions.py:16-21 | administrators and staff may create a transaction of any type |
| Settlement.SecondDecisionFails | app/crud.py:85-87 | a transaction just approved or rejected cannot be approved or rejected again, and the second attempt changes nothing |
| Settlement.OnlyOwnerWalletMoves | app/crud.py:89-102 | settling a transaction changes an agent wallet only for the owner of an approved deposit, and a customer wallet only for the owner of an approved withdrawal |
| Settlement.ApprovedDepositCredits | app/crud.py:89-99 | approving a pending deposit with an agent wallet: approved, that wallet gains exactly the amount, no other wallet changes, total funds rise by the amount |
| Settlement.ApprovedWithdrawalDebits | app/crud.py:94-102 | approving a covered pending withdrawal: approved, that wallet loses exactly the amount and stays non-negative, no other wallet changes, total funds fall by the amount |
| Settlement.ShortfallRollsBack | app/crud.py:101-105 | an uncovered withdrawal returns `insufficient_funds`; the store is unchanged and the transaction is still listed as pending |
| Settlement.MissingProfileStillApproves | app/crud.py:91-97 | with no wallet of the kind the type names, approval still commits `approved` and no wallet moves |
| Settlement.RejectionTouchesNoWallet | app/crud.py:89-90 | rejecting a pending transaction settles it as rejected and no wallet moves |
| Settlement.SettledLeavesPendingList | app/crud.py:81-90 | a settled transaction leaves the pending list and appears in the list of its new status |
| Settlement.ScenarioOverdraftRefused | app/crud.py:100-105 | in a well-formed store with one customer holding 100, a withdrawal of 150: `insufficient_funds`, wallet still 100, transaction still pending |
| Settlement.ScenarioDepositCredited | app/crud.py:98-99 | in a well-formed store with one agent holding 0, a deposit of 500: approved, wallet 500 |
| Settlement.NegativeDepositDrainsWallet | app/crud.py:98-99 | a negative deposit amount is not refused, and approving it takes an agent's wallet in a well-formed store from 10 to -15 |
| Settlement.SecondExportFails | app/crud.py:63-71 | a bill just sold cannot be exported again; its status and first buyer stay |
| Settlement.ExportLeavesWarehouse | app/crud.py:60-71 | a sold bill leaves the `in_stock` list and appears in the `sold` list |
| Settlement.ImportedBillInWarehouse | app/crud.py:53-61 | the warehouse list gains exactly the imported bill |
| Settlement.RegisteredUserAwaitsApproval | app/crud.py:8-22 | a new registration is listed among the pending users of its role |
| Settlement.DuplicatePhoneRefused | app/routers/auth.py:16-19 | registering the same phone twice is refused the second time and leaves one more user than before, not two |
| Settlement.ApprovalIgnoresStatus | app/crud.py:24-28 | an already active user is approved again whenever the profile to add is free |
| Settlement.ApprovalAddsOneProfile | app/crud.py:30-35 | approval adds exactly one profile for the agent and customer roles and none for the others |
| Settlement.ReapprovalConflicts | app/crud.py:30-37 | a second approval with the same profile role cannot commit a second profile |
| Settlement.ApprovedUserLeavesPendingList | app/crud.py:21-28 | an approved user is in no pending list and is listed as active under its own role |
| Settlement.ApprovalKeepsFunds | app/crud.py:30-35 | approval moves no money: new wallets open empty |
| Settlement.CardListedForCustomer | app/crud.py:42-50 | a new card is listed under its customer and under no other |
| Runs.RunPreservesWellFormed | app/crud.py:8-109 | every sequence of store operations keeps the table constraints (keys, fresh ids, profiles of existing users, unique phones) |
| Runs.ApplyKeepsSettled | app/crud.py:74-109 | no single store operation writes an approved or rejected transaction |
| Runs.ApplyKeepsSold | app/crud.py:53-71 | no single store operation writes a sold bill |
| Runs.SettledTransactionIsFinal | app/crud.py:84-89 | an approved or rejected transaction is never written again, whatever operations follow |
| Runs.SoldBillIsFinal | app/crud.py:63-68 | a sold bill is never written again, whatever operations follow |
| Runs.DecisionAppliedAtMostOnce | app/crud.py:84-107 | after a transaction is settled, and whatever operations follow, every further approval or rejection of it fails with no change, so its wallet effect happens at most once |
| Runs.SaleAppliedAtMostOnce | app/crud.py:63-71 | after a bill is sold, and whatever operations follow, every further export fails and the first buyer stays |
| Runs.MoveWalletKeepsNonNegative | app/crud.py:98-102 | approving a transaction of non-negative amount leaves no wallet below zero; the withdrawal debit happens only when the balance covers it |
| Runs.ApplyKeepsSolvent | app/crud.py:98-102 | one store operation keeps every wallet non-negative when all recorded amounts are non-negative |
| Runs.RunKeepsSolvent | app/crud.py:98-102 | wallets, and so total funds, stay non-negative across any sequence of operations that records no negative amount |

## Left out

- Password hashing, credential checks and token issuance live in a `security` module that is not part of this model. `CreateUser` takes the password hash as a parameter, and the requester of a transaction is passed in as a user record.
- The HTTP layer is not modelled: status codes, the authentication dependencies, the administrator route that forces `role = "staff"`, and the agent/admin check in front of bill import. Only the outcome shape is kept.
- Engine and session setup, environment variables, CORS and router wiring are plumbing with no ledger behaviour.
- Floating-point rounding of `wallet_balance` and `amount` is not modelled; arithmetic is exact.
- Concurrency and isolation between simultaneous requests are not modelled. Each operation is one sequential step that either commits or leaves the store as it was.
- A role string outside the four of `UserRole` cannot be represented. The enum column would refuse it at commit.
- Foreign keys of the card, bill and transaction tables are not enforced, because those tables are not part of app/models.py. For example, a card may name any customer id.
- `get_user_by_phone` appears only inside `Crud.PhoneTaken`, the duplicate-phone test.
