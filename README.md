# Rental administration: payment ledger, user rules, socket registry, dashboard

A Dafny model of the parts of a property-rental administration back end and
dashboard that do more than move data around:

- **Payment ledger and cash approval** (`server/controllers/payment.js`,
  `server/models/Payment.js`). Creating a payment validates `month`, looks up
  the rental and computes `balance = max(rent − (earlier payments of this
  rental by this tenant + amount), 0)`. It stores the payment as `pending`
  for cash and `successful` otherwise. A non-cash payment that brings the
  balance to 0 marks the rental paid. Approving a cash payment makes it
  successful, records the approver and marks the rental paid whatever the
  balance. Other queries list a tenant's payments newest first and return a
  tenant's latest payment.
- **User table rules** (`server/controllers/users.js`): register rejects a
  duplicate email; login returns 404, then 400, then a token; edit allows
  only the user or an admin and copies only the whitelisted fields; delete
  removes one user.
- **Tenant-to-socket registry** (`server/server.js`): `registerTenant`
  overwrites one entry, and `disconnect` prunes every entry for the socket.
- **Dashboard statistics** (`client/src/pages/Home.jsx`): house and rental
  counts, distinct tenants, total income and the five most recent rentals.

The database is in-memory state that requests change one at a time. The
ledger is a sequence of payments in creation order. A payment's id is its
position, which also stands for its `createdAt` timestamp. Rentals are a map
from id to rental, and users are a sequence in insertion order. That a
`findOne` without a sort scans them in that order is a modelling choice:
the database does not promise it. The `paymentApproved` events the handlers would
emit go into a log (`notices`). The handlers emit only when
`req.app.get("io")` yields the socket server. server.js creates it
(server.js:46) but never calls `app.set("io", io)`, so as written no event
is ever emitted. The model keeps this as a flag, `ioRegistered`, that is
`false` for the server as written. Approval also emits only when the
tenant's user document still exists. Error exits are `Result` values that carry the HTTP
status (400, 401, 404, 500, as `Failure.Code` states).
Password hashing (`bcrypt.hash`) and comparison (`bcrypt.compare`) are
function parameters. The token is its claims (`id`, `role`).

Files: `common.dfy` (Option, Result, failures, sequence helpers),
`payment_schema.dfy`, `payment_ledger.dfy`, `users.dfy`,
`socket_registry.dfy`, `dashboard.dfy`. The payment field `method` is named
`payMethod` because `method` is a Dafny keyword.

Where the code and the intended behaviour differ, the model follows the
code:
- Approval is meant to be admin-only ("admin approves cash payments" in the
  comment at payment.js:157). The route checks no role, so any signed-in
  user may approve (`Approve`'s `adminId` is just the caller).
- One might expect a 4000 cash part-payment against a rent of 10000 to
  leave a balance of 6000 even after the tenant paid that rental in full.
  The code sums all earlier payments of the pair, so it gives 0 there, and
  6000 holds only when the tenant has not paid that rental before.
  `SettlementScenarios` verifies the 6000 case on a fresh ledger.
- `amount` is meant to be positive. The code does not check it, and
  neither does the model.

## Model

| member | source | states |
|---|---|---|
| PaymentSchema.ParseMethod | server/models/Payment.js:15 | `method` passes validation iff it is one of `cash`, `mpesa`, `bank_transfer`, `card`, and the parsed value names the same string |
| PaymentSchema.ParseMethodName | server/models/Payment.js:15 | each of the four methods parses back from its name |
| PaymentSchema.Instantiate | server/models/Payment.js:1-24 | a document is created iff `method` is in the enumeration and the required `month` is non-empty, else the create fails with 500; required fields are copied; `status` defaults to `pending`, `balance` to 0, `approvedBy` to null |
| PaymentLedger.PaidSoFar | server/controllers/payment.js:20-21 | the earlier-payments total is 0 when the tenant has no payment on that rental, and non-negative when none of those payments has a negative amount |
| PaymentLedger.Balance | server/controllers/payment.js:22 | the balance is never negative; it is 0 exactly when earlier payments plus this amount cover the rent, and otherwise it is the shortfall |
| PaymentLedger.InitialStatus | server/controllers/payment.js:32 | a new payment is never `failed`; it is `pending` exactly when its method is cash |
| PaymentLedger.MarkRentPaid | server/controllers/payment.js:185 | the rental, if present, becomes `paid` and keeps its amount and rental status; no rental is added or removed; all other rentals are unchanged |
| PaymentLedger.PaidSoFarSplit | server/controllers/payment.js:20-21 | the earlier-payments total over a ledger is the sum of the totals of any split of it into an older and a newer part |
| PaymentLedger.ApprovalKeepsPaidSoFar | server/controllers/payment.js:180-182 | approving a payment (status and approver set) leaves every pair's earlier-payments total unchanged, whatever its status was |
| PaymentLedger.SuccessiveBalances | server/controllers/payment.js:20-22 | at an unchanged rent, after a payment is stored, the next payment of the pair (coming straight after it in the ledger), of a non-negative amount, of a non-negative amount gets a balance no larger than the balance stored with the earlier one |
| PaymentLedger.MyPayments | server/controllers/payment.js:101-110 | the answer holds exactly the payments whose tenant is the caller, newest first (ids strictly decreasing) |
| PaymentLedger.LatestPayment | server/controllers/payment.js:141-150 | null iff the tenant has no payment; otherwise one of the tenant's payments, and no payment of that tenant is newer |
| PaymentLedger.LedgerNewestFirst | server/controllers/payment.js:101-110 | on any ledger the handlers keep (the ledger invariant holds), a tenant's payments come out with strictly decreasing ids and the latest payment is the newest of that tenant |
| PaymentLedger.PaymentService.Add | server/controllers/payment.js:10-63 | missing or empty month gives 400, then unknown rental 404, then a method outside the enumeration 500, all without a write; otherwise exactly one payment is appended with the given fields, the balance over all earlier payments of the pair, `pending` iff cash and no approver; the rental becomes paid iff the method is not cash and the balance is 0; an event is emitted iff the socket server is registered and the method is not cash; the ledger invariant is kept |
| PaymentLedger.PaymentService.Approve | server/controllers/payment.js:158-203 | an unknown id gives 404 and a non-cash payment 400, both without a write; otherwise that payment alone becomes successful with the caller as approver, whatever its earlier status (re-approval is accepted), the rental is marked paid regardless of balance, and one event is emitted to the tenant iff the socket server is registered and the tenant's user exists; the ledger invariant is kept |
| Users.EmailIndex | server/controllers/users.js:14 | the position of the first user with that email, or none iff no user has it |
| Users.IdIndex | server/controllers/users.js:135 | the position of a user with that id, or none iff no user has it; when ids are distinct it is the only such position |
| Common.Failure.Code | server/controllers/payment.js:15-18 | each failure answers with its own status, distinct from the others: 400 bad request (as for a missing month), 401 unauthorised (as at users.js:109), 404 not found (as for an unknown rental), 500 server error |
| Users.Login | server/controllers/users.js:38-63 | an unknown email gives 404; for the first user with that email, a failed comparison gives 400 and only a passed one issues a token carrying that user's id and role, with a user summary of that user's id, name, email and role |
| Users.MayEdit | server/controllers/users.js:107-110 | an admin may edit any user; a tenant may edit exactly their own user |
| Users.Whitelist | server/controllers/users.js:112-117 | the update object holds exactly the allowed fields the body defines, with the body's values, and never `password` or `role` |
| Users.CollectUpdates | server/controllers/users.js:113-117 | the updates contain only `name`, `email`, `phone`, `idScan`; an allowed key is present iff the body defines it, with the body's value |
| Users.ApplyUpdates | server/controllers/users.js:120 | every user field the update names, password and role included, takes the given value; every field it does not name keeps its value; the id never changes |
| Users.EditedUser | server/controllers/users.js:112-120 | after a whitelisted update each allowed field has the body's value if the body defines it and its old value otherwise; id, password and role are kept |
| Users.RemoveAtMembers | server/controllers/users.js:140 | removing the user at a position keeps ids distinct and removes exactly the users with that id |
| Users.UserStore.Register | server/controllers/users.js:10-28 | an email already present gives 400 and adds nobody; otherwise exactly one user is appended with a fresh id, the given name, email and phone, the hashed password, the default role and no ID scan |
| Users.UserStore.Edit | server/controllers/users.js:103-124 | a caller who is neither admin nor the user gives 401, an unknown id 404, both without a write; otherwise only that user changes, by the whitelisted updates, and the answer omits the password |
| Users.UserStore.Delete | server/controllers/users.js:131-142 | an unknown id gives 404 without a write; otherwise exactly that user is removed and the others remain in order |
| SocketRegistry.Without | server/server.js:72-74 | after pruning, no entry maps to the socket, every entry that mapped elsewhere is kept with its value, and nothing is added |
| SocketRegistry.DisconnectKeepsOthers | server/server.js:65-74 | a tenant registered on one socket is still registered there after another socket disconnects |
| SocketRegistry.Registry.RegisterTenant | server/server.js:65-68 | the tenant maps to this socket, overwriting any earlier entry; all other entries are unchanged |
| SocketRegistry.Registry.Disconnect | server/server.js:71-76 | the loop leaves no entry mapping to the socket, removes every tenant registered under it, and keeps every other entry |
| Dashboard.AvailableHouses | client/src/pages/Home.jsx:43-45 | the count of available houses is at most the number of houses, and 0 iff none is available |
| Dashboard.ActiveRentals | client/src/pages/Home.jsx:47-49 | the count of active rentals is at most the number of rentals, and all of them iff every rental is active |
| Dashboard.DistinctTenantsBound | client/src/pages/Home.jsx:46 | the number of distinct tenant ids (a missing tenant counting as one value) is at most the number of rentals, and at least 1 when there is a rental |
| Dashboard.TenantKeys | client/src/pages/Home.jsx:46 | the set holds every rental's tenant id (a missing tenant as one value) and nothing else |
| Dashboard.IncomeOf | client/src/pages/Home.jsx:51 | a rental's income is its amount, or 0 when the amount is missing |
| Dashboard.TotalIncome | client/src/pages/Home.jsx:50-53 | the income sums the amounts with a missing amount as 0, so it is non-negative when every amount is |
| Dashboard.TotalIncomeSplit | client/src/pages/Home.jsx:50-53 | the income of two lists joined is the sum of their incomes |
| Dashboard.RecentRentals | client/src/pages/Home.jsx:72 | the recent list has `min(5, n)` rentals: the last ones, newest first |
| Common.CountFilter | client/src/pages/Home.jsx:43-49 | counting the elements that satisfy a test gives the length of the filtered list, which is what `filter(...).length` computes |
| Dashboard.DashboardStats | client/src/pages/Home.jsx:42-71 | total houses is the list length; available houses is the length of the list of available houses, and at most the total; tenants is the number of distinct tenant ids, at most the rentals and at least 1 when there is one; rentals is the length of the list of active rentals, at most all rentals; income is the total income |

## Left out

- Express routing, `populate` and the denormalised response objects
  (server/controllers/payment.js:40-56, 188-193) are not modelled. Replies
  are the stored record, or a profile without the password.
- Success status codes are not modelled: 201 for create, register and
  delete, and 200 elsewhere. A success is only `Ok`.
- The catch-all 500 for persistence failures and for Mongoose cast errors on
  malformed ids is not modelled. The only 500 modelled is the validation
  failure of `Payment.create`.
- The read-then-write race on the balance (payment.js:20-24) is not
  modelled, because requests are modelled as strictly sequential.
- JavaScript numbers are not modelled: amounts are unbounded integers, and
  string or `NaN` amounts from a request body are not represented.
- A request without `amount` is not represented: the model's amount is
  always present. In the code it fails the schema's `required`
  (Payment.js:13) inside `Payment.create` and answers 500.
- socket.io delivery is not modelled. Emitted events go into a log (`notices`)
  only, and only when `ioRegistered` holds. Nothing in server.js joins a socket to a room, so no delivery
  property is stated, and the registry is never consulted by the payment
  handlers.
- `paymentDate`, `createdAt` and the other timestamps are replaced by the
  creation sequence number (the payment id).
- `GET /all` (payment.js:73-94) is not modelled. It runs behind
  server/middleware/admin.js, which answers 401 to every signed-in request.
- `GET /:id` (payment.js:122-133) is not modelled separately. It is the
  same lookup by id that `Approve` starts with.
- server/middleware/admin.js is not modelled as a role check. It rejects
  requests that carry a user and then reads undefined names.
- `Users.UserStore.Delete`: this is the handler body only. In the code the
  route sits behind admin.js with no auth step before it, so admin.js reaches
  the undefined `decoded` and answers 500 before the handler runs.
- `/complaints` (users.js:192-205) is not modelled. It never sends a success
  reply and reads an unset `req.user`.
- The ID-scan upload (users.js:150-189) is not modelled, nor are `GET
  /users` and `GET /:id` for users. The upload is a file-storage integration
  and the other two are plain reads.
- `Users.Login`: the token is its claims. Signing with the secret and the
  one-day expiry are not modelled, and neither are bcrypt's internals or its
  cost factor.
- `Users.UserStore.Register`: the User model is not part of this model. Its
  own validation is not represented, and its default role is taken to be
  tenant.
- `Users.ApplyUpdates`: a `role` string other than `admin` or `tenant` is
  not representable and leaves the role as it was. An `_id` in the update is
  not modelled: the id never changes.
- `Users.CollectUpdates`: request-body values are strings. A `null` or
  non-string value in the body is not represented.
- Edit can give two users the same email: the handler does not check it.
  The User model is not part of this model, so a unique index on `email`
  is not ruled out either.
- `Users.EmailIndex`, `Users.Login`: which of several users with the same
  email `findOne` returns is unspecified; the model picks the earliest
  inserted.
- The rental model is not part of this model. A rental carries only its
  amount, payment status and rental status.
- The mock monthly income series (Home.jsx:56-63) is not modelled. It is
  constant demo data, except for the last point, which is the total income.
  The rest of Home.jsx is rendering.
- The order in which Map iteration visits entries is not modelled. The
  registry is a Dafny map, and pruning does not depend on the order.
- `SocketRegistry.Registry.RegisterTenant`: tenant keys are strings only.
  `registerTenant` accepts any JavaScript value and `Map` compares keys by
  SameValueZero, so `7` and `"7"` are two entries in the code but cannot
  both occur in the model.
