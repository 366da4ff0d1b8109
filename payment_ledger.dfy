/** The payment ledger and the cash-approval workflow
    (server/controllers/payment.js). The database is in-memory state: the
    payments in creation order, the rentals by id, and the log of
    `paymentApproved` events the handlers emit. Requests run one at a time. */
module PaymentLedger {
  import opened Common
  import opened PaymentSchema

  /** A rental's `paymentStatus`. */
  datatype RentStatus = RentPending | RentPaid | RentLate

  /** A rental's `rentalStatus`. */
  datatype RentalStatus = Active | Ended

  /** The fields of a rental that the payment handlers read or write. */
  datatype Rental = Rental(amount: int, paymentStatus: RentStatus, rentalStatus: RentalStatus)

  /** A `paymentApproved` event emitted to the room named after a tenant. */
  datatype Notice = PaymentApproved(room: ObjectId, payment: Payment)

  // ---------------------------------------------------------------------
  // Balance and initial status

  predicate OfPair(p: Payment, rentalId: ObjectId, tenantId: ObjectId) {
    p.rentalId == rentalId && p.tenantId == tenantId
  }

  /** What `Payment.find({ rentalId, tenantId })` folded with
      `reduce((sum, p) => sum + p.amount, 0)` yields: the amounts of every
      earlier payment of that rental by that tenant, whatever its status
      or month, summed from the oldest. */
  function PaidSoFar(ps: seq<Payment>, rentalId: ObjectId, tenantId: ObjectId): (total: int)
    ensures (forall i :: 0 <= i < |ps| ==> !OfPair(ps[i], rentalId, tenantId)) ==> total == 0
    ensures (forall i :: 0 <= i < |ps| && OfPair(ps[i], rentalId, tenantId) ==> ps[i].amount >= 0) ==> total >= 0
  {
    if ps == [] then 0
    else
      var last := ps[|ps| - 1];
      PaidSoFar(ps[..|ps| - 1], rentalId, tenantId) + (if OfPair(last, rentalId, tenantId) then last.amount else 0)
  }

  /** `Math.max(rental.amount - (totalPaid + amount), 0)`. */
  function Balance(due: int, paid: int, amount: int): (b: int)
    ensures b >= 0
    ensures b == 0 <==> due <= paid + amount
    ensures b != 0 ==> b == due - (paid + amount)
  {
    ClampAtZero(due - (paid + amount))
  }

  /** `method === "cash" ? "pending" : "successful"`, on the request's string. */
  function InitialStatus(payMethod: string): (s: Status)
    ensures s != Failed
    ensures ParseMethod(payMethod).Some? ==> (s == Pending <==> ParseMethod(payMethod).value == Cash)
  {
    if payMethod == "cash" then Pending else Successful
  }

  /** `Rental.findByIdAndUpdate(id, { paymentStatus: "paid" })`: a missing
      rental is left missing. */
  function MarkRentPaid(rentals: map<ObjectId, Rental>, id: ObjectId): (r: map<ObjectId, Rental>)
    ensures r.Keys == rentals.Keys
    ensures id in r ==> r[id].paymentStatus == RentPaid
    ensures id in r ==> r[id].amount == rentals[id].amount && r[id].rentalStatus == rentals[id].rentalStatus
    ensures forall k :: k in r && k != id ==> r[k] == rentals[k]
  {
    if id in rentals then rentals[id := rentals[id].(paymentStatus := RentPaid)] else rentals
  }

  lemma {:induction false} PaidSoFarSplit(a: seq<Payment>, b: seq<Payment>, rentalId: ObjectId, tenantId: ObjectId)
    ensures PaidSoFar(a + b, rentalId, tenantId) == PaidSoFar(a, rentalId, tenantId) + PaidSoFar(b, rentalId, tenantId)
  {
    if b == [] {
      assert a + b == a;
    } else {
      var b' := b[..|b| - 1];
      assert (a + b)[..|a + b| - 1] == a + b';
      assert (a + b)[|a + b| - 1] == b[|b| - 1];
      PaidSoFarSplit(a, b', rentalId, tenantId);
    }
  }

  /** Approving a payment changes only its status and approver, so the total
      every later balance is computed from stays the same. */
  lemma {:induction false} ApprovalKeepsPaidSoFar(ps: seq<Payment>, i: nat, caller: ObjectId, rentalId: ObjectId, tenantId: ObjectId)
    requires i < |ps|
    ensures PaidSoFar(ps[i := ps[i].(status := Successful, approvedBy := Some(caller))], rentalId, tenantId)
         == PaidSoFar(ps, rentalId, tenantId)
  {
    var ps' := ps[i := ps[i].(status := Successful, approvedBy := Some(caller))];
    var n := |ps| - 1;
    if i == n {
      assert ps'[..n] == ps[..n];
    } else {
      assert ps'[..n] == ps[..n][i := ps[i].(status := Successful, approvedBy := Some(caller))];
      ApprovalKeepsPaidSoFar(ps[..n], i, caller, rentalId, tenantId);
    }
  }

  /** A further payment of a non-negative amount never raises the balance:
      each balance is at most the previous one for the same pair. */
  lemma SuccessiveBalances(ps: seq<Payment>, p: Payment, due: int, amount: int)
    requires amount >= 0
    requires p.balance == Balance(due, PaidSoFar(ps, p.rentalId, p.tenantId), p.amount)
    ensures Balance(due, PaidSoFar(ps + [p], p.rentalId, p.tenantId), amount) <= p.balance
  {
  }

  // ---------------------------------------------------------------------
  // The ledger invariant

  /** What every stored payment satisfies: its id is its position, its
      balance is not negative, `failed` is never reached, a non-cash payment
      is successful, and a payment has an approver exactly when it is a
      successful cash payment. */
  predicate WellFormed(ps: seq<Payment>) {
    forall i :: 0 <= i < |ps| ==>
      && ps[i].id == i
      && ps[i].balance >= 0
      && ps[i].status != Failed
      && (ps[i].payMethod != Cash ==> ps[i].status == Successful)
      && (ps[i].approvedBy.Some? <==> ps[i].payMethod == Cash && ps[i].status == Successful)
  }

  /** Ids grow with creation order, which is what sorting on `createdAt` uses. */
  predicate IdsIncreasing(ps: seq<Payment>) {
    forall i, j :: 0 <= i < j < |ps| ==> ps[i].id < ps[j].id
  }

  lemma WellFormedIdsIncreasing(ps: seq<Payment>)
    requires WellFormed(ps)
    ensures IdsIncreasing(ps)
  {
  }

  lemma {:induction false} FilterIdsIncreasing(ps: seq<Payment>, keep: Payment -> bool)
    ensures IdsIncreasing(ps) ==> IdsIncreasing(Filter(ps, keep))
  {
    if ps != [] && IdsIncreasing(ps) {
      var init := ps[..|ps| - 1];
      var last := ps[|ps| - 1];
      FilterIdsIncreasing(init, keep);
      var f := Filter(init, keep);
      forall k | 0 <= k < |f| ensures f[k].id < last.id {
        assert f[k] in init;
      }
    }
  }

  // ---------------------------------------------------------------------
  // Queries

  /** `GET /my`: `Payment.find({ tenantId }).sort({ createdAt: -1 })`. */
  function MyPayments(ps: seq<Payment>, tenantId: ObjectId): (r: seq<Payment>)
    ensures forall p :: p in r <==> p in ps && p.tenantId == tenantId
    ensures IdsIncreasing(ps) ==> forall i, j :: 0 <= i < j < |r| ==> r[i].id > r[j].id
  {
    var mine := Filter(ps, (p: Payment) => p.tenantId == tenantId);
    FilterIdsIncreasing(ps, (p: Payment) => p.tenantId == tenantId);
    var r := Reverse(mine);
    assert forall p :: p in r <==> p in mine by {
      assert multiset(r) == multiset(mine);
      forall p ensures p in r <==> p in mine {
        assert p in r <==> p in multiset(r);
        assert p in mine <==> p in multiset(mine);
      }
    }
    r
  }

  /** `GET /latest/:tenantId`: `Payment.findOne({ tenantId }).sort({ createdAt: -1 })`,
      the first of the tenant's payments newest first, answered as `null`
      when the tenant has none. */
  function LatestPayment(ps: seq<Payment>, tenantId: ObjectId): (r: Option<Payment>)
    ensures r.None? <==> forall p :: p in ps ==> p.tenantId != tenantId
    ensures r.Some? ==> r.value in ps && r.value.tenantId == tenantId
    ensures r.Some? && IdsIncreasing(ps) ==> forall p :: p in ps && p.tenantId == tenantId ==> p.id <= r.value.id
  {
    var mine := MyPayments(ps, tenantId);
    if mine == [] then None
    else
      assert mine[0] in mine;
      assert IdsIncreasing(ps) ==> forall p :: p in mine ==> p.id <= mine[0].id by {
        if IdsIncreasing(ps) {
          forall p | p in mine ensures p.id <= mine[0].id {
            var k :| 0 <= k < |mine| && mine[k] == p;
          }
        }
      }
      Some(mine[0])
  }

  /** On a ledger the handlers built, `GET /my` answers newest first and
      `GET /latest` answers the tenant's newest payment. */
  lemma LedgerNewestFirst(ps: seq<Payment>, tenantId: ObjectId)
    requires WellFormed(ps)
    ensures var mine := MyPayments(ps, tenantId);
      forall i, j :: 0 <= i < j < |mine| ==> mine[i].id > mine[j].id
    ensures var latest := LatestPayment(ps, tenantId);
      latest.Some? ==> forall p :: p in ps && p.tenantId == tenantId ==> p.id <= latest.value.id
  {
    WellFormedIdsIncreasing(ps);
  }

  // ---------------------------------------------------------------------
  // The handlers that change the ledger

  /** The handlers' view of the database and the app. `ioRegistered` is
      whether `req.app.get("io")` yields the socket server: server.js as
      written creates it but never calls `app.set("io", io)`, so there it
      is `false` and nothing is emitted. `tenants` holds the ids of the
      user documents that exist, which `populate("tenantId")` resolves. */
  class PaymentService {
    var payments: seq<Payment>
    var rentals: map<ObjectId, Rental>
    var tenants: set<ObjectId>
    const ioRegistered: bool
    var notices: seq<Notice>

    ghost predicate Valid()
      reads this
    {
      WellFormed(payments)
    }

    /** An empty ledger over the given rentals and users. */
    constructor (initialRentals: map<ObjectId, Rental>, users: set<ObjectId>, io: bool)
      ensures Valid()
      ensures payments == [] && rentals == initialRentals && tenants == users && notices == []
      ensures ioRegistered == io
    {
      payments := [];
      rentals := initialRentals;
      tenants := users;
      ioRegistered := io;
      notices := [];
    }

    /** `POST /add` by the signed-in tenant `tenantId`. A missing or empty
        `month` is rejected first, then an unknown rental; a `method` outside
        the enumeration makes `Payment.create` fail. None of these writes. */
    method Add(tenantId: ObjectId, rentalId: ObjectId, amount: int, payMethod: string,
               transactionId: Option<string>, month: Option<string>) returns (r: Result<Payment>)
      requires Valid()
      modifies this
      ensures Valid()
      ensures month.None? || month.value == "" ==> r == Err(BadRequest)
      ensures month.Some? && month.value != "" && rentalId !in old(rentals) ==> r == Err(NotFound)
      ensures month.Some? && month.value != "" && rentalId in old(rentals) && ParseMethod(payMethod).None? ==> r == Err(ServerError)
      ensures r.Ok? <==> month.Some? && month.value != "" && rentalId in old(rentals) && ParseMethod(payMethod).Some?
      ensures tenants == old(tenants)
      ensures r.Err? ==> payments == old(payments) && rentals == old(rentals) && notices == old(notices)
      ensures r.Ok? ==> payments == old(payments) + [r.value]
      ensures r.Ok? ==> rentalId in old(rentals) && month.Some?
      ensures r.Ok? ==>
        var p := r.value;
        && p.id == |old(payments)|
        && p.tenantId == tenantId && p.rentalId == rentalId && p.amount == amount
        && MethodName(p.payMethod) == payMethod && p.transactionId == transactionId && p.month == month.value
        && p.balance == Balance(old(rentals)[rentalId].amount, PaidSoFar(old(payments), rentalId, tenantId), amount)
        && p.status == (if p.payMethod == Cash then Pending else Successful)
        && p.approvedBy == None && p.receiptUrl == None
      ensures r.Ok? ==> rentals == if r.value.payMethod != Cash && r.value.balance == 0
                                   then MarkRentPaid(old(rentals), rentalId) else old(rentals)
      ensures r.Ok? ==> notices == old(notices) + if ioRegistered && r.value.payMethod != Cash
                                                  then [PaymentApproved(tenantId, r.value)] else []
    {
      if month.None? || month.value == "" {
        return Err(BadRequest);
      }
      if rentalId !in rentals {
        return Err(NotFound);
      }
      var rental := rentals[rentalId];
      var totalPaid := PaidSoFar(payments, rentalId, tenantId);
      var balance := Balance(rental.amount, totalPaid, amount);
      var draft := Draft(tenantId, rentalId, amount, Some(balance), payMethod, transactionId,
                         month.value, Some(InitialStatus(payMethod)));
      var created := Instantiate(draft, |payments|);
      if created.Err? {
        return Err(created.failure);
      }
      var payment := created.value;
      ParseMethodName(payment.payMethod);
      payments := payments + [payment];
      if payMethod != "cash" && balance == 0 {
        rentals := rentals[rentalId := rental.(paymentStatus := RentPaid)];
      }
      if payMethod != "cash" && payment.status == Successful && ioRegistered {
        notices := notices + [PaymentApproved(tenantId, payment)];
      }
      r := Ok(payment);
    }

    /** `PUT /approve/:paymentId` by the signed-in user `adminId` (the route
        checks no role). An unknown id is 404 and a non-cash payment 400,
        both without a write. Otherwise the payment becomes successful with
        `adminId` as approver, whatever its status was, and the rental is
        marked paid whatever the payment's balance. The event goes out only
        when the socket server is registered and the tenant still exists. */
    method Approve(paymentId: ObjectId, adminId: ObjectId) returns (r: Result<Payment>)
      requires Valid()
      modifies this
      ensures Valid()
      ensures paymentId >= |old(payments)| ==> r == Err(NotFound)
      ensures paymentId < |old(payments)| && old(payments)[paymentId].payMethod != Cash ==> r == Err(BadRequest)
      ensures r.Ok? <==> paymentId < |old(payments)| && old(payments)[paymentId].payMethod == Cash
      ensures tenants == old(tenants)
      ensures r.Err? ==> payments == old(payments) && rentals == old(rentals) && notices == old(notices)
      ensures r.Ok? ==> paymentId < |old(payments)|
      ensures r.Ok? ==>
        && r.value == old(payments)[paymentId].(status := Successful, approvedBy := Some(adminId))
        && payments == old(payments)[paymentId := r.value]
        && rentals == MarkRentPaid(old(rentals), r.value.rentalId)
        && notices == old(notices) + if ioRegistered && r.value.tenantId in tenants
                                     then [PaymentApproved(r.value.tenantId, r.value)] else []
    {
      if paymentId >= |payments| {
        return Err(NotFound);
      }
      var payment := payments[paymentId];
      if payment.payMethod != Cash {
        return Err(BadRequest);
      }
      payment := payment.(status := Successful, approvedBy := Some(adminId));
      payments := payments[paymentId := payment];
      rentals := MarkRentPaid(rentals, payment.rentalId);
      if ioRegistered && payment.tenantId in tenants {
        notices := notices + [PaymentApproved(payment.tenantId, payment)];
      }
      r := Ok(payment);
    }
  }

  /** The worked examples: a rent of 10000 paid in full by mobile money,
      on the server as written (no socket server registered, so no event)
      and with one registered; a cash part-payment of 4000 on a fresh
      ledger, then its approval (twice). */
  method SettlementScenarios() {
    var rent := Rental(10000, RentPending, Active);

    var asWritten := new PaymentService(map[1 := rent], {7}, false);
    var r0 := asWritten.Add(7, 1, 10000, "mpesa", Some("QX12"), Some("Nov"));
    assert r0.Ok? && r0.value.status == Successful && r0.value.balance == 0;
    assert asWritten.rentals[1].paymentStatus == RentPaid;
    assert asWritten.notices == [];

    var full := new PaymentService(map[1 := rent], {7}, true);
    var r1 := full.Add(7, 1, 10000, "mpesa", Some("QX12"), Some("Nov"));
    assert r1.Ok? && r1.value == r0.value;
    assert full.notices == [PaymentApproved(7, r1.value)];

    var part := new PaymentService(map[1 := rent], {7}, true);
    var noMonth := part.Add(7, 1, 4000, "cash", None, Some(""));
    assert noMonth == Err(BadRequest) && part.payments == [];
    var r2 := part.Add(7, 1, 4000, "cash", None, Some("Nov"));
    assert r2.Ok? && r2.value.status == Pending && r2.value.balance == 6000;
    assert part.rentals[1] == rent && part.notices == [];
    var wrong := part.Approve(5, 99);
    assert wrong == Err(NotFound);
    var a1 := part.Approve(0, 99);
    assert a1.Ok? && a1.value.status == Successful && a1.value.approvedBy == Some(99);
    assert part.rentals[1].paymentStatus == RentPaid;
    assert part.notices == [PaymentApproved(7, a1.value)];
    var a2 := part.Approve(0, 99);
    assert a2 == a1;
  }
}
