/** The payment document (server/models/Payment.js): its fields, the two
    enumerations, the defaults the schema fills in and the validation
    `Payment.create` performs before anything is stored. */
module PaymentSchema {
  import opened Common

  /** The `method` enumeration (the field is `payMethod` here: `method` is a Dafny keyword). */
  datatype Method = Cash | Mpesa | BankTransfer | Card

  /** The `status` enumeration. */
  datatype Status = Pending | Successful | Failed

  function MethodName(m: Method): (name: string) {
    match m
    case Cash => "cash"
    case Mpesa => "mpesa"
    case BankTransfer => "bank_transfer"
    case Card => "card"
  }

  /** The enum validator on `method`: only the four listed names pass. */
  function ParseMethod(s: string): (r: Option<Method>)
    ensures r.Some? <==> s == "cash" || s == "mpesa" || s == "bank_transfer" || s == "card"
    ensures r.Some? ==> MethodName(r.value) == s
  {
    if s == "cash" then Some(Cash)
    else if s == "mpesa" then Some(Mpesa)
    else if s == "bank_transfer" then Some(BankTransfer)
    else if s == "card" then Some(Card)
    else None
  }

  lemma ParseMethodName(m: Method)
    ensures ParseMethod(MethodName(m)) == Some(m)
  {
  }

  /** A stored payment. `id` is the creation sequence number: it also
      stands for the `createdAt` timestamp, so larger means newer.
      `paymentDate` and the other timestamps are not modelled. */
  datatype Payment = Payment(
    id: ObjectId,
    tenantId: ObjectId,
    rentalId: ObjectId,
    amount: int,
    balance: int,
    payMethod: Method,
    transactionId: Option<string>,
    month: string,
    status: Status,
    approvedBy: Option<ObjectId>,
    receiptUrl: Option<string>)

  /** The fields handed to `Payment.create`. Required fields are plain
      values (an empty `month` fails `required`); fields with a schema
      default are optional; `payMethod` is still the request's string. */
  datatype Draft = Draft(
    tenantId: ObjectId,
    rentalId: ObjectId,
    amount: int,
    balance: Option<int>,
    payMethod: string,
    transactionId: Option<string>,
    month: string,
    status: Option<Status>)

  /** Mongoose's validation and defaults for a new payment document with
      the id `id`. A validation failure surfaces as a server error. */
  function Instantiate(d: Draft, id: ObjectId): (r: Result<Payment>)
    ensures r.Ok? <==> ParseMethod(d.payMethod).Some? && d.month != ""
    ensures r.Err? ==> r.failure == ServerError
    ensures r.Ok? ==> r.value.id == id && r.value.tenantId == d.tenantId && r.value.rentalId == d.rentalId
    ensures r.Ok? ==> r.value.amount == d.amount && r.value.month == d.month
    ensures r.Ok? ==> MethodName(r.value.payMethod) == d.payMethod && r.value.transactionId == d.transactionId
    ensures r.Ok? ==> r.value.status == (if d.status.Some? then d.status.value else Pending)
    ensures r.Ok? ==> r.value.balance == (if d.balance.Some? then d.balance.value else 0)
    ensures r.Ok? ==> r.value.approvedBy == None && r.value.receiptUrl == None
  {
    match ParseMethod(d.payMethod)
    case None => Err(ServerError)
    case Some(m) =>
      if d.month == "" then Err(ServerError)
      else
        Ok(Payment(
          id, d.tenantId, d.rentalId, d.amount,
          match d.balance case Some(b) => b case None => 0,
          m, d.transactionId, d.month,
          match d.status case Some(s) => s case None => Pending,
          None, None))
  }
}
