/** The stages of each use case and handler, and their serialised composition.

    Every call that can fail carries the way it fails. A failing database write or
    gRPC call may or may not have taken effect; a failing or retried publish may
    leave any number of copies in the topic. */
module OrderProtocol {
  import opened Wrappers
  import opened Domain

  datatype CallFault = Answered | RequestLost | ReplyLost
  datatype UpdateFault = UpdateFault(readFails: bool, write: WriteFault)
  datatype PayFaults = PayFaults(readFails: bool, call: CallFault, update: UpdateFault, copies: nat)

  // ---- Stages -------------------------------------------------------------

  function ReadRow(rows: map<Uuid, Order>, id: Uuid, fails: bool): Option<Order> {
    if fails || id !in rows then None else Some(rows[id])
  }

  function Merge(o: Order, u: OrderUpdate, now: int): Order {
    o.(updatedAt := Some(now),
       status := u.status.GetOr(o.status),
       transactionId := u.transactionId.GetOr(o.transactionId),
       paymentMethod := u.paymentMethod.GetOr(o.paymentMethod))
  }

  /** The UPDATE statement: four columns of whatever the row is by now. */
  function WriteRow(rows: map<Uuid, Order>, id: Uuid, merged: Order): map<Uuid, Order> {
    if id in rows then
      rows[id := rows[id].(updatedAt := merged.updatedAt,
                           status := merged.status,
                           transactionId := merged.transactionId,
                           paymentMethod := merged.paymentMethod)]
    else rows
  }

  /** The repository's Update run without interruption; the flag is "no error". */
  function UpdateOrder(rows: map<Uuid, Order>, id: Uuid, u: OrderUpdate, now: int, f: UpdateFault)
    : (map<Uuid, Order>, bool)
  {
    match ReadRow(rows, id, f.readFails)
    case None => (rows, false)
    case Some(o) =>
      if f.write.FailedBefore? then (rows, false)
      else (WriteRow(rows, id, Merge(o, u, now)), f.write.Clean?)
  }

  /** The payment service: two validations, then a create that refuses a used id. */
  function Charge(txs: map<Uuid, Transaction>, newTx: Uuid, orderId: Uuid, userId: Uuid, m: ProtoMethod)
    : (map<Uuid, Transaction>, Option<Uuid>)
  {
    if orderId == "" || userId == "" || newTx in txs then (txs, None)
    else (txs[newTx := Transaction(newTx, orderId, userId, m, 0)], Some(newTx))
  }

  /** The payment client's view of the same call over a network that can lose
      the request or the reply. */
  function CallPayment(txs: map<Uuid, Transaction>, newTx: Uuid, o: Order, m: PaymentMethod, f: CallFault)
    : (map<Uuid, Transaction>, Option<Uuid>)
  {
    if f.RequestLost? then (txs, None)
    else
      var (txs', tx) := Charge(txs, newTx, o.uuid, o.userId, ToProto(m));
      (txs', if f.ReplyLost? then None else tx)
  }

  function PaidUpdate(tx: Uuid, m: PaymentMethod): OrderUpdate {
    OrderUpdate(Some(Paid), Some(tx), Some(m))
  }

  function StatusUpdate(st: Status): OrderUpdate {
    OrderUpdate(Some(st), None, None)
  }

  function CountPaid(s: Sys, m: PaymentMethod, price: int): Sys {
    match s.meter
    case None => s
    case Some(c) => s.(meter := Some(c.(paid := c.paid + 1, revenue := c.revenue[m := c.RevenueOf(m) + price])))
  }

  function CountCreated(s: Sys): Sys {
    match s.meter
    case None => s
    case Some(c) => s.(meter := Some(c.(created := c.created + 1)))
  }

  function Copies<T>(e: T, n: nat): seq<T> {
    seq(n, _ => e)
  }

  function PaidEvent(eventId: Uuid, o: Order, m: PaymentMethod, tx: Uuid): OrderPaid {
    OrderPaid(eventId, o.uuid, o.userId, m, tx)
  }

  function ShipEvent(eventId: Uuid, e: OrderPaid, build: int): ShipAssembled {
    ShipAssembled(eventId, e.orderId, e.userId, build)
  }

  // ---- CreateOrder's price loop ------------------------------------------

  function PartIds(items: seq<Item>): seq<Uuid> {
    seq(|items|, i requires 0 <= i < |items| => items[i].part)
  }

  function ItemError(r: PartReply): Option<AppError> {
    if r.Unavailable? then Some(PartNotFound)
    else if r.stock <= 0 then Some(PartOutOfStock)
    else None
  }

  /** The total of the quoted prices, or the error of the first part that fails. */
  function Quote(items: seq<Item>): Result<int, AppError> {
    if items == [] then Success(0)
    else if ItemError(items[0].reply).Some? then Failure(ItemError(items[0].reply).value)
    else
      match Quote(items[1..])
      case Failure(e) => Failure(e)
      case Success(rest) => Success(items[0].reply.price + rest)
  }

  // ---- Use cases and handlers, each as one step ---------------------------

  function CreateOrder(s: Sys, id: Uuid, user: Uuid, items: seq<Item>, m: PaymentMethod, insert: WriteFault)
    : (Sys, Result<Uuid, AppError>)
  {
    if items == [] then (s, Failure(NoPartsSpecified))
    else
      match Quote(items)
      case Failure(e) => (s, Failure(e))
      case Success(total) =>
        if insert.FailedBefore? || id in s.rows then (s, Failure(CreateFailed))
        else
          var s1 := s.(rows := s.rows[id := Order(id, user, PartIds(items), total, "", m, PendingPayment, None)]);
          if insert.FailedAfter? then (s1, Failure(CreateFailed))
          else (CountCreated(s1), Success(id))
  }

  function PayOrder(s: Sys, id: Uuid, m: PaymentMethod, newTx: Uuid, eventId: Uuid, now: int, f: PayFaults)
    : (Sys, Result<Uuid, AppError>)
  {
    match ReadRow(s.rows, id, f.readFails)
    case None => (s, Failure(OrderNotFound))
    case Some(o) =>
      if o.status != PendingPayment then (s, Failure(OrderCannotBePaid))
      else
        var (txs, tx) := CallPayment(s.txs, newTx, o, m, f.call);
        var s1 := s.(txs := txs);
        if tx.None? then (s1, Failure(PaymentFailed))
        else
          var (rows, ok) := UpdateOrder(s1.rows, id, PaidUpdate(tx.value, m), now, f.update);
          var s2 := s1.(rows := rows);
          if !ok then (s2, Failure(UpdateFailed))
          else
            var s3 := CountPaid(s2, m, o.totalPrice);
            (s3.(paidLog := s3.paidLog + Copies(PaidEvent(eventId, o, m, tx.value), f.copies)), Success(tx.value))
  }

  function CancelOrder(s: Sys, id: Uuid, now: int, readFails: bool, f: UpdateFault)
    : (Sys, Result<Uuid, AppError>)
  {
    match ReadRow(s.rows, id, readFails)
    case None => (s, Failure(OrderNotFound))
    case Some(o) =>
      if o.status == Paid then (s, Failure(OrderAlreadyPaid))
      else if o.status == PendingPayment then
        var (rows, ok) := UpdateOrder(s.rows, id, StatusUpdate(Cancelled), now, f);
        (s.(rows := rows), if ok then Success(id) else Failure(CancelFailed))
      else (s, Success(id))
  }

  /** The assembly handler: cancelled before the timer fires, or publishes. */
  function Assemble(s: Sys, e: OrderPaid, eventId: Uuid, build: int, cancelled: bool, copies: nat, sendFails: bool)
    : (Sys, Result<Uuid, AppError>)
  {
    if cancelled then (s, Failure(ContextDone))
    else
      (s.(shipLog := s.shipLog + Copies(ShipEvent(eventId, e, build), copies)),
       if sendFails then Failure(SendFailed) else Success(e.orderId))
  }

  /** The order consumer: writes Completed with no look at the status. */
  function Complete(s: Sys, e: ShipAssembled, now: int, f: UpdateFault): (Sys, Result<Uuid, AppError>) {
    var (rows, ok) := UpdateOrder(s.rows, e.orderId, StatusUpdate(Completed), now, f);
    (s.(rows := rows), if ok then Success(e.orderId) else Failure(UpdateFailed))
  }

  // ---- Actions ------------------------------------------------------------

  /** One serialised step. A handler step names a position in a topic; the same
      position may be delivered any number of times and in any order. */
  datatype Action =
    | Create(id: Uuid, user: Uuid, items: seq<Item>, payBy: PaymentMethod, insert: WriteFault)
    | Pay(id: Uuid, payBy: PaymentMethod, newTx: Uuid, eventId: Uuid, now: int, faults: PayFaults)
    | Cancel(id: Uuid, now: int, readFails: bool, update: UpdateFault)
    | HandlePaid(at: nat, eventId: Uuid, build: int, cancelled: bool, copies: nat, sendFails: bool)
    | HandleShip(at: nat, now: int, update: UpdateFault)

  function Perform(s: Sys, a: Action): (Sys, Result<Uuid, AppError>) {
    match a
    case Create(id, user, items, m, insert) => CreateOrder(s, id, user, items, m, insert)
    case Pay(id, m, newTx, eventId, now, f) => PayOrder(s, id, m, newTx, eventId, now, f)
    case Cancel(id, now, readFails, f) => CancelOrder(s, id, now, readFails, f)
    case HandlePaid(at, eventId, build, cancelled, copies, sendFails) =>
      if at < |s.paidLog| then Assemble(s, s.paidLog[at], eventId, build, cancelled, copies, sendFails)
      else (s, Failure(DecodeFailed))
    case HandleShip(at, now, f) =>
      if at < |s.shipLog| then Complete(s, s.shipLog[at], now, f) else (s, Failure(DecodeFailed))
  }

  function Step(s: Sys, a: Action): Sys {
    Perform(s, a).0
  }

  function Run(s: Sys, acts: seq<Action>): Sys
    decreases |acts|
  {
    if acts == [] then s else Run(Step(s, acts[0]), acts[1..])
  }
}
