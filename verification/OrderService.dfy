/** The services as objects over shared stores. Every method is tied to the stage or
    step function of OrderProtocol with the same name. */
module OrderService {
  import opened Wrappers
  import opened Domain
  import OrderProtocol
  import opened Ledger

  type UpdateFault = OrderProtocol.UpdateFault
  type CallFault = OrderProtocol.CallFault
  type PayFaults = OrderProtocol.PayFaults

  /** The orders table. */
  class OrderRepository {
    var rows: map<Uuid, Order>

    constructor ()
      ensures rows == map[]
    {
      rows := map[];
    }

    method Get(id: Uuid, fails: bool) returns (r: Option<Order>)
      ensures r == OrderProtocol.ReadRow(rows, id, fails)
    {
      if fails || id !in rows {
        return None;
      }
      return Some(rows[id]);
    }

    /** INSERT: refuses a used primary key. */
    method Create(order: Order, f: WriteFault) returns (ok: bool)
      modifies this
      ensures ok <==> order.uuid !in old(rows) && f.Clean?
      ensures rows == if order.uuid !in old(rows) && !f.FailedBefore?
                      then old(rows)[order.uuid := order] else old(rows)
    {
      if f.FailedBefore? || order.uuid in rows {
        return false;
      }
      rows := rows[order.uuid := order];
      ok := f.Clean?;
    }

    method Update(id: Uuid, info: OrderUpdate, now: int, f: UpdateFault) returns (ok: bool)
      modifies this
      ensures (rows, ok) == OrderProtocol.UpdateOrder(old(rows), id, info, now, f)
    {
      var got := Get(id, f.readFails);
      if got.None? {
        return false;
      }
      var order := got.value;
      order := order.(updatedAt := Some(now));
      if info.status.Some? {
        order := order.(status := info.status.value);
      }
      if info.transactionId.Some? {
        order := order.(transactionId := info.transactionId.value);
      }
      if info.paymentMethod.Some? {
        order := order.(paymentMethod := info.paymentMethod.value);
      }
      if f.write.FailedBefore? {
        return false;
      }
      var affected := id in rows;
      rows := OrderProtocol.WriteRow(rows, id, order);
      return f.write.Clean? && affected;
    }
  }

  /** The payment service's transaction map. */
  class PaymentRepository {
    var transactions: map<Uuid, Transaction>

    constructor ()
      ensures transactions == map[]
    {
      transactions := map[];
    }

    method CreateTransaction(t: Transaction) returns (ok: bool)
      modifies this
      ensures ok <==> t.uuid !in old(transactions)
      ensures transactions == if ok then old(transactions)[t.uuid := t] else old(transactions)
    {
      if t.uuid in transactions {
        return false;
      }
      transactions := transactions[t.uuid := t];
      return true;
    }

    /** The transactions of one order, each exactly once, in whatever order the map
        hands them out. */
    method ListTransactions(orderId: Uuid) returns (result: seq<Transaction>)
      ensures exists ids :: ListedAs(result, ids, orderId)
    {
      ghost var ids: seq<Uuid> := [];
      result := [];
      var todo := transactions.Keys;
      while todo != {}
        invariant todo <= transactions.Keys
        invariant |ids| == |result|
        invariant forall i, j :: 0 <= i < j < |ids| ==> ids[i] != ids[j]
        invariant forall id :: id in ids <==> id in transactions && id !in todo && transactions[id].orderId == orderId
        invariant forall i :: 0 <= i < |ids| ==> ids[i] in transactions && result[i] == transactions[ids[i]]
        decreases |todo|
      {
        var id :| id in todo;
        todo := todo - {id};
        if transactions[id].orderId == orderId {
          result, ids := result + [transactions[id]], ids + [id];
        }
      }
      assert ListedAs(result, ids, orderId);
    }

    /** The result is the order's transactions in the order of these ids. */
    ghost predicate ListedAs(result: seq<Transaction>, ids: seq<Uuid>, orderId: Uuid)
      reads this
    {
      && |ids| == |result|
      && (forall i, j :: 0 <= i < j < |ids| ==> ids[i] != ids[j])
      && (forall id :: id in ids <==> id in transactions && transactions[id].orderId == orderId)
      && (forall i :: 0 <= i < |ids| ==> result[i] == transactions[ids[i]])
    }
  }

  class PaymentUseCase {
    const repository: PaymentRepository

    constructor (repository: PaymentRepository)
      ensures this.repository == repository
    {
      this.repository := repository;
    }

    method PayOrder(newTx: Uuid, orderId: Uuid, userId: Uuid, payBy: ProtoMethod) returns (tx: Option<Uuid>)
      modifies repository
      ensures (repository.transactions, tx) ==
              OrderProtocol.Charge(old(repository.transactions), newTx, orderId, userId, payBy)
    {
      if orderId == "" {
        return None;
      }
      if userId == "" {
        return None;
      }
      var ok := repository.CreateTransaction(Transaction(newTx, orderId, userId, payBy, 0));
      return if ok then Some(newTx) else None;
    }
  }

  /** The two topics. A send leaves the given number of copies behind. */
  class Broker {
    var paidLog: seq<OrderPaid>
    var shipLog: seq<ShipAssembled>

    constructor ()
      ensures paidLog == [] && shipLog == []
    {
      paidLog, shipLog := [], [];
    }

    method SendOrderPaid(e: OrderPaid, copies: nat)
      modifies this`paidLog
      ensures paidLog == old(paidLog) + OrderProtocol.Copies(e, copies)
    {
      paidLog := paidLog + OrderProtocol.Copies(e, copies);
    }

    method SendShipAssembled(e: ShipAssembled, copies: nat)
      modifies this`shipLog
      ensures shipLog == old(shipLog) + OrderProtocol.Copies(e, copies)
    {
      shipLog := shipLog + OrderProtocol.Copies(e, copies);
    }
  }

  class OrderMetrics {
    var created: nat
    var paid: nat
    var revenue: map<PaymentMethod, int>

    constructor ()
      ensures Value() == Meter(0, 0, map[])
    {
      created, paid, revenue := 0, 0, map[];
    }

    method CountCreated()
      modifies this
      ensures Value() == old(Value()).(created := old(created) + 1)
    {
      created := created + 1;
    }

    method CountPaid(payBy: PaymentMethod, price: int)
      modifies this
      ensures Value() == old(Value()).(paid := old(paid) + 1,
                                       revenue := old(revenue)[payBy := old(Value()).RevenueOf(payBy) + price])
    {
      paid := paid + 1;
      revenue := revenue[payBy := (if payBy in revenue then revenue[payBy] else 0) + price];
    }

    function Value(): Meter
      reads this
    {
      Meter(created, paid, revenue)
    }
  }

  class OrderUseCase {
    const orders: OrderRepository
    const payments: PaymentUseCase
    const broker: Broker
    const metrics: OrderMetrics?

    constructor (orders: OrderRepository, payments: PaymentUseCase, broker: Broker, metrics: OrderMetrics?)
      ensures this.orders == orders && this.payments == payments && this.broker == broker && this.metrics == metrics
    {
      this.orders, this.payments, this.broker, this.metrics := orders, payments, broker, metrics;
    }

    ghost function Footprint(): set<object> {
      {orders, payments.repository, broker} + (if metrics == null then {} else {metrics})
    }

    ghost function View(): Sys
      reads Footprint()
    {
      Sys(orders.rows, payments.repository.transactions, broker.paidLog, broker.shipLog,
          if metrics == null then None else Some(metrics.Value()))
    }

    /** The price loop, which leaves at the first part that is not to be had. */
    method TotalPrice(items: seq<Item>) returns (total: Result<int, AppError>)
      ensures total == OrderProtocol.Quote(items)
    {
      var totalPrice, i := 0, 0;
      while i < |items|
        invariant 0 <= i <= |items|
        invariant OrderProtocol.Quote(items) ==
                  match OrderProtocol.Quote(items[i..])
                  case Failure(e) => Failure(e)
                  case Success(rest) => Success(totalPrice + rest)
      {
        var reply := items[i].reply;
        assert items[i..][0] == items[i] && items[i..][1..] == items[i + 1..];
        if reply.Unavailable? {
          return Failure(PartNotFound);
        }
        if reply.stock <= 0 {
          return Failure(PartOutOfStock);
        }
        totalPrice := totalPrice + reply.price;
        i := i + 1;
      }
      return Success(totalPrice);
    }

    method CreateOrder(id: Uuid, user: Uuid, items: seq<Item>, payBy: PaymentMethod, insert: WriteFault)
      returns (r: Result<Uuid, AppError>)
      modifies Footprint()
      ensures (View(), r) == OrderProtocol.CreateOrder(old(View()), id, user, items, payBy, insert)
      ensures r.Success? ==> (forall it :: it in items ==> InStock(it))
                             && r.value in orders.rows && orders.rows[r.value].totalPrice == Sum(Prices(items))
      ensures r == Failure(PartNotFound) <==> FirstBadIsMissing(items)
      ensures r == Failure(PartOutOfStock) <==> FirstBadIsSoldOut(items)
    {
      if |items| == 0 {
        return Failure(NoPartsSpecified);
      }
      var total := TotalPrice(items);
      QuoteMeaning(items);
      QuoteAnswers(items);
      if total.Failure? {
        return Failure(total.error);
      }
      var totalPrice := total.value;
      var order := Order(id, user, OrderProtocol.PartIds(items), totalPrice, "", payBy, PendingPayment, None);
      var ok := orders.Create(order, insert);
      if !ok {
        return Failure(CreateFailed);
      }
      if metrics != null {
        metrics.CountCreated();
      }
      return Success(id);
    }

    /** The payment client: the request or the reply may be lost on the way. */
    method CallPayment(o: Order, payBy: PaymentMethod, newTx: Uuid, f: CallFault) returns (tx: Option<Uuid>)
      modifies payments.repository
      ensures (payments.repository.transactions, tx) ==
              OrderProtocol.CallPayment(old(payments.repository.transactions), newTx, o, payBy, f)
    {
      if f.RequestLost? {
        return None;
      }
      tx := payments.PayOrder(newTx, o.uuid, o.userId, ToProto(payBy));
      if f.ReplyLost? {
        tx := None;
      }
    }

    method PayOrder(id: Uuid, payBy: PaymentMethod, newTx: Uuid, eventId: Uuid, now: int, f: PayFaults)
      returns (r: Result<Uuid, AppError>)
      modifies Footprint()
      ensures (View(), r) == OrderProtocol.PayOrder(old(View()), id, payBy, newTx, eventId, now, f)
    {
      var got := orders.Get(id, f.readFails);
      if got.None? {
        return Failure(OrderNotFound);
      }
      var order := got.value;
      if order.status != PendingPayment {
        return Failure(OrderCannotBePaid);
      }
      var tx := CallPayment(order, payBy, newTx, f.call);
      if tx.None? {
        return Failure(PaymentFailed);
      }
      var info := OrderUpdate(Some(Paid), Some(tx.value), Some(payBy));
      var ok := orders.Update(id, info, now, f.update);
      if !ok {
        return Failure(UpdateFailed);
      }
      CountAndPublish(order, payBy, tx.value, eventId, f.copies);
      return Success(tx.value);
    }

    /** The last two stages: counters, then the event, whose loss goes unnoticed. */
    method CountAndPublish(order: Order, payBy: PaymentMethod, tx: Uuid, eventId: Uuid, copies: nat)
      modifies broker, if metrics == null then {} else {metrics}
      ensures View() == OrderProtocol.CountPaid(old(View()), payBy, order.totalPrice).(
                          paidLog := old(broker.paidLog) +
                                     seq(copies, _ => OrderPaid(eventId, order.uuid, order.userId, payBy, tx)))
    {
      if metrics != null {
        metrics.CountPaid(payBy, order.totalPrice);
      }
      broker.SendOrderPaid(OrderPaid(eventId, order.uuid, order.userId, payBy, tx), copies);
    }

    method CancelOrder(id: Uuid, now: int, readFails: bool, f: UpdateFault) returns (r: Result<Uuid, AppError>)
      modifies Footprint()
      ensures (View(), r) == OrderProtocol.CancelOrder(old(View()), id, now, readFails, f)
    {
      var got := orders.Get(id, readFails);
      if got.None? {
        return Failure(OrderNotFound);
      }
      var order := got.value;
      if order.status == Paid {
        return Failure(OrderAlreadyPaid);
      }
      if order.status == PendingPayment {
        var ok := orders.Update(id, OrderUpdate(Some(Cancelled), None, None), now, f);
        if !ok {
          return Failure(CancelFailed);
        }
      }
      return Success(id);
    }
  }

  /** The order service's consumer of ShipAssembled. */
  class ShipHandler {
    const orders: OrderRepository

    constructor (orders: OrderRepository)
      ensures this.orders == orders
    {
      this.orders := orders;
    }

    /** A message that does not decode changes nothing; any other completes its order
        whatever the order's status is. */
    method Handle(msg: Option<ShipAssembled>, now: int, f: UpdateFault) returns (err: Option<AppError>)
      modifies orders
      ensures msg.None? ==> err == Some(DecodeFailed) && orders.rows == old(orders.rows)
      ensures msg.Some? ==>
                && (orders.rows, err.None?) ==
                   OrderProtocol.UpdateOrder(old(orders.rows), msg.value.orderId,
                                             OrderProtocol.StatusUpdate(Completed), now, f)
                && (err.Some? ==> err.value == UpdateFailed)
    {
      if msg.None? {
        return Some(DecodeFailed);
      }
      var ok := orders.Update(msg.value.orderId, OrderUpdate(Some(Completed), None, None), now, f);
      return if ok then None else Some(UpdateFailed);
    }
  }

  datatype BuildStatus = BuildSuccess | BuildError

  /** The assembly service's consumer of OrderPaid. */
  class PaidHandler {
    const broker: Broker
    var observed: seq<BuildStatus>

    constructor (broker: Broker)
      ensures this.broker == broker && observed == []
    {
      this.broker, observed := broker, [];
    }

    /** roll is the random draw from 0..9; the build takes roll + 1 seconds. The duration
        is observed once per decoded message, labelled an error only on cancellation. */
    method Handle(msg: Option<OrderPaid>, eventId: Uuid, roll: nat, cancelled: bool, copies: nat, sendFails: bool)
      returns (err: Option<AppError>)
      requires roll < 10
      modifies this, broker`shipLog
      ensures msg.None? ==>
                err == Some(DecodeFailed) && broker.shipLog == old(broker.shipLog) && observed == old(observed)
      ensures msg.Some? ==> observed == old(observed) + [if cancelled then BuildError else BuildSuccess]
      ensures msg.Some? ==>
                && broker.shipLog == old(broker.shipLog) +
                   (if cancelled then []
                    else seq(copies, _ => ShipAssembled(eventId, msg.value.orderId, msg.value.userId, roll + 1)))
                && err == if cancelled then Some(ContextDone) else if sendFails then Some(SendFailed) else None
    {
      if msg.None? {
        return Some(DecodeFailed);
      }
      var status := BuildSuccess;
      if cancelled {
        status := BuildError;
        err := Some(ContextDone);
      } else {
        broker.SendShipAssembled(ShipAssembled(eventId, msg.value.orderId, msg.value.userId, roll + 1), copies);
        err := if sendFails then Some(SendFailed) else None;
      }
      observed := observed + [status];
    }
  }
}
