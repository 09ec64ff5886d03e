/** Runs in which each use case and handler is one step. Any step may still fail
    part-way, and handlers may be given any message any number of times. */
module Serialised {
  import opened Wrappers
  import opened Domain
  import opened OrderProtocol

  ghost predicate Settled(s: Sys, id: Uuid) {
    id in s.rows && (s.rows[id].status == Paid || s.rows[id].status == Completed)
  }

  /** What every serialised step keeps. */
  ghost predicate Inv(s: Sys) {
    && (forall k :: k in s.rows ==> s.rows[k].uuid == k)
    && (forall e :: e in s.paidLog ==> Settled(s, e.orderId))
    && (forall e :: e in s.shipLog ==> Settled(s, e.orderId))
    && (forall e, e' :: e in s.paidLog && e' in s.paidLog && e.orderId == e'.orderId ==> e == e')
  }

  predicate Edge(x: Status, y: Status) {
    || x == y
    || (x == PendingPayment && (y == Paid || y == Cancelled))
    || (x == Paid && y == Completed)
  }

  /** Edge, any number of times. */
  predicate Reaches(x: Status, y: Status) {
    x == y || x == PendingPayment || (x == Paid && y == Completed)
  }

  /** Step only ever moves existing rows along an edge, and never removes one. */
  ghost predicate Moves(s: Sys, s': Sys) {
    forall k :: k in s.rows ==> k in s'.rows && Edge(s.rows[k].status, s'.rows[k].status)
  }

  lemma UpdateIsMerge(rows: map<Uuid, Order>, id: Uuid, u: OrderUpdate, now: int, f: UpdateFault)
    ensures var (rows', ok) := UpdateOrder(rows, id, u, now, f);
            || (rows' == rows && !ok)
            || (id in rows && rows' == rows[id := Merge(rows[id], u, now)] && (ok <==> f.write.Clean?))
  {
  }

  lemma StepKeepsInv(s: Sys, a: Action)
    requires Inv(s)
    ensures Inv(Step(s, a)) && Moves(s, Step(s, a))
  {
    match a
    case Create(_, _, _, _, _) => CreateKeepsInv(s, a);
    case Pay(_, _, _, _, _, _) => PayKeepsInv(s, a);
    case Cancel(_, _, _, _) => CancelKeepsInv(s, a);
    case HandlePaid(_, _, _, _, _, _) => HandlePaidKeepsInv(s, a);
    case HandleShip(_, _, _) => HandleShipKeepsInv(s, a);
  }

  lemma CreateKeepsInv(s: Sys, a: Action)
    requires Inv(s) && a.Create?
    ensures Inv(Step(s, a)) && Moves(s, Step(s, a))
  {
  }

  /** The three things a PayOrder call can do to the rows and the topic: nothing, pay
      the pending order silently, or pay it and publish. */
  lemma PayShape(s: Sys, a: Action)
    requires a.Pay?
    ensures var s' := Step(s, a);
            && s'.shipLog == s.shipLog
            && ((s'.rows == s.rows && s'.paidLog == s.paidLog)
                || (&& a.id in s.rows && s.rows[a.id].status == PendingPayment
                    && s'.rows == s.rows[a.id := Merge(s.rows[a.id], PaidUpdate(a.newTx, a.payBy), a.now)]
                    && (s'.paidLog == s.paidLog || s'.paidLog == s.paidLog
                          + Copies(PaidEvent(a.eventId, s.rows[a.id], a.payBy, a.newTx), a.faults.copies))))
  {
    if !a.faults.readFails && a.id in s.rows && s.rows[a.id].status == PendingPayment {
      UpdateIsMerge(s.rows, a.id, PaidUpdate(a.newTx, a.payBy), a.now, a.faults.update);
    }
  }

  lemma PayKeepsInv(s: Sys, a: Action)
    requires Inv(s) && a.Pay?
    ensures Inv(Step(s, a)) && Moves(s, Step(s, a))
  {
    PayShape(s, a);
    var s' := Step(s, a);
    if s'.rows != s.rows {
      assert forall e :: e in s.paidLog ==> e.orderId != a.id;
      var event := PaidEvent(a.eventId, s.rows[a.id], a.payBy, a.newTx);
      assert forall e :: e in s'.paidLog ==> e in s.paidLog || e == event;
    }
  }

  lemma CancelKeepsInv(s: Sys, a: Action)
    requires Inv(s) && a.Cancel?
    ensures Inv(Step(s, a)) && Moves(s, Step(s, a))
  {
    UpdateIsMerge(s.rows, a.id, StatusUpdate(Cancelled), a.now, a.update);
  }

  lemma HandlePaidKeepsInv(s: Sys, a: Action)
    requires Inv(s) && a.HandlePaid?
    ensures Inv(Step(s, a)) && Moves(s, Step(s, a))
  {
    if a.at < |s.paidLog| {
      assert s.paidLog[a.at] in s.paidLog;
    }
  }

  lemma HandleShipKeepsInv(s: Sys, a: Action)
    requires Inv(s) && a.HandleShip?
    ensures Inv(Step(s, a)) && Moves(s, Step(s, a))
  {
    if a.at < |s.shipLog| {
      assert s.shipLog[a.at] in s.shipLog;
      UpdateIsMerge(s.rows, s.shipLog[a.at].orderId, StatusUpdate(Completed), a.now, a.update);
    }
  }

  lemma {:induction false} RunKeepsInv(s: Sys, acts: seq<Action>)
    requires Inv(s)
    ensures Inv(Run(s, acts))
    decreases |acts|
  {
    if acts != [] {
      StepKeepsInv(s, acts[0]);
      RunKeepsInv(Step(s, acts[0]), acts[1..]);
    }
  }

  /** Over any run a status only moves PENDING_PAYMENT to PAID to COMPLETED, or
      PENDING_PAYMENT to CANCELLED. */
  lemma {:induction false} StatusOnlyMovesForward(s: Sys, acts: seq<Action>, id: Uuid)
    requires Inv(s) && id in s.rows
    ensures id in Run(s, acts).rows
    ensures Reaches(s.rows[id].status, Run(s, acts).rows[id].status)
    ensures s.rows[id].status == Cancelled ==> Run(s, acts).rows[id].status == Cancelled
    ensures Settled(s, id) ==> Settled(Run(s, acts), id)
    decreases |acts|
  {
    if acts != [] {
      StepKeepsInv(s, acts[0]);
      StatusOnlyMovesForward(Step(s, acts[0]), acts[1..], id);
    }
  }

  lemma {:induction false} RunConcat(s: Sys, before: seq<Action>, after: seq<Action>)
    ensures Run(s, before + after) == Run(Run(s, before), after)
    decreases |before|
  {
    if before == [] {
      assert before + after == after;
    } else {
      assert (before + after)[0] == before[0] && (before + after)[1..] == before[1..] + after;
      RunConcat(Step(s, before[0]), before[1..], after);
    }
  }

  /** The whole-run form, from an empty system: whatever happens before and after a
      moment, no cancelled order completes later and no settled one is cancelled. */
  lemma NoCancelledOrderCompletes(metered: bool, before: seq<Action>, after: seq<Action>, id: Uuid)
    requires id in Run(Fresh(metered), before).rows
    ensures var now, later := Run(Fresh(metered), before), Run(Fresh(metered), before + after);
            && id in later.rows
            && Reaches(now.rows[id].status, later.rows[id].status)
            && (now.rows[id].status == Cancelled ==> later.rows[id].status == Cancelled)
            && (Settled(now, id) ==> Settled(later, id))
  {
    RunKeepsInv(Fresh(metered), before);
    RunConcat(Fresh(metered), before, after);
    StatusOnlyMovesForward(Run(Fresh(metered), before), after, id);
  }

  predicate PaySucceeds(s: Sys, a: Action, id: Uuid) {
    a.Pay? && a.id == id && Perform(s, a).1.Success?
  }

  /** How many PayOrder calls for the order succeed in a run. */
  function PaySuccesses(s: Sys, acts: seq<Action>, id: Uuid): nat
    decreases |acts|
  {
    if acts == [] then 0
    else (if PaySucceeds(s, acts[0], id) then 1 else 0) + PaySuccesses(Step(s, acts[0]), acts[1..], id)
  }

  /** At most one call succeeds, none if the order is past PENDING_PAYMENT, and the
      topic holds at most one distinct event per order. */
  lemma {:induction false} PaidAtMostOnce(s: Sys, acts: seq<Action>, id: Uuid)
    requires Inv(s)
    ensures PaySuccesses(s, acts, id) <= 1
    ensures id in s.rows && s.rows[id].status != PendingPayment ==> PaySuccesses(s, acts, id) == 0
    ensures PaySuccesses(s, acts, id) == 1 ==> Settled(Run(s, acts), id)
    ensures var log := Run(s, acts).paidLog;
            forall e, e' :: e in log && e' in log && e.orderId == e'.orderId ==> e == e'
    decreases |acts|
  {
    if acts != [] {
      var s' := Step(s, acts[0]);
      StepKeepsInv(s, acts[0]);
      PaidAtMostOnce(s', acts[1..], id);
      if PaySucceeds(s, acts[0], id) {
        PaySuccessMeaning(s, acts[0]);
        StatusOnlyMovesForward(s', acts[1..], id);
      }
    }
  }

  /** A successful PayOrder: the order was pending; its row now carries exactly the
      new transaction and the chosen method; the payment store holds the transaction;
      only copies of the matching event were published; nothing else moved. */
  lemma PaySuccessMeaning(s: Sys, a: Action)
    requires a.Pay? && Perform(s, a).1.Success?
    ensures a.id in s.rows && s.rows[a.id].status == PendingPayment
    ensures var s', o := Step(s, a), s.rows[a.id];
            && Perform(s, a).1.value == a.newTx
            && s'.rows == s.rows[a.id := o.(status := Paid, transactionId := a.newTx,
                                            paymentMethod := a.payBy, updatedAt := Some(a.now))]
            && a.newTx !in s.txs
            && s'.txs == s.txs[a.newTx := Transaction(a.newTx, o.uuid, o.userId, ToProto(a.payBy), 0)]
            && s.paidLog <= s'.paidLog && s'.shipLog == s.shipLog
            && (forall i :: |s.paidLog| <= i < |s'.paidLog| ==>
                  s'.paidLog[i] == OrderPaid(a.eventId, o.uuid, o.userId, a.payBy, a.newTx))
  {
    var o := s.rows[a.id];
    var (txs, tx) := CallPayment(s.txs, a.newTx, o, a.payBy, a.faults.call);
    UpdateIsMerge(s.rows, a.id, PaidUpdate(tx.value, a.payBy), a.now, a.faults.update);
  }

  /** When PayOrder succeeds, as a condition on what it meets. */
  lemma PaySuccessCondition(s: Sys, a: Action)
    requires a.Pay?
    ensures Perform(s, a).1.Success? <==>
            && a.id in s.rows && s.rows[a.id].status == PendingPayment
            && s.rows[a.id].uuid != "" && s.rows[a.id].userId != "" && a.newTx !in s.txs
            && !a.faults.readFails && a.faults.call.Answered?
            && !a.faults.update.readFails && a.faults.update.write.Clean?
    ensures Perform(s, a).1.Failure? ==> Step(s, a).paidLog == s.paidLog && Step(s, a).meter == s.meter
  {
  }

  /** A successful CancelOrder leaves the order cancelled, or finds it already
      cancelled or completed; a paid order is refused. No other row changes, and a paid,
      cancelled or completed order is not touched. */
  lemma CancelSuccessMeaning(s: Sys, a: Action)
    requires a.Cancel? && a.id in s.rows
    ensures var s' := Step(s, a);
            && (Perform(s, a).1.Success? ==>
                  a.id in s'.rows && (s'.rows[a.id].status == Cancelled || s'.rows[a.id].status == Completed))
            && (s.rows[a.id].status == Paid ==> Perform(s, a).1 == Failure(OrderAlreadyPaid) || a.readFails)
            && (s.rows[a.id].status != PendingPayment ==> s' == s)
            && s' == s.(rows := s'.rows) && s'.rows - {a.id} == s.rows - {a.id}
  {
    UpdateIsMerge(s.rows, a.id, StatusUpdate(Cancelled), a.now, a.update);
  }

  /** When CancelOrder succeeds, as a condition on what it meets: also on an order that
      is already cancelled or completed. */
  lemma CancelSuccessCondition(s: Sys, a: Action)
    requires a.Cancel?
    ensures Perform(s, a).1.Success? <==>
            && a.id in s.rows && !a.readFails
            && (|| s.rows[a.id].status == Cancelled || s.rows[a.id].status == Completed
                || (s.rows[a.id].status == PendingPayment && !a.update.readFails && a.update.write.Clean?))
  {
  }

  // ---- Which answer each failure gets --------------------------------------------

  /** The stage at which a PayOrder call fails is the error it returns. */
  lemma PayAnswers(s: Sys, a: Action)
    requires a.Pay?
    ensures var r, f := Perform(s, a).1, a.faults;
            var read := !f.readFails && a.id in s.rows;
            var pending := read && s.rows[a.id].status == PendingPayment;
            var charged := pending && f.call.Answered? && a.newTx !in s.txs
                           && s.rows[a.id].uuid != "" && s.rows[a.id].userId != "";
            var updated := charged && !f.update.readFails && f.update.write.Clean?;
            && (r == Failure(OrderNotFound) <==> !read)
            && (r == Failure(OrderCannotBePaid) <==> read && !pending)
            && (r == Failure(PaymentFailed) <==> pending && !charged)
            && (r == Failure(UpdateFailed) <==> charged && !updated)
            && (r == Success(a.newTx) <==> updated)
  {
  }

  lemma CancelAnswers(s: Sys, a: Action)
    requires a.Cancel?
    ensures var r, f := Perform(s, a).1, a.update;
            var read := !a.readFails && a.id in s.rows;
            var pending := read && s.rows[a.id].status == PendingPayment;
            && (r == Failure(OrderNotFound) <==> !read)
            && (r == Failure(OrderAlreadyPaid) <==> read && s.rows[a.id].status == Paid)
            && (r == Failure(CancelFailed) <==> pending && (f.readFails || !f.write.Clean?))
            && (Step(s, a) != s ==>
                  pending && !f.readFails && !f.write.FailedBefore?
                  && Step(s, a).rows == s.rows[a.id := s.rows[a.id].(status := Cancelled, updatedAt := Some(a.now))])
  {
    UpdateIsMerge(s.rows, a.id, StatusUpdate(Cancelled), a.now, a.update);
  }

  /** The assembly handler: fails on a cancellation, having published nothing, or on a
      failed send; otherwise the copies carry the order's event through. */
  lemma HandlePaidAnswers(s: Sys, a: Action)
    requires a.HandlePaid?
    ensures var r, s' := Perform(s, a).1, Step(s, a);
            && (r == Failure(DecodeFailed) <==> a.at >= |s.paidLog|)
            && (r == Failure(ContextDone) <==> a.at < |s.paidLog| && a.cancelled)
            && (r == Failure(SendFailed) <==> a.at < |s.paidLog| && !a.cancelled && a.sendFails)
            && (r.Success? <==> a.at < |s.paidLog| && !a.cancelled && !a.sendFails)
            && s' == s.(shipLog := s'.shipLog) && s.shipLog <= s'.shipLog
            && (a.at >= |s.paidLog| || a.cancelled ==> s'.shipLog == s.shipLog)
            && (a.at < |s.paidLog| && !a.cancelled ==>
                  var e := s.paidLog[a.at];
                  && |s'.shipLog| == |s.shipLog| + a.copies
                  && forall i :: |s.shipLog| <= i < |s'.shipLog| ==>
                       s'.shipLog[i] == ShipAssembled(a.eventId, e.orderId, e.userId, a.build))
  {
  }

  /** The order consumer: succeeds if and only if the order exists and both statements of
      its update work, and then the row is COMPLETED with all else kept. */
  lemma HandleShipAnswers(s: Sys, a: Action)
    requires a.HandleShip?
    ensures var r, s', f := Perform(s, a).1, Step(s, a), a.update;
            var there := a.at < |s.shipLog| && s.shipLog[a.at].orderId in s.rows && !f.readFails;
            && (r == Failure(DecodeFailed) <==> a.at >= |s.shipLog|)
            && (r.Success? <==> there && f.write.Clean?)
            && (r == Failure(UpdateFailed) <==> a.at < |s.shipLog| && !(there && f.write.Clean?))
            && (if there && !f.write.FailedBefore? then
                  var id := s.shipLog[a.at].orderId;
                  s' == s.(rows := s.rows[id := s.rows[id].(status := Completed, updatedAt := Some(a.now))])
                else s' == s)
  {
    if a.at < |s.shipLog| {
      UpdateIsMerge(s.rows, s.shipLog[a.at].orderId, StatusUpdate(Completed), a.now, a.update);
    }
  }

  // ---- Orders paid without an event --------------------------------------------

  ghost predicate Announced(s: Sys, id: Uuid) {
    exists e :: e in s.paidLog && e.orderId == id
  }

  ghost predicate ShipsAnnounced(s: Sys) {
    forall e :: e in s.shipLog ==> Announced(s, e.orderId)
  }

  predicate HasStatus(s: Sys, id: Uuid, st: Status) {
    id in s.rows && s.rows[id].status == st
  }

  lemma StepKeepsAnnounced(s: Sys, a: Action)
    requires Inv(s) && ShipsAnnounced(s)
    ensures ShipsAnnounced(Step(s, a))
    ensures forall e :: e in s.paidLog ==> e in Step(s, a).paidLog
  {
    if a.HandlePaid? && a.at < |s.paidLog| {
      assert s.paidLog[a.at] in s.paidLog;
    }
    forall e | e in s.shipLog
      ensures Announced(Step(s, a), e.orderId)
    {
      var p :| p in s.paidLog && p.orderId == e.orderId;
      assert p in Step(s, a).paidLog;
    }
  }

  lemma StrandedStep(s: Sys, a: Action, id: Uuid)
    requires Inv(s) && ShipsAnnounced(s) && HasStatus(s, id, Paid) && !Announced(s, id)
    ensures HasStatus(Step(s, a), id, Paid) && !Announced(Step(s, a), id)
  {
    match a {
      case Pay(_, _, _, _, _, _) => PayShape(s, a);
      case Cancel(_, _, _, _) => UpdateIsMerge(s.rows, a.id, StatusUpdate(Cancelled), a.now, a.update);
      case HandleShip(at, _, _) =>
        if at < |s.shipLog| {
          assert s.shipLog[at] in s.shipLog;
          UpdateIsMerge(s.rows, s.shipLog[at].orderId, StatusUpdate(Completed), a.now, a.update);
        }
      case _ =>
    }
  }

  lemma {:induction false} StrandedForEver(s: Sys, acts: seq<Action>, id: Uuid)
    requires Inv(s) && ShipsAnnounced(s) && HasStatus(s, id, Paid) && !Announced(s, id)
    ensures HasStatus(Run(s, acts), id, Paid)
    decreases |acts|
  {
    if acts != [] {
      StepKeepsInv(s, acts[0]);
      StepKeepsAnnounced(s, acts[0]);
      StrandedStep(s, acts[0], id);
      StrandedForEver(Step(s, acts[0]), acts[1..], id);
    }
  }

  lemma {:induction false} RunKeepsAnnounced(s: Sys, acts: seq<Action>)
    requires Inv(s) && ShipsAnnounced(s)
    ensures ShipsAnnounced(Run(s, acts))
    decreases |acts|
  {
    if acts != [] {
      StepKeepsInv(s, acts[0]);
      StepKeepsAnnounced(s, acts[0]);
      RunKeepsAnnounced(Step(s, acts[0]), acts[1..]);
    }
  }

  lemma RunTwo(s: Sys, a: Action, b: Action)
    ensures Run(s, [a, b]) == Step(Step(s, a), b)
  {
    assert [a, b][1..] == [b] && [b][1..] == [];
    assert Run(Step(s, a), [b]) == Step(Step(s, a), b);
  }

  predicate EndsAs(s: Sys, acts: seq<Action>, id: Uuid, st: Status) {
    HasStatus(Run(s, acts), id, st)
  }

  /** A paid order that no OrderPaid in the topic names is PAID for ever, however often
      and in whatever order messages are delivered. */
  lemma UnannouncedStaysPaid(metered: bool, before: seq<Action>, after: seq<Action>, id: Uuid)
    requires EndsAs(Fresh(metered), before, id, Paid) && !Announced(Run(Fresh(metered), before), id)
    ensures EndsAs(Fresh(metered), before + after, id, Paid)
  {
    RunKeepsInv(Fresh(metered), before);
    RunKeepsAnnounced(Fresh(metered), before);
    RunConcat(Fresh(metered), before, after);
    StrandedForEver(Run(Fresh(metered), before), after, id);
  }

  /** A run in which that happens: the call succeeds, its publish leaves no message. */
  lemma PaidOrderCanBeStranded() returns (acts: seq<Action>)
    ensures var s := Run(Fresh(false), acts);
            && EndsAs(Fresh(false), acts, "order", Paid) && !Announced(s, "order")
            && PaySuccesses(Fresh(false), acts, "order") == 1
  {
    var items := [Item("part", Quoted(5, 1))];
    var create := Create("order", "user", items, Card, Clean);
    var pay := Pay("order", Card, "t0", "e0", 0, PayFaults(false, Answered, UpdateFault(false, Clean), 0));
    acts := [create, pay];
    assert items[1..] == [] && Quote(items) == Success(5);
    var s1 := Step(Fresh(false), create);
    assert HasStatus(s1, "order", PendingPayment);
    assert Perform(s1, pay).1 == Success("t0");
    RunTwo(Fresh(false), create, pay);
    assert acts[1..] == [pay] && [pay][1..] == [];
    assert PaySuccesses(s1, [pay], "order") == 1;
  }
}
