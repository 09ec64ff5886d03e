/** Fault-free runs: every message is published once and handled once. */
module Drain {
  import opened Wrappers
  import opened Domain
  import opened OrderProtocol
  import opened Serialised
  import opened Delivery

  // The shared state and the topic positions nobody has handled yet.
  datatype DState = DState(sys: Sys, unreadPaid: set<nat>, unreadShip: set<nat>)

  datatype DStep =
    | Api(a: Action)
    | TakePaid(at: nat, eventId: Uuid, build: int)
    | TakeShip(at: nat, now: int)

  const NO_FAULT := UpdateFault(false, Clean)

  predicate FaultFree(a: Action) {
    match a
    case Create(_, _, _, _, insert) => insert.Clean?
    case Pay(_, _, _, _, _, f) => f == PayFaults(false, Answered, NO_FAULT, 1)
    case Cancel(_, _, readFails, f) => !readFails && f == NO_FAULT
    case _ => false
  }

  predicate Enabled(d: DState, x: DStep) {
    match x
    case Api(a) => FaultFree(a)
    case TakePaid(at, _, _) => at in d.unreadPaid && at < |d.sys.paidLog|
    case TakeShip(at, _) => at in d.unreadShip && at < |d.sys.shipLog|
  }

  /** The serialised action of a step: handlers run without faults and publish once. */
  function ActionOf(x: DStep): Action {
    match x
    case Api(a) => a
    case TakePaid(at, eventId, build) => HandlePaid(at, eventId, build, false, 1, false)
    case TakeShip(at, now) => HandleShip(at, now, NO_FAULT)
  }

  function Next(d: DState, x: DStep): DState
    requires Enabled(d, x)
  {
    var sys := Step(d.sys, ActionOf(x));
    match x
    case Api(a) =>
      var more := if |d.sys.paidLog| < |sys.paidLog| then {|d.sys.paidLog|} else {};
      DState(sys, d.unreadPaid + more, d.unreadShip)
    case TakePaid(at, _, _) => DState(sys, d.unreadPaid - {at}, d.unreadShip + {|d.sys.shipLog|})
    case TakeShip(at, _) => DState(sys, d.unreadPaid, d.unreadShip - {at})
  }

  function Left(d: DState): nat {
    2 * |d.unreadPaid| + |d.unreadShip|
  }

  ghost predicate Waiting(d: DState, id: Uuid) {
    || (exists i :: i in d.unreadPaid && i < |d.sys.paidLog| && d.sys.paidLog[i].orderId == id)
    || (exists i :: i in d.unreadShip && i < |d.sys.shipLog| && d.sys.shipLog[i].orderId == id)
  }

  ghost predicate InRange(d: DState) {
    && (forall i :: i in d.unreadPaid ==> i < |d.sys.paidLog|)
    && (forall i :: i in d.unreadShip ==> i < |d.sys.shipLog|)
  }

  /** No order has two unread messages, over both topics together. */
  ghost predicate OneEach(d: DState)
    requires InRange(d)
  {
    && (forall i, j :: i in d.unreadPaid && j in d.unreadPaid && i != j ==>
          d.sys.paidLog[i].orderId != d.sys.paidLog[j].orderId)
    && (forall i, j :: i in d.unreadShip && j in d.unreadShip && i != j ==>
          d.sys.shipLog[i].orderId != d.sys.shipLog[j].orderId)
    && (forall i, j :: i in d.unreadPaid && j in d.unreadShip ==>
          d.sys.paidLog[i].orderId != d.sys.shipLog[j].orderId)
  }

  /** An order is PAID exactly while it has one unread message in one of the topics. */
  ghost predicate PaidMeansWaiting(d: DState) {
    forall id :: id in d.sys.rows && d.sys.rows[id].status == Paid <==> Waiting(d, id)
  }

  ghost predicate DInv(d: DState) {
    Inv(d.sys) && InRange(d) && OneEach(d) && PaidMeansWaiting(d)
  }

  lemma NextKeepsDInv(d: DState, x: DStep)
    requires DInv(d) && Enabled(d, x)
    ensures DInv(Next(d, x))
    ensures !x.Api? ==> Left(Next(d, x)) == Left(d) - 1
  {
    match x
    case Api(a) => ApiKeepsDInv(d, a);
    case TakePaid(at, eventId, build) => TakePaidKeepsDInv(d, x);
    case TakeShip(at, now) => TakeShipKeepsDInv(d, x);
  }

  lemma ApiKeepsDInv(d: DState, a: Action)
    requires DInv(d) && FaultFree(a)
    ensures DInv(Next(d, Api(a)))
  {
    if a.Pay? && Perform(d.sys, a).1.Success? {
      PayKeepsDInv(d, a);
    } else {
      QuietKeepsDInv(d, a);
    }
  }

  lemma PayKeepsDInv(d: DState, a: Action)
    requires DInv(d) && FaultFree(a)
    requires a.Pay? && Perform(d.sys, a).1.Success?
    ensures DInv(Next(d, Api(a)))
  {
    var d' := Next(d, Api(a));
    StepKeepsInv(d.sys, a);
    PaySuccessMeaning(d.sys, a);
    var e := d'.sys.paidLog[|d.sys.paidLog|];
    assert d'.sys.paidLog == d.sys.paidLog + [e];
    OneMoreMessage(d, d', e);
  }

  lemma OneMoreMessage(d: DState, d': DState, e: OrderPaid)
    requires InRange(d) && OneEach(d) && !Waiting(d, e.orderId)
    requires d'.sys.paidLog == d.sys.paidLog + [e] && d'.unreadPaid == d.unreadPaid + {|d.sys.paidLog|}
    requires d'.sys.shipLog == d.sys.shipLog && d'.unreadShip == d.unreadShip
    ensures InRange(d') && OneEach(d')
    ensures forall id :: Waiting(d', id) <==> Waiting(d, id) || id == e.orderId
  {
    var n := |d.sys.paidLog|;
    assert n in d'.unreadPaid && d'.sys.paidLog[n] == e;
    assert forall i :: i in d.unreadPaid ==> d'.sys.paidLog[i] == d.sys.paidLog[i] && i in d'.unreadPaid;
  }

  /** A successful or refused API call that pays nothing publishes nothing. */
  lemma QuietKeepsDInv(d: DState, a: Action)
    requires DInv(d) && FaultFree(a)
    requires a.Pay? ==> Perform(d.sys, a).1.Failure?
    ensures DInv(Next(d, Api(a)))
  {
    var d' := Next(d, Api(a));
    StepKeepsInv(d.sys, a);
    assert d'.sys.paidLog == d.sys.paidLog && d'.sys.shipLog == d.sys.shipLog;
    assert d'.unreadPaid == d.unreadPaid;
    forall id
      ensures Waiting(d', id) <==> Waiting(d, id)
    {
    }
    QuietKeepsPaid(d.sys, a);
  }

  lemma QuietKeepsPaid(s: Sys, a: Action)
    requires FaultFree(a)
    requires a.Pay? ==> Perform(s, a).1.Failure?
    ensures forall id :: (id in s.rows && s.rows[id].status == Paid) <==>
                         (id in Step(s, a).rows && Step(s, a).rows[id].status == Paid)
  {
    if a.Cancel? {
      UpdateIsMerge(s.rows, a.id, StatusUpdate(Cancelled), a.now, a.update);
    }
  }

  lemma TakePaidKeepsDInv(d: DState, x: DStep)
    requires DInv(d) && Enabled(d, x) && x.TakePaid?
    ensures DInv(Next(d, x)) && Left(Next(d, x)) == Left(d) - 1
  {
    var d' := Next(d, x);
    StepKeepsInv(d.sys, ActionOf(x));
    var e := ShipEvent(x.eventId, d.sys.paidLog[x.at], x.build);
    assert d'.sys.shipLog == d.sys.shipLog + [e];
    assert |d.sys.shipLog| !in d.unreadShip;
    MessageMoves(d, d', x.at, e);
  }

  /** The paid message at this position is replaced by a ship message for its order. */
  lemma MessageMoves(d: DState, d': DState, at: nat, e: ShipAssembled)
    requires InRange(d) && OneEach(d) && at in d.unreadPaid && d.sys.paidLog[at].orderId == e.orderId
    requires d'.sys.paidLog == d.sys.paidLog && d'.unreadPaid == d.unreadPaid - {at}
    requires d'.sys.shipLog == d.sys.shipLog + [e] && d'.unreadShip == d.unreadShip + {|d.sys.shipLog|}
    ensures InRange(d') && OneEach(d')
    ensures forall id :: Waiting(d', id) <==> Waiting(d, id)
  {
    var n := |d.sys.shipLog|;
    assert n in d'.unreadShip && d'.sys.shipLog[n] == e;
    assert forall i :: i in d.unreadShip ==> d'.sys.shipLog[i] == d.sys.shipLog[i] && i in d'.unreadShip;
  }

  lemma TakeShipKeepsDInv(d: DState, x: DStep)
    requires DInv(d) && Enabled(d, x) && x.TakeShip?
    ensures DInv(Next(d, x)) && Left(Next(d, x)) == Left(d) - 1
  {
    var d' := Next(d, x);
    StepKeepsInv(d.sys, ActionOf(x));
    var id := d.sys.shipLog[x.at].orderId;
    assert d.sys.shipLog[x.at] in d.sys.shipLog;
    UpdateIsMerge(d.sys.rows, id, StatusUpdate(Completed), x.now, NO_FAULT);
    MessageTaken(d, d', x.at);
  }

  /** The ship message at this position was the only one about its order. */
  lemma MessageTaken(d: DState, d': DState, at: nat)
    requires InRange(d) && OneEach(d) && at in d.unreadShip
    requires d'.sys.paidLog == d.sys.paidLog && d'.unreadPaid == d.unreadPaid
    requires d'.sys.shipLog == d.sys.shipLog && d'.unreadShip == d.unreadShip - {at}
    ensures InRange(d') && OneEach(d')
    ensures forall id :: Waiting(d', id) <==> Waiting(d, id) && id != d.sys.shipLog[at].orderId
  {
  }

  // ---- Whole runs ----------------------------------------------------------

  ghost predicate Possible(d: DState, xs: seq<DStep>)
    decreases |xs|
  {
    xs == [] || (Enabled(d, xs[0]) && Possible(Next(d, xs[0]), xs[1..]))
  }

  function After(d: DState, xs: seq<DStep>): DState
    requires Possible(d, xs)
    decreases |xs|
  {
    if xs == [] then d else After(Next(d, xs[0]), xs[1..])
  }

  predicate HandlersOnly(xs: seq<DStep>) {
    forall x :: x in xs ==> !x.Api?
  }

  lemma {:induction false} DInvAlways(d: DState, xs: seq<DStep>)
    requires DInv(d) && Possible(d, xs)
    ensures DInv(After(d, xs))
    decreases |xs|
  {
    if xs != [] {
      NextKeepsDInv(d, xs[0]);
      DInvAlways(Next(d, xs[0]), xs[1..]);
    }
  }

  function PaidToCompleted(rows: map<Uuid, Order>): map<Uuid, Order> {
    map k | k in rows :: if rows[k].status == Paid then rows[k].(status := Completed) else rows[k]
  }

  lemma CompletingKeepsOutcome(rows: map<Uuid, Order>, id: Uuid, now: int)
    requires id in rows && rows[id].status == Paid
    ensures Undated(PaidToCompleted(rows[id := Merge(rows[id], StatusUpdate(Completed), now)])) ==
            Undated(PaidToCompleted(rows))
  {
  }

  lemma HandlerStepKeepsOutcome(d: DState, x: DStep)
    requires DInv(d) && Enabled(d, x) && !x.Api?
    ensures Undated(PaidToCompleted(Next(d, x).sys.rows)) == Undated(PaidToCompleted(d.sys.rows))
  {
    if x.TakeShip? {
      var id := d.sys.shipLog[x.at].orderId;
      assert Waiting(d, id);
      CompletingKeepsOutcome(d.sys.rows, id, x.now);
      UpdateIsMerge(d.sys.rows, id, StatusUpdate(Completed), x.now, NO_FAULT);
    }
  }

  /** Once API calls stop, every handler step takes one off the count, whichever
      message it picks; and a schedule that leaves nothing unread has turned exactly
      the PAID orders into COMPLETED ones and changed nothing else in the rows. */
  lemma {:induction false} DrainCompletesPaidOrders(d: DState, xs: seq<DStep>)
    requires DInv(d) && Possible(d, xs) && HandlersOnly(xs)
    ensures |xs| == Left(d) - Left(After(d, xs))
    ensures Undated(PaidToCompleted(After(d, xs).sys.rows)) == Undated(PaidToCompleted(d.sys.rows))
    ensures Left(After(d, xs)) == 0 ==> Undated(After(d, xs).sys.rows) == Undated(PaidToCompleted(d.sys.rows))
    decreases |xs|
  {
    if xs == [] {
      if Left(d) == 0 {
        assert forall id :: !Waiting(d, id);
        assert PaidToCompleted(d.sys.rows) == d.sys.rows;
      }
    } else {
      assert xs[0] in xs;
      NextKeepsDInv(d, xs[0]);
      HandlerStepKeepsOutcome(d, xs[0]);
      assert HandlersOnly(xs[1..]);
      DrainCompletesPaidOrders(Next(d, xs[0]), xs[1..]);
    }
  }

  lemma LeastOf(at: set<nat>) returns (i: nat)
    requires at != {}
    ensures i in at && forall j :: j in at ==> i <= j
  {
    i :| i in at;
    var rest := at - {i};
    if rest != {} {
      var j := LeastOf(rest);
      if j < i {
        i := j;
      }
    }
    assert forall k :: k in at ==> k in rest || k == i || k in at - rest;
  }

  /** Every handler step takes the first unread message of its topic, as consumers do
      under any split into partitions. */
  ghost predicate InOrder(d: DState, xs: seq<DStep>)
    requires Possible(d, xs)
    decreases |xs|
  {
    xs == [] || (TakesFirst(d, xs[0]) && InOrder(Next(d, xs[0]), xs[1..]))
  }

  predicate TakesFirst(d: DState, x: DStep) {
    && (x.TakePaid? ==> forall j :: j in d.unreadPaid ==> x.at <= j)
    && (x.TakeShip? ==> forall j :: j in d.unreadShip ==> x.at <= j)
  }

  /** The system can always be drained, from wherever it is, message by message in
      order, and it takes exactly Left(d) handler steps. */
  lemma {:induction false} CanBeDrained(d: DState) returns (xs: seq<DStep>)
    requires DInv(d)
    ensures Possible(d, xs) && HandlersOnly(xs) && InOrder(d, xs)
    ensures |xs| == Left(d) && Left(After(d, xs)) == 0
    decreases Left(d)
  {
    if Left(d) == 0 {
      xs := [];
    } else {
      var x: DStep;
      if d.unreadPaid != {} {
        var i := LeastOf(d.unreadPaid);
        x := TakePaid(i, "", 1);
      } else {
        var i := LeastOf(d.unreadShip);
        x := TakeShip(i, 0);
      }
      NextKeepsDInv(d, x);
      var rest := CanBeDrained(Next(d, x));
      xs := [x] + rest;
      assert xs[1..] == rest;
      DrainCompletesPaidOrders(d, xs);
    }
  }

  lemma {:induction false} SettledStays(d: DState, xs: seq<DStep>, id: Uuid)
    requires DInv(d) && Possible(d, xs) && Settled(d.sys, id)
    ensures Settled(After(d, xs).sys, id)
    decreases |xs|
  {
    if xs != [] {
      NextKeepsDInv(d, xs[0]);
      StepKeepsInv(d.sys, ActionOf(xs[0]));
      SettledStays(Next(d, xs[0]), xs[1..], id);
    }
  }

  /** An order paid in a fault-free run is COMPLETED whenever nothing is left unread,
      whatever calls and handler steps came in between. */
  lemma EveryPaidOrderCompletes(d: DState, pay: Action, xs: seq<DStep>)
    requires DInv(d) && FaultFree(pay) && pay.Pay? && Perform(d.sys, pay).1.Success?
    requires Possible(Next(d, Api(pay)), xs)
    ensures var end := After(Next(d, Api(pay)), xs);
            Left(end) == 0 ==> pay.id in end.sys.rows && end.sys.rows[pay.id].status == Completed
  {
    NextKeepsDInv(d, Api(pay));
    PaySuccessMeaning(d.sys, pay);
    SettledStays(Next(d, Api(pay)), xs, pay.id);
    DInvAlways(Next(d, Api(pay)), xs);
    var end := After(Next(d, Api(pay)), xs);
    if Left(end) == 0 {
      assert !Waiting(end, pay.id);
    }
  }

  function Start(metered: bool): DState {
    DState(Fresh(metered), {}, {})
  }

  /** Every fault-free run from an empty system, in full: at any moment an order is PAID
      exactly while one message of it is unread; any handler steps that follow count the
      unread messages down one by one, whichever they pick; and when none is left exactly
      the PAID orders have become COMPLETED. Such steps exist, as many as are counted,
      taking the messages of each topic in order. */
  lemma FaultFreeRunsDrain(metered: bool, xs: seq<DStep>, handlers: seq<DStep>) returns (schedule: seq<DStep>)
    requires Possible(Start(metered), xs)
    requires Possible(After(Start(metered), xs), handlers) && HandlersOnly(handlers)
    ensures var d := After(Start(metered), xs);
            var end := After(d, handlers);
            && PaidMeansWaiting(d) && InRange(d) && OneEach(d)
            && |handlers| == Left(d) - Left(end)
            && (Left(end) == 0 ==> Undated(end.sys.rows) == Undated(PaidToCompleted(d.sys.rows)))
            && Possible(d, schedule) && HandlersOnly(schedule) && InOrder(d, schedule)
            && |schedule| == Left(d) && Left(After(d, schedule)) == 0
  {
    assert DInv(Start(metered));
    DInvAlways(Start(metered), xs);
    var d := After(Start(metered), xs);
    DrainCompletesPaidOrders(d, handlers);
    schedule := CanBeDrained(d);
  }
}
