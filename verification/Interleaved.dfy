/** Any number of requests and handlers in flight, interleaved one database read,
    remote call, database write, counter update or publish at a time. Each keeps the
    snapshot it read, however stale it has become. */
module Interleaved {
  import opened Wrappers
  import opened Domain
  import opened OrderProtocol

  // A request or handler, by the stage it has reached.
  datatype Proc =
    | PayStart(id: Uuid, payBy: PaymentMethod)
    | PayRead(id: Uuid, payBy: PaymentMethod, order: Order)
    | PayCharged(id: Uuid, payBy: PaymentMethod, order: Order, tx: Uuid)
    | PayMerged(id: Uuid, payBy: PaymentMethod, order: Order, tx: Uuid, merged: Order)
    | PayWritten(id: Uuid, payBy: PaymentMethod, order: Order, tx: Uuid)
    | PayCounted(id: Uuid, payBy: PaymentMethod, order: Order, tx: Uuid)
    | CancelStart(id: Uuid)
    | CancelRead(id: Uuid)
    | CancelMerged(id: Uuid, merged: Order)
    | AssembleStart(paid: OrderPaid)
    | AssembleBuilt(paid: OrderPaid)
    | CompleteStart(ship: ShipAssembled)
    | CompleteMerged(ship: ShipAssembled, merged: Order)
    | Returned(result: Result<Uuid, AppError>)

  datatype IState = IState(sys: Sys, procs: seq<Proc>)

  // Everything the surroundings decide about one stage.
  datatype Choice = Choice(
    readFails: bool,
    call: CallFault,
    newTx: Uuid,
    write: WriteFault,
    now: int,
    cancelled: bool,
    eventId: Uuid,
    build: int,
    copies: nat,
    sendFails: bool)

  datatype Move =
    | StartPay(id: Uuid, payBy: PaymentMethod)
    | StartCancel(id: Uuid)
    | Insert(create: Action)
    | Deliver(paidAt: nat)
    | DeliverShip(shipAt: nat)
    | Advance(p: nat, c: Choice)

  /** A write to a row that has the effect and the report the fault says. */
  function Written(s: Sys, id: Uuid, merged: Order, f: WriteFault): (Sys, bool) {
    if f.FailedBefore? then (s, false)
    else (s.(rows := WriteRow(s.rows, id, merged)), f.Clean? && id in s.rows)
  }

  function Stage(s: Sys, p: Proc, c: Choice): (Sys, Proc) {
    match p
    case PayStart(id, m) =>
      (match ReadRow(s.rows, id, c.readFails)
       case None => (s, Returned(Failure(OrderNotFound)))
       case Some(o) =>
         (s, if o.status != PendingPayment then Returned(Failure(OrderCannotBePaid)) else PayRead(id, m, o)))
    case PayRead(id, m, o) =>
      var (txs, tx) := CallPayment(s.txs, c.newTx, o, m, c.call);
      (s.(txs := txs), if tx.None? then Returned(Failure(PaymentFailed)) else PayCharged(id, m, o, tx.value))
    case PayCharged(id, m, o, tx) =>
      (match ReadRow(s.rows, id, c.readFails)
       case None => (s, Returned(Failure(UpdateFailed)))
       case Some(cur) => (s, PayMerged(id, m, o, tx, Merge(cur, PaidUpdate(tx, m), c.now))))
    case PayMerged(id, m, o, tx, merged) =>
      var (s', ok) := Written(s, id, merged, c.write);
      (s', if ok then PayWritten(id, m, o, tx) else Returned(Failure(UpdateFailed)))
    case PayWritten(id, m, o, tx) =>
      (CountPaid(s, m, o.totalPrice), PayCounted(id, m, o, tx))
    case PayCounted(id, m, o, tx) =>
      (s.(paidLog := s.paidLog + Copies(PaidEvent(c.eventId, o, m, tx), c.copies)), Returned(Success(tx)))
    case CancelStart(id) =>
      (match ReadRow(s.rows, id, c.readFails)
       case None => (s, Returned(Failure(OrderNotFound)))
       case Some(o) =>
         (s, if o.status == Paid then Returned(Failure(OrderAlreadyPaid))
             else if o.status == PendingPayment then CancelRead(id)
             else Returned(Success(id))))
    case CancelRead(id) =>
      (match ReadRow(s.rows, id, c.readFails)
       case None => (s, Returned(Failure(CancelFailed)))
       case Some(cur) => (s, CancelMerged(id, Merge(cur, StatusUpdate(Cancelled), c.now))))
    case CancelMerged(id, merged) =>
      var (s', ok) := Written(s, id, merged, c.write);
      (s', Returned(if ok then Success(id) else Failure(CancelFailed)))
    case AssembleStart(e) =>
      (s, if c.cancelled then Returned(Failure(ContextDone)) else AssembleBuilt(e))
    case AssembleBuilt(e) =>
      (s.(shipLog := s.shipLog + Copies(ShipEvent(c.eventId, e, c.build), c.copies)),
       Returned(if c.sendFails then Failure(SendFailed) else Success(e.orderId)))
    case CompleteStart(e) =>
      (match ReadRow(s.rows, e.orderId, c.readFails)
       case None => (s, Returned(Failure(UpdateFailed)))
       case Some(cur) => (s, CompleteMerged(e, Merge(cur, StatusUpdate(Completed), c.now))))
    case CompleteMerged(e, merged) =>
      var (s', ok) := Written(s, e.orderId, merged, c.write);
      (s', Returned(if ok then Success(e.orderId) else Failure(UpdateFailed)))
    case Returned(_) => (s, p)
  }

  /** A message may be delivered at any time, from any position, any number of times. */
  function Do(t: IState, m: Move): IState {
    match m
    case StartPay(id, payBy) => t.(procs := t.procs + [PayStart(id, payBy)])
    case StartCancel(id) => t.(procs := t.procs + [CancelStart(id)])
    case Insert(a) => if a.Create? then t.(sys := Step(t.sys, a)) else t
    case Deliver(i) =>
      if i < |t.sys.paidLog| then t.(procs := t.procs + [AssembleStart(t.sys.paidLog[i])]) else t
    case DeliverShip(i) =>
      if i < |t.sys.shipLog| then t.(procs := t.procs + [CompleteStart(t.sys.shipLog[i])]) else t
    case Advance(p, c) =>
      if p < |t.procs| then
        var (s', q) := Stage(t.sys, t.procs[p], c);
        IState(s', t.procs[p := q])
      else t
  }

  function DoAll(t: IState, ms: seq<Move>): IState
    decreases |ms|
  {
    if ms == [] then t else DoAll(Do(t, ms[0]), ms[1..])
  }

  lemma {:induction false} DoAllConcat(t: IState, ms: seq<Move>, more: seq<Move>)
    ensures DoAll(t, ms + more) == DoAll(DoAll(t, ms), more)
    decreases |ms|
  {
    if ms == [] {
      assert ms + more == more;
    } else {
      assert (ms + more)[0] == ms[0] && (ms + more)[1..] == ms[1..] + more;
      DoAllConcat(Do(t, ms[0]), ms[1..], more);
    }
  }

  // ---- The invariant across services ---------------------------------------

  /** The payment store holds tx, for this order and user, with the converted method. */
  predicate Stored(s: Sys, tx: Uuid, orderId: Uuid, userId: Uuid, m: PaymentMethod) {
    && tx in s.txs
    && s.txs[tx].uuid == tx
    && s.txs[tx].orderId == orderId
    && s.txs[tx].userId == userId
    && s.txs[tx].payBy == ToProto(m)
  }

  ghost predicate HasPaidEvent(s: Sys, orderId: Uuid, userId: Uuid) {
    exists e :: e in s.paidLog && e.orderId == orderId && e.userId == userId
  }

  /** A row, or a copy of one made at some earlier time, possibly already merged:
      same order and owner as the row, a coherent (transaction, method) pair, and a
      PAID or COMPLETED status only with the reason for it. */
  ghost predicate Coherent(s: Sys, id: Uuid, o: Order) {
    && id in s.rows && o.uuid == id && s.rows[id].userId == o.userId
    && (o.transactionId != "" ==> Stored(s, o.transactionId, id, o.userId, o.paymentMethod))
    && (o.status == Paid ==> Stored(s, o.transactionId, id, o.userId, o.paymentMethod))
    && (o.status == Completed ==> HasPaidEvent(s, id, o.userId))
  }

  ghost predicate Backed(s: Sys, e: OrderPaid) {
    Stored(s, e.transactionId, e.orderId, e.userId, e.payBy)
  }

  ghost predicate ProcOk(s: Sys, p: Proc) {
    match p
    case PayRead(id, _, o) => Coherent(s, id, o)
    case PayCharged(id, m, o, tx) => Coherent(s, id, o) && Stored(s, tx, id, o.userId, m)
    case PayMerged(id, m, o, tx, merged) =>
      Coherent(s, id, o) && Stored(s, tx, id, o.userId, m) && Coherent(s, id, merged)
    case PayWritten(id, m, o, tx) => Coherent(s, id, o) && Stored(s, tx, id, o.userId, m)
    case PayCounted(id, m, o, tx) => Coherent(s, id, o) && Stored(s, tx, id, o.userId, m)
    case CancelMerged(id, merged) => Coherent(s, id, merged)
    case AssembleStart(e) => e in s.paidLog
    case AssembleBuilt(e) => e in s.paidLog
    case CompleteStart(e) =>
      HasPaidEvent(s, e.orderId, e.userId) && e.orderId in s.rows && s.rows[e.orderId].userId == e.userId
    case CompleteMerged(e, merged) => Coherent(s, e.orderId, merged)
    case _ => true
  }

  ghost predicate SysOk(s: Sys) {
    && (forall k :: k in s.rows ==> Coherent(s, k, s.rows[k]))
    && (forall e :: e in s.paidLog ==> Backed(s, e) && e.orderId in s.rows && s.rows[e.orderId].userId == e.userId)
    && (forall e :: e in s.shipLog ==> HasPaidEvent(s, e.orderId, e.userId))
  }

  ghost predicate Ok(t: IState) {
    SysOk(t.sys) && forall p :: p in t.procs ==> ProcOk(t.sys, p)
  }

  /** What no step takes away. */
  ghost predicate Extends(s: Sys, s': Sys) {
    && (forall k :: k in s.rows ==> k in s'.rows && s'.rows[k].userId == s.rows[k].userId)
    && (forall tx :: tx in s.txs ==> tx in s'.txs && s'.txs[tx] == s.txs[tx])
    && (forall e :: e in s.paidLog ==> e in s'.paidLog)
    && (forall e :: e in s.shipLog ==> e in s'.shipLog)
  }

  lemma CoherentStays(s: Sys, s': Sys, id: Uuid, o: Order)
    requires Coherent(s, id, o) && Extends(s, s')
    ensures Coherent(s', id, o)
  {
    if o.status == Completed {
      var e :| e in s.paidLog && e.orderId == id && e.userId == o.userId;
      assert e in s'.paidLog;
    }
  }

  lemma ProcOkStays(s: Sys, s': Sys, p: Proc)
    requires ProcOk(s, p) && Extends(s, s')
    ensures ProcOk(s', p)
  {
    match p
    case PayRead(id, _, o) => CoherentStays(s, s', id, o);
    case PayCharged(id, _, o, _) => CoherentStays(s, s', id, o);
    case PayMerged(id, _, o, _, merged) => CoherentStays(s, s', id, o); CoherentStays(s, s', id, merged);
    case PayWritten(id, _, o, _) => CoherentStays(s, s', id, o);
    case PayCounted(id, _, o, _) => CoherentStays(s, s', id, o);
    case CancelMerged(id, merged) => CoherentStays(s, s', id, merged);
    case CompleteStart(e) =>
      var p :| p in s.paidLog && p.orderId == e.orderId && p.userId == e.userId;
      assert p in s'.paidLog;
    case CompleteMerged(e, merged) => CoherentStays(s, s', e.orderId, merged);
    case _ =>
  }

  /** Writing a coherent copy back over the row, whatever the row has become. */
  lemma WriteKeepsOk(s: Sys, id: Uuid, merged: Order, f: WriteFault)
    requires SysOk(s) && Coherent(s, id, merged)
    ensures var s' := Written(s, id, merged, f).0; SysOk(s') && Extends(s, s')
  {
    var s' := Written(s, id, merged, f).0;
    assert Extends(s, s');
    forall k | k in s'.rows
      ensures Coherent(s', k, s'.rows[k])
    {
      CoherentStays(s, s', k, s.rows[k]);
      CoherentStays(s, s', id, merged);
    }
    LogsStay(s, s');
  }

  lemma LogsStay(s: Sys, s': Sys)
    requires SysOk(s) && Extends(s, s') && s'.shipLog == s.shipLog && s'.paidLog == s.paidLog
    ensures forall e :: e in s'.shipLog ==> HasPaidEvent(s', e.orderId, e.userId)
    ensures forall e :: e in s'.paidLog ==> Backed(s', e)
  {
    forall e | e in s'.shipLog
      ensures HasPaidEvent(s', e.orderId, e.userId)
    {
      var p :| p in s.paidLog && p.orderId == e.orderId && p.userId == e.userId;
      assert p in s'.paidLog;
    }
  }

  lemma MergeIsCoherent(s: Sys, id: Uuid, u: OrderUpdate, now: int)
    requires SysOk(s) && id in s.rows && u.transactionId.Some? == u.paymentMethod.Some?
    requires u.transactionId.Some? ==> Stored(s, u.transactionId.value, id, s.rows[id].userId, u.paymentMethod.value)
    requires u.status == Some(Paid) ==> u.transactionId.Some?
    requires u.status == Some(Completed) ==> HasPaidEvent(s, id, s.rows[id].userId)
    ensures Coherent(s, id, Merge(s.rows[id], u, now))
  {
    assert Coherent(s, id, s.rows[id]);
  }

  /** Same rows; transactions and paid events may have been added. */
  lemma AddKeepsOk(s: Sys, s': Sys)
    requires SysOk(s) && Extends(s, s') && s'.rows == s.rows
    requires forall e :: e in s'.paidLog ==>
               e in s.paidLog || (Backed(s', e) && e.orderId in s.rows && s.rows[e.orderId].userId == e.userId)
    requires forall e :: e in s'.shipLog ==> e in s.shipLog || HasPaidEvent(s, e.orderId, e.userId)
    ensures SysOk(s')
  {
    forall k | k in s'.rows
      ensures Coherent(s', k, s'.rows[k])
    {
      CoherentStays(s, s', k, s.rows[k]);
    }
    forall e | e in s'.shipLog
      ensures HasPaidEvent(s', e.orderId, e.userId)
    {
      var p :| p in s.paidLog && p.orderId == e.orderId && p.userId == e.userId;
      assert p in s'.paidLog;
    }
  }

  ghost predicate StageOk(s: Sys, p: Proc, c: Choice) {
    var (s', q) := Stage(s, p, c);
    SysOk(s') && ProcOk(s', q) && Extends(s, s')
  }

  lemma PayBeforeWrite(s: Sys, p: Proc, c: Choice)
    requires SysOk(s) && ProcOk(s, p) && (p.PayStart? || p.PayCharged?)
    ensures StageOk(s, p, c)
  {
    if p.PayCharged? && ReadRow(s.rows, p.id, c.readFails).Some? {
      MergeIsCoherent(s, p.id, PaidUpdate(p.tx, p.payBy), c.now);
    }
  }

  lemma PayCall(s: Sys, p: Proc, c: Choice)
    requires SysOk(s) && ProcOk(s, p) && p.PayRead?
    ensures StageOk(s, p, c)
  {
    var s' := Stage(s, p, c).0;
    AddKeepsOk(s, s');
    CoherentStays(s, s', p.id, p.order);
  }

  lemma PayWrite(s: Sys, p: Proc, c: Choice)
    requires SysOk(s) && ProcOk(s, p) && p.PayMerged?
    ensures StageOk(s, p, c)
  {
    WriteKeepsOk(s, p.id, p.merged, c.write);
    CoherentStays(s, Stage(s, p, c).0, p.id, p.order);
  }

  lemma PayAfterWrite(s: Sys, p: Proc, c: Choice)
    requires SysOk(s) && ProcOk(s, p) && (p.PayWritten? || p.PayCounted?)
    ensures StageOk(s, p, c)
  {
    var s' := Stage(s, p, c).0;
    AddKeepsOk(s, s');
    CoherentStays(s, s', p.id, p.order);
  }

  lemma CancelStages(s: Sys, p: Proc, c: Choice)
    requires SysOk(s) && ProcOk(s, p) && (p.CancelStart? || p.CancelRead? || p.CancelMerged?)
    ensures StageOk(s, p, c)
  {
    if p.CancelMerged? {
      WriteKeepsOk(s, p.id, p.merged, c.write);
    } else if p.CancelRead? && ReadRow(s.rows, p.id, c.readFails).Some? {
      MergeIsCoherent(s, p.id, StatusUpdate(Cancelled), c.now);
    }
  }

  lemma CompleteStages(s: Sys, p: Proc, c: Choice)
    requires SysOk(s) && ProcOk(s, p) && (p.CompleteStart? || p.CompleteMerged?)
    ensures StageOk(s, p, c)
  {
    if p.CompleteMerged? {
      WriteKeepsOk(s, p.ship.orderId, p.merged, c.write);
    } else if ReadRow(s.rows, p.ship.orderId, c.readFails).Some? {
      MergeIsCoherent(s, p.ship.orderId, StatusUpdate(Completed), c.now);
    }
  }

  lemma AssembleStages(s: Sys, p: Proc, c: Choice)
    requires SysOk(s) && ProcOk(s, p) && (p.AssembleStart? || p.AssembleBuilt?)
    ensures StageOk(s, p, c)
  {
    if p.AssembleBuilt? {
      AddKeepsOk(s, Stage(s, p, c).0);
    }
  }

  lemma StageKeepsOk(s: Sys, p: Proc, c: Choice)
    requires SysOk(s) && ProcOk(s, p)
    ensures StageOk(s, p, c)
  {
    if p.PayStart? || p.PayCharged? {
      PayBeforeWrite(s, p, c);
    } else if p.PayRead? {
      PayCall(s, p, c);
    } else if p.PayMerged? {
      PayWrite(s, p, c);
    } else if p.PayWritten? || p.PayCounted? {
      PayAfterWrite(s, p, c);
    } else if p.CancelStart? || p.CancelRead? || p.CancelMerged? {
      CancelStages(s, p, c);
    } else if p.CompleteStart? || p.CompleteMerged? {
      CompleteStages(s, p, c);
    } else if !p.Returned? {
      AssembleStages(s, p, c);
    }
  }

  lemma InsertKeepsOk(s: Sys, a: Action)
    requires SysOk(s) && a.Create?
    ensures SysOk(Step(s, a)) && Extends(s, Step(s, a))
  {
    var s' := Step(s, a);
    if a.id !in s.rows && s' != s {
      InsertedRowKeepsOk(s, s', a.id);
    }
  }

  /** One new row, still pending and without a transaction. */
  lemma InsertedRowKeepsOk(s: Sys, s': Sys, id: Uuid)
    requires SysOk(s) && id !in s.rows && id in s'.rows && s'.rows - {id} == s.rows
    requires s'.txs == s.txs && s'.paidLog == s.paidLog && s'.shipLog == s.shipLog
    requires s'.rows[id].uuid == id && s'.rows[id].transactionId == "" && s'.rows[id].status == PendingPayment
    ensures SysOk(s') && Extends(s, s')
  {
    assert forall k :: k in s.rows ==> k in s'.rows - {id} && (s'.rows - {id})[k] == s'.rows[k];
    forall k | k in s'.rows
      ensures Coherent(s', k, s'.rows[k])
    {
      if k != id {
        assert k in s'.rows - {id};
        CoherentStays(s, s', k, s.rows[k]);
      }
    }
    LogsStay(s, s');
  }

  lemma OthersStayOk(t: IState, t': IState)
    requires Ok(t) && SysOk(t'.sys) && Extends(t.sys, t'.sys)
    requires forall q :: q in t'.procs ==> q in t.procs || ProcOk(t'.sys, q)
    ensures Ok(t')
  {
    forall q | q in t'.procs
      ensures ProcOk(t'.sys, q)
    {
      if q in t.procs {
        ProcOkStays(t.sys, t'.sys, q);
      }
    }
  }

  lemma DoKeepsOk(t: IState, m: Move)
    requires Ok(t)
    ensures Ok(Do(t, m)) && Extends(t.sys, Do(t, m).sys)
  {
    match m {
      case Insert(a) =>
        if a.Create? {
          InsertKeepsOk(t.sys, a);
        }
      case Advance(p, c) =>
        if p < |t.procs| {
          assert t.procs[p] in t.procs;
          StageKeepsOk(t.sys, t.procs[p], c);
        }
      case Deliver(i) =>
      case DeliverShip(i) =>
        if i < |t.sys.shipLog| {
          ShipIsDeliverable(t.sys, t.sys.shipLog[i]);
        }
      case _ =>
    }
    OthersStayOk(t, Do(t, m));
  }

  lemma ShipIsDeliverable(s: Sys, e: ShipAssembled)
    requires SysOk(s) && e in s.shipLog
    ensures ProcOk(s, CompleteStart(e))
  {
    var p :| p in s.paidLog && p.orderId == e.orderId && p.userId == e.userId;
  }

  lemma {:induction false} AlwaysOk(t: IState, ms: seq<Move>)
    requires Ok(t)
    ensures Ok(DoAll(t, ms)) && Extends(t.sys, DoAll(t, ms).sys)
    decreases |ms|
  {
    if ms != [] {
      DoKeepsOk(t, ms[0]);
      AlwaysOk(Do(t, ms[0]), ms[1..]);
    }
  }

  function Begin(metered: bool): IState {
    IState(Fresh(metered), [])
  }

  /** Provenance, in every interleaved run: each COMPLETED row and each ShipAssembled
      message has an OrderPaid event for that order and user, and each OrderPaid has a
      stored transaction with its order, user, transaction id and converted method. */
  lemma Provenance(metered: bool, ms: seq<Move>)
    ensures var s := DoAll(Begin(metered), ms).sys;
            && (forall k :: k in s.rows && s.rows[k].status == Completed ==> HasPaidEvent(s, k, s.rows[k].userId))
            && (forall e :: e in s.shipLog ==> HasPaidEvent(s, e.orderId, e.userId))
            && (forall e :: e in s.paidLog ==>
                  Stored(s, e.transactionId, e.orderId, e.userId, e.payBy)
                  && e.orderId in s.rows && s.rows[e.orderId].userId == e.userId)
  {
    AlwaysOk(Begin(metered), ms);
    var s := DoAll(Begin(metered), ms).sys;
    forall k | k in s.rows && s.rows[k].status == Completed
      ensures HasPaidEvent(s, k, s.rows[k].userId)
    {
      assert Coherent(s, k, s.rows[k]);
    }
  }

  /** Coherence, in every interleaved run: every row, and every snapshot a PayOrder
      holds, has no transaction id or the id of a stored transaction for that order and
      user with the converted method; a PAID row always has a stored one. */
  lemma TransactionAndMethodAgree(metered: bool, ms: seq<Move>)
    ensures var t := DoAll(Begin(metered), ms);
            && (forall k :: k in t.sys.rows ==> PairOk(t.sys, k, t.sys.rows[k]))
            && (forall p :: p in t.procs ==> forall o :: o in Snapshots(p) ==> PairOk(t.sys, o.uuid, o))
  {
    AlwaysOk(Begin(metered), ms);
    var t := DoAll(Begin(metered), ms);
    forall k | k in t.sys.rows
      ensures PairOk(t.sys, k, t.sys.rows[k])
    {
      assert Coherent(t.sys, k, t.sys.rows[k]);
    }
    forall p | p in t.procs
      ensures forall o :: o in Snapshots(p) ==> PairOk(t.sys, o.uuid, o)
    {
      assert ProcOk(t.sys, p);
    }
  }

  predicate PairOk(s: Sys, id: Uuid, o: Order) {
    && o.uuid == id && id in s.rows && s.rows[id].userId == o.userId
    && (o.transactionId == "" || Stored(s, o.transactionId, id, o.userId, o.paymentMethod))
    && (o.status == Paid ==> Stored(s, o.transactionId, id, o.userId, o.paymentMethod))
  }

  /** Every copy of a row a request or handler is holding. */
  function Snapshots(p: Proc): set<Order> {
    match p
    case PayRead(_, _, o) => {o}
    case PayCharged(_, _, o, _) => {o}
    case PayMerged(_, _, o, _, merged) => {o, merged}
    case PayWritten(_, _, o, _) => {o}
    case PayCounted(_, _, o, _) => {o}
    case CancelMerged(_, merged) => {merged}
    case CompleteMerged(_, merged) => {merged}
    case _ => {}
  }
}
