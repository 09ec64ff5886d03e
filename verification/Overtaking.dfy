/** Exactly which interleaved runs keep what every serialised run keeps. */
module Overtaking {
  import opened Domain
  import opened OrderProtocol
  import opened Serialised
  import opened Interleaved

  /** This move is the UPDATE of a payment for the order, and it takes effect. */
  predicate Pays(t: IState, m: Move, id: Uuid) {
    && m.Advance? && m.p < |t.procs| && !m.c.write.FailedBefore?
    && t.procs[m.p].PayMerged? && t.procs[m.p].id == id && id in t.sys.rows
  }

  /** The order has been overtaken since it was read: an UPDATE takes effect that pays
      an order no longer pending, or cancels one already paid or completed. A WHERE
      clause on the status would stop both. */
  ghost predicate Overtaken(t: IState, m: Move) {
    && m.Advance? && m.p < |t.procs| && !m.c.write.FailedBefore?
    && match t.procs[m.p]
       case PayMerged(id, _, _, _, _) => id in t.sys.rows && t.sys.rows[id].status != PendingPayment
       case CancelMerged(id, _) => Settled(t.sys, id)
       case _ => false
  }

  // ---- The invariant as long as nothing is overtaken --------------------------

  /** Merged copies carry their request's status; everything past a payment's UPDATE
      names a settled order. */
  ghost predicate InStepProc(s: Sys, p: Proc) {
    match p
    case PayMerged(_, _, _, _, merged) => merged.status == Paid
    case PayWritten(id, _, _, _) => Settled(s, id)
    case PayCounted(id, _, _, _) => Settled(s, id)
    case CancelMerged(_, merged) => merged.status == Cancelled
    case AssembleStart(e) => Settled(s, e.orderId)
    case AssembleBuilt(e) => Settled(s, e.orderId)
    case CompleteStart(e) => Settled(s, e.orderId)
    case CompleteMerged(e, merged) => Settled(s, e.orderId) && merged.status == Completed
    case _ => true
  }

  ghost predicate InStep(t: IState) {
    && Ok(t)
    && (forall e :: e in t.sys.paidLog ==> Settled(t.sys, e.orderId))
    && (forall e :: e in t.sys.shipLog ==> Settled(t.sys, e.orderId))
    && (forall p :: p in t.procs ==> InStepProc(t.sys, p))
  }

  /** One stage that overtakes nothing. */
  ghost predicate StageInStep(s: Sys, p: Proc, c: Choice) {
    var (s', q) := Stage(s, p, c);
    && Moves(s, s') && InStepProc(s', q)
    && (forall id :: Settled(s', id) <==> Settled(s, id) || (Pays(IState(s, [p]), Advance(0, c), id)))
    && (forall e :: e in s'.paidLog ==> e in s.paidLog || Settled(s, e.orderId))
    && (forall e :: e in s'.shipLog ==> e in s.shipLog || Settled(s, e.orderId))
  }

  lemma StageStaysInStep(s: Sys, p: Proc, c: Choice)
    requires ProcOk(s, p) && InStepProc(s, p) && !Overtaken(IState(s, [p]), Advance(0, c))
    ensures StageInStep(s, p, c)
  {
    if p.PayMerged? || p.CancelMerged? || p.CompleteMerged? {
      WriteStaysInStep(s, p, c);
    }
  }

  lemma WriteStaysInStep(s: Sys, p: Proc, c: Choice)
    requires ProcOk(s, p) && InStepProc(s, p) && !Overtaken(IState(s, [p]), Advance(0, c))
    requires p.PayMerged? || p.CancelMerged? || p.CompleteMerged?
    ensures StageInStep(s, p, c)
  {
  }

  lemma DoStaysInStep(t: IState, m: Move)
    requires InStep(t) && !Overtaken(t, m)
    ensures InStep(Do(t, m)) && Moves(t.sys, Do(t, m).sys)
    ensures forall id :: Settled(Do(t, m).sys, id) <==> Settled(t.sys, id) || Pays(t, m, id)
  {
    DoKeepsOk(t, m);
    if m.Advance? && m.p < |t.procs| {
      AdvanceStaysInStep(t, m);
    } else {
      StartStaysInStep(t, m);
    }
  }

  lemma AdvanceStaysInStep(t: IState, m: Move)
    requires InStep(t) && !Overtaken(t, m) && m.Advance? && m.p < |t.procs| && Ok(Do(t, m))
    ensures InStep(Do(t, m)) && Moves(t.sys, Do(t, m).sys)
    ensures forall id :: Settled(Do(t, m).sys, id) <==> Settled(t.sys, id) || Pays(t, m, id)
  {
    var p := t.procs[m.p];
    assert p in t.procs;
    assert ProcOk(t.sys, p);
    StageStaysInStep(t.sys, p, m.c);
    var (s', p') := Stage(t.sys, p, m.c);
    assert forall id :: Pays(IState(t.sys, [p]), Advance(0, m.c), id) <==> Pays(t, m, id);
    OthersStayInStep(t, m.p, s', p');
  }

  lemma OthersStayInStep(t: IState, p: nat, s': Sys, p': Proc)
    requires InStep(t) && p < |t.procs| && InStepProc(s', p')
    requires forall id :: Settled(t.sys, id) ==> Settled(s', id)
    ensures forall q :: q in t.procs[p := p'] ==> InStepProc(s', q)
  {
    forall q | q in t.procs[p := p']
      ensures InStepProc(s', q)
    {
      if q in t.procs {
        SettledProcStays(t.sys, s', q);
      }
    }
  }

  /** A call or delivery begins, or a new order is inserted. */
  lemma StartStaysInStep(t: IState, m: Move)
    requires InStep(t) && !(m.Advance? && m.p < |t.procs|) && Ok(Do(t, m))
    ensures InStep(Do(t, m)) && Moves(t.sys, Do(t, m).sys)
    ensures forall id :: Settled(Do(t, m).sys, id) <==> Settled(t.sys, id)
  {
    if m.Insert? {
      InsertStaysInStep(t, m);
    } else {
      assert Do(t, m).sys == t.sys;
    }
  }

  lemma InsertShape(s: Sys, a: Action)
    requires a.Create?
    ensures var s' := Step(s, a);
            && s'.paidLog == s.paidLog && s'.shipLog == s.shipLog
            && (s'.rows == s.rows
                || (a.id !in s.rows && a.id in s'.rows && s'.rows[a.id].status == PendingPayment
                    && s'.rows == s.rows[a.id := s'.rows[a.id]]))
  {
  }

  lemma InsertStaysInStep(t: IState, m: Move)
    requires InStep(t) && m.Insert? && Ok(Do(t, m))
    ensures InStep(Do(t, m)) && Moves(t.sys, Do(t, m).sys)
    ensures forall id :: Settled(Do(t, m).sys, id) <==> Settled(t.sys, id)
  {
    if m.create.Create? {
      InsertShape(t.sys, m.create);
    }
    var t' := Do(t, m);
    assert forall id :: Settled(t'.sys, id) <==> Settled(t.sys, id);
    forall q | q in t.procs
      ensures InStepProc(t'.sys, q)
    {
      SettledProcStays(t.sys, t'.sys, q);
    }
  }

  lemma SettledProcStays(s: Sys, s': Sys, p: Proc)
    requires InStepProc(s, p) && forall id :: Settled(s, id) ==> Settled(s', id)
    ensures InStepProc(s', p)
  {
  }

  /** A write that overtakes takes a forbidden step, or is a second payment. */
  lemma OvertakingBreaks(t: IState, m: Move)
    requires InStep(t) && Overtaken(t, m)
    ensures !Moves(t.sys, Do(t, m).sys) || exists id :: Pays(t, m, id) && Settled(t.sys, id)
  {
    var p := t.procs[m.p];
    assert p in t.procs;
    var s' := Stage(t.sys, p, m.c).0;
    assert s'.rows[p.id].status == p.merged.status;
    if Moves(t.sys, s') {
      assert Edge(t.sys.rows[p.id].status, s'.rows[p.id].status);
      assert Pays(t, m, p.id);
    }
  }

  // ---- Whole runs -------------------------------------------------------------

  ghost predicate NothingOvertaken(t: IState, ms: seq<Move>)
    decreases |ms|
  {
    ms == [] || (!Overtaken(t, ms[0]) && NothingOvertaken(Do(t, ms[0]), ms[1..]))
  }

  /** Every move takes every order along an edge, and removes none. */
  ghost predicate AllMoves(t: IState, ms: seq<Move>)
    decreases |ms|
  {
    ms == [] || (Moves(t.sys, Do(t, ms[0]).sys) && AllMoves(Do(t, ms[0]), ms[1..]))
  }

  /** How many payments of the order take effect. */
  function Payments(t: IState, ms: seq<Move>, id: Uuid): nat
    decreases |ms|
  {
    if ms == [] then 0 else (if Pays(t, ms[0], id) then 1 else 0) + Payments(Do(t, ms[0]), ms[1..], id)
  }

  function Allowed(s: Sys, id: Uuid): nat {
    if id in s.rows && (s.rows[id].status == Paid || s.rows[id].status == Completed) then 0 else 1
  }

  lemma {:induction false} OvertakingFrom(t: IState, ms: seq<Move>)
    requires InStep(t)
    ensures NothingOvertaken(t, ms) <==>
            AllMoves(t, ms) && forall id :: Payments(t, ms, id) <= Allowed(t.sys, id)
    decreases |ms|
  {
    if ms != [] {
      var m, t' := ms[0], Do(t, ms[0]);
      if Overtaken(t, m) {
        OvertakingBreaks(t, m);
        if AllMoves(t, ms) {
          var id :| Pays(t, m, id) && Settled(t.sys, id);
          assert Payments(t, ms, id) > Allowed(t.sys, id);
        }
      } else {
        DoStaysInStep(t, m);
        OvertakingFrom(t', ms[1..]);
        forall id
          ensures Payments(t, ms, id) <= Allowed(t.sys, id) <==> Payments(t', ms[1..], id) <= Allowed(t'.sys, id)
        {
          PaymentUsesAllowance(t, m, id);
        }
      }
    }
  }

  lemma PaymentUsesAllowance(t: IState, m: Move, id: Uuid)
    requires InStep(t) && !Overtaken(t, m)
    ensures Allowed(t.sys, id) == Allowed(Do(t, m).sys, id) + (if Pays(t, m, id) then 1 else 0)
  {
    DoStaysInStep(t, m);
    assert Settled(Do(t, m).sys, id) <==> Settled(t.sys, id) || Pays(t, m, id);
  }

  lemma BeginInStep(metered: bool)
    ensures InStep(Begin(metered))
  {
  }

  /** Exactly when an interleaved run is as safe as a serialised one: every move takes
      every order along an edge and at most one payment of each order takes effect, if
      and only if no UPDATE overtakes. Only payments and cancellations can overtake: the
      order consumer's unguarded write never is the first to break the order. */
  lemma SafeUnlessOvertaken(metered: bool, ms: seq<Move>)
    ensures NothingOvertaken(Begin(metered), ms) <==>
            AllMoves(Begin(metered), ms) && forall id :: Payments(Begin(metered), ms, id) <= 1
  {
    BeginInStep(metered);
    OvertakingFrom(Begin(metered), ms);
  }

  // ---- What follows for a run in which nothing is overtaken ---------------------

  /** A payment whose UPDATE succeeded and which has not published yet. */
  predicate InFlight(p: Proc, id: Uuid) {
    (p.PayWritten? || p.PayCounted?) && p.id == id
  }

  /** A settled order has one such payment or one distinct event, not both. */
  ghost predicate OneEach(t: IState) {
    && (forall e, e' :: e in t.sys.paidLog && e' in t.sys.paidLog && e.orderId == e'.orderId ==> e == e')
    && (forall i, e :: 0 <= i < |t.procs| && e in t.sys.paidLog ==> !InFlight(t.procs[i], e.orderId))
    && (forall i, j, id :: 0 <= i < j < |t.procs| && InFlight(t.procs[i], id) ==> !InFlight(t.procs[j], id))
  }

  ghost predicate Underway(t: IState, id: Uuid) {
    exists i :: 0 <= i < |t.procs| && InFlight(t.procs[i], id)
  }

  /** The stage after which a PayOrder call returns success. */
  predicate Succeeds(t: IState, m: Move, id: Uuid) {
    m.Advance? && m.p < |t.procs| && t.procs[m.p].PayCounted? && t.procs[m.p].id == id
  }

  function Successes(t: IState, ms: seq<Move>, id: Uuid): nat
    decreases |ms|
  {
    if ms == [] then 0 else (if Succeeds(t, ms[0], id) then 1 else 0) + Successes(Do(t, ms[0]), ms[1..], id)
  }

  lemma DoKeepsOneEach(t: IState, m: Move)
    requires InStep(t) && OneEach(t) && !Overtaken(t, m)
    ensures OneEach(Do(t, m))
  {
    if m.Advance? && m.p < |t.procs| {
      var p := t.procs[m.p];
      assert p in t.procs;
      assert ProcOk(t.sys, p);
      if p.PayCounted? {
        PublishKeepsOneEach(t, m);
      } else {
        OtherStagesPublishNothing(t, m);
        OtherStagesKeepOneEach(t, m.p, Do(t, m));
      }
    } else if m.Insert? && m.create.Create? {
      InsertShape(t.sys, m.create);
    }
  }

  lemma OtherStagesPublishNothing(t: IState, m: Move)
    requires InStep(t) && !Overtaken(t, m) && m.Advance? && m.p < |t.procs| && !t.procs[m.p].PayCounted?
    ensures Do(t, m).sys.paidLog == t.sys.paidLog
    ensures forall id :: InFlight(Do(t, m).procs[m.p], id) ==> InFlight(t.procs[m.p], id) || Unnamed(t, id)
  {
    var p := t.procs[m.p];
    if p.PayMerged? && Do(t, m).procs[m.p].PayWritten? {
      NothingNamesPending(t, p.id);
    }
  }

  /** Neither a payment in flight nor an event is about this order. */
  ghost predicate Unnamed(t: IState, id: Uuid) {
    && (forall i :: 0 <= i < |t.procs| ==> !InFlight(t.procs[i], id))
    && (forall e :: e in t.sys.paidLog ==> e.orderId != id)
  }

  lemma OtherStagesKeepOneEach(t: IState, p: nat, t': IState)
    requires OneEach(t) && p < |t.procs| && t'.sys.paidLog == t.sys.paidLog
    requires |t'.procs| == |t.procs| && t'.procs == t.procs[p := t'.procs[p]]
    requires forall id :: InFlight(t'.procs[p], id) ==> InFlight(t.procs[p], id) || Unnamed(t, id)
    ensures OneEach(t')
  {
  }

  lemma PublishKeepsOneEach(t: IState, m: Move)
    requires OneEach(t) && m.Advance? && m.p < |t.procs| && t.procs[m.p].PayCounted?
    requires t.procs[m.p].order.uuid == t.procs[m.p].id
    ensures OneEach(Do(t, m))
  {
    var p := t.procs[m.p];
    var e := PaidEvent(m.c.eventId, p.order, p.payBy, p.tx);
    assert forall e' :: e' in Do(t, m).sys.paidLog ==> e' in t.sys.paidLog || e' == e;
    assert InFlight(p, e.orderId);
  }

  lemma NothingNamesPending(t: IState, id: Uuid)
    requires InStep(t) && !Settled(t.sys, id)
    ensures Unnamed(t, id)
  {
    forall i | 0 <= i < |t.procs|
      ensures !InFlight(t.procs[i], id)
    {
      assert t.procs[i] in t.procs;
    }
  }

  /** How many more calls can succeed: the one in flight, or one if none has paid. */
  ghost function Hopes(t: IState, id: Uuid): nat {
    if Underway(t, id) then 1 else Allowed(t.sys, id)
  }

  /** Only its own UPDATE puts a payment in flight. */
  lemma UnderwayBegins(t: IState, m: Move, id: Uuid)
    requires Underway(Do(t, m), id)
    ensures Underway(t, id) || Pays(t, m, id)
  {
    var procs' := Do(t, m).procs;
    var i :| 0 <= i < |procs'| && InFlight(procs'[i], id);
    if i < |t.procs| && InFlight(t.procs[i], id) {
      assert Underway(t, id);
    }
  }

  /** Returning success takes it out of flight, and there was no other. */
  lemma UnderwayEnds(t: IState, m: Move, id: Uuid)
    requires OneEach(t) && Succeeds(t, m, id)
    ensures Underway(t, id) && !Underway(Do(t, m), id)
  {
    assert InFlight(t.procs[m.p], id);
    forall i | 0 <= i < |Do(t, m).procs|
      ensures !InFlight(Do(t, m).procs[i], id)
    {
      assert i < m.p || i == m.p || i > m.p;
    }
  }

  lemma SuccessUsesHope(t: IState, m: Move, id: Uuid)
    requires InStep(t) && OneEach(t) && !Overtaken(t, m)
    ensures (if Succeeds(t, m, id) then 1 else 0) + Hopes(Do(t, m), id) <= Hopes(t, id)
  {
    PaymentUsesAllowance(t, m, id);
    if Succeeds(t, m, id) {
      UnderwayEnds(t, m, id);
      SettledWhenUnderway(t, id);
    } else if Underway(Do(t, m), id) {
      UnderwayBegins(t, m, id);
    }
  }

  lemma SettledWhenUnderway(t: IState, id: Uuid)
    requires InStep(t) && Underway(t, id)
    ensures Settled(t.sys, id)
  {
    var i :| 0 <= i < |t.procs| && InFlight(t.procs[i], id);
    assert t.procs[i] in t.procs;
  }

  lemma {:induction false} NothingOvertakenFrom(t: IState, ms: seq<Move>, id: Uuid)
    requires InStep(t) && OneEach(t) && NothingOvertaken(t, ms)
    ensures InStep(DoAll(t, ms)) && OneEach(DoAll(t, ms))
    ensures Successes(t, ms, id) <= Hopes(t, id)
    ensures id in t.sys.rows ==>
              var now, later := t.sys, DoAll(t, ms).sys;
              && id in later.rows
              && Reaches(now.rows[id].status, later.rows[id].status)
              && (now.rows[id].status == Cancelled ==> later.rows[id].status == Cancelled)
              && (Settled(now, id) ==> Settled(later, id))
    decreases |ms|
  {
    if ms != [] {
      DoStaysInStep(t, ms[0]);
      DoKeepsOneEach(t, ms[0]);
      SuccessUsesHope(t, ms[0], id);
      NothingOvertakenFrom(Do(t, ms[0]), ms[1..], id);
    }
  }

  lemma {:induction false} NothingOvertakenSplits(t: IState, before: seq<Move>, after: seq<Move>)
    ensures NothingOvertaken(t, before + after) <==>
            NothingOvertaken(t, before) && NothingOvertaken(DoAll(t, before), after)
    decreases |before|
  {
    if before == [] {
      assert before + after == after;
    } else {
      assert (before + after)[0] == before[0] && (before + after)[1..] == before[1..] + after;
      NothingOvertakenSplits(Do(t, before[0]), before[1..], after);
    }
  }

  /** The serialised guarantees, for every interleaved run in which nothing is
      overtaken: between any two moments statuses only move forward, no cancelled order
      completes and no settled one is cancelled; at most one PayOrder call per order
      succeeds; and all OrderPaid events of an order are one event. */
  lemma NothingOvertakenMeans(metered: bool, before: seq<Move>, after: seq<Move>, id: Uuid)
    requires NothingOvertaken(Begin(metered), before + after)
    ensures var now, later := DoAll(Begin(metered), before).sys, DoAll(Begin(metered), before + after).sys;
            && (id in now.rows ==>
                  && id in later.rows
                  && Reaches(now.rows[id].status, later.rows[id].status)
                  && (now.rows[id].status == Cancelled ==> later.rows[id].status == Cancelled)
                  && (Settled(now, id) ==> Settled(later, id)))
            && Successes(Begin(metered), before + after, id) <= 1
            && (forall e, e' :: e in later.paidLog && e' in later.paidLog && e.orderId == e'.orderId ==> e == e')
  {
    BeginInStep(metered);
    NothingOvertakenSplits(Begin(metered), before, after);
    DoAllConcat(Begin(metered), before, after);
    NothingOvertakenFrom(Begin(metered), before, id);
    NothingOvertakenFrom(DoAll(Begin(metered), before), after, id);
    NothingOvertakenFrom(Begin(metered), before + after, id);
  }
}
