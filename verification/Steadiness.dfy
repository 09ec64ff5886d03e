/** While nothing is overtaken, what the copies held by requests and handlers still share
    with the rows they were made of, however stale they are. */
module Steadiness {
  import opened Domain
  import opened Serialised
  import opened Interleaved
  import opened Overtaking
  import opened Ledger

  predicate SamePair(o: Order, o': Order) {
    o.transactionId == o'.transactionId && o.paymentMethod == o'.paymentMethod
  }

  /** The part of a payment's snapshot that no step may touch; and the transaction and
      method a merged copy would write back, as long as that write could matter. */
  ghost predicate SteadyProc(s: Sys, p: Proc) {
    match p
    case PayRead(id, _, o) => id in s.rows && SameOrder(s.rows[id], o)
    case PayCharged(id, _, o, _) => id in s.rows && SameOrder(s.rows[id], o)
    case PayMerged(id, m, o, tx, merged) =>
      id in s.rows && SameOrder(s.rows[id], o) && merged.transactionId == tx && merged.paymentMethod == m
    case PayWritten(id, _, o, _) => id in s.rows && SameOrder(s.rows[id], o)
    case PayCounted(id, _, o, _) => id in s.rows && SameOrder(s.rows[id], o)
    case CancelMerged(id, merged) => id in s.rows && (Settled(s, id) || SamePair(s.rows[id], merged))
    case CompleteStart(e) => e in s.shipLog
    case CompleteMerged(e, merged) => e in s.shipLog && e.orderId in s.rows && SamePair(s.rows[e.orderId], merged)
    case _ => true
  }

  ghost predicate Steady(t: IState) {
    InStep(t) && forall p :: p in t.procs ==> SteadyProc(t.sys, p)
  }

  /** What a move that overtakes nothing leaves alone in every row. */
  ghost predicate RowsSteady(t: IState, m: Move) {
    forall id :: id in t.sys.rows ==>
      && id in Do(t, m).sys.rows && SameOrder(t.sys.rows[id], Do(t, m).sys.rows[id])
      && (Pays(t, m, id) || SamePair(t.sys.rows[id], Do(t, m).sys.rows[id]))
  }

  lemma AdvanceKeepsRowsSteady(t: IState, m: Move)
    requires Steady(t) && !Overtaken(t, m) && m.Advance? && m.p < |t.procs|
    ensures RowsSteady(t, m)
  {
    var p := t.procs[m.p];
    assert p in t.procs;
    assert SteadyProc(t.sys, p) && InStepProc(t.sys, p);
  }

  lemma DoKeepsRowsSteady(t: IState, m: Move)
    requires Steady(t) && !Overtaken(t, m)
    ensures RowsSteady(t, m)
  {
    if m.Advance? && m.p < |t.procs| {
      AdvanceKeepsRowsSteady(t, m);
    } else if m.Insert? && m.create.Create? {
      InsertShape(t.sys, m.create);
    }
  }

  lemma OtherProcStaysSteady(t: IState, m: Move, p: Proc)
    requires Steady(t) && !Overtaken(t, m) && RowsSteady(t, m) && p in t.procs
    ensures SteadyProc(Do(t, m).sys, p)
  {
    DoStaysInStep(t, m);
    DoKeepsOk(t, m);
    assert SteadyProc(t.sys, p) && InStepProc(t.sys, p);
    if p.CompleteMerged? {
      assert Settled(t.sys, p.ship.orderId);
    }
  }

  /** A stage that only reads copies the row as it is. */
  lemma ReadIsSteady(s: Sys, p: Proc, c: Choice)
    requires ProcOk(s, p) && SteadyProc(s, p)
    requires p.PayStart? || p.PayCharged? || p.CancelStart? || p.CancelRead? || p.CompleteStart? || p.AssembleStart?
    ensures SteadyProc(Stage(s, p, c).0, Stage(s, p, c).1)
  {
  }

  lemma NewProcIsSteady(t: IState, m: Move)
    requires Steady(t) && !Overtaken(t, m) && RowsSteady(t, m) && m.Advance? && m.p < |t.procs|
    ensures SteadyProc(Do(t, m).sys, Do(t, m).procs[m.p])
  {
    var p := t.procs[m.p];
    assert p in t.procs;
    assert SteadyProc(t.sys, p) && ProcOk(t.sys, p);
    if p.PayRead? || p.PayMerged? || p.PayWritten? || p.PayCounted? {
      assert SameOrder(t.sys.rows[p.id], Do(t, m).sys.rows[p.id]);
    } else if !p.CancelMerged? && !p.CompleteMerged? && !p.AssembleBuilt? && !p.Returned? {
      ReadIsSteady(t.sys, p, m.c);
    }
  }

  lemma DoKeepsSteady(t: IState, m: Move)
    requires Steady(t) && !Overtaken(t, m)
    ensures Steady(Do(t, m)) && RowsSteady(t, m)
  {
    DoStaysInStep(t, m);
    DoKeepsRowsSteady(t, m);
    var t' := Do(t, m);
    forall q | q in t'.procs
      ensures SteadyProc(t'.sys, q)
    {
      if q in t.procs {
        OtherProcStaysSteady(t, m, q);
      } else if m.Advance? {
        NewProcIsSteady(t, m);
      }
    }
  }

  lemma BeginSteady(metered: bool)
    ensures Steady(Begin(metered))
  {
    BeginInStep(metered);
  }
}
