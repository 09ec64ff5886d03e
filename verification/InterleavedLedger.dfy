/** Conservation in interleaved runs that overtake nothing. */
module InterleavedLedger {
  import opened Domain
  import opened OrderProtocol
  import opened Interleaved
  import opened Overtaking
  import opened Ledger
  import opened Steadiness

  /** What a payment that is written and not yet counted will add to the account. */
  function FlightWeight(p: Proc, c: Account): int {
    if p.PayWritten? && !c.CreatedOrders? then Weight(p.order.(status := Paid, paymentMethod := p.payBy), c) else 0
  }

  function Flight(procs: seq<Proc>, c: Account): int {
    if procs == [] then 0 else FlightWeight(procs[0], c) + Flight(procs[1..], c)
  }

  lemma {:induction false} FlightUpdate(procs: seq<Proc>, i: nat, q: Proc, c: Account)
    requires i < |procs|
    ensures Flight(procs[i := q], c) == Flight(procs, c) - FlightWeight(procs[i], c) + FlightWeight(q, c)
  {
    if i == 0 {
      assert procs[0 := q][1..] == procs[1..];
    } else {
      assert procs[i := q][1..] == procs[1..][i - 1 := q];
      FlightUpdate(procs[1..], i - 1, q, c);
    }
  }

  lemma {:induction false} FlightAppend(procs: seq<Proc>, q: Proc, c: Account)
    ensures Flight(procs + [q], c) == Flight(procs, c) + FlightWeight(q, c)
  {
    if procs == [] {
      assert (procs + [q])[1..] == [];
    } else {
      assert (procs + [q])[1..] == procs[1..] + [q];
      FlightAppend(procs[1..], q, c);
    }
  }

  /** What this move leaves uncounted for ever: an INSERT, or a payment's UPDATE, that
      takes effect while reporting an error. */
  function UnreportedBy(t: IState, m: Move, c: Account): int {
    match m
    case Insert(a) => if a.Create? then UncountedBy(t.sys, a, c) else 0
    case Advance(p, choice) =>
      if p < |t.procs| && t.procs[p].PayMerged? && choice.write.FailedAfter? && !c.CreatedOrders?
      then WeightAt(Do(t, m).sys.rows, t.procs[p].id, c) else 0
    case _ => 0
  }

  function AllUnreported(t: IState, ms: seq<Move>, c: Account): int
    decreases |ms|
  {
    if ms == [] then 0 else UnreportedBy(t, ms[0], c) + AllUnreported(Do(t, ms[0]), ms[1..], c)
  }

  /** How far the counter is behind the table, payments in flight aside. */
  ghost function Gap(t: IState, c: Account): int
    requires t.sys.meter.Some?
  {
    TableTotal(t.sys.rows, c) - Counter(t.sys.meter.value, c) - Flight(t.procs, c)
  }

  lemma WriteTotal(rows: map<Uuid, Order>, id: Uuid, merged: Order, c: Account)
    ensures TableTotal(WriteRow(rows, id, merged), c) ==
            TableTotal(rows, c) + WeightAt(WriteRow(rows, id, merged), id, c) - WeightAt(rows, id, c)
  {
    if id in rows {
      TableTotalPut(rows, id, WriteRow(rows, id, merged)[id], c);
    }
  }

  ghost predicate GapGrowsBy(t: IState, m: Move, c: Account)
    requires t.sys.meter.Some?
  {
    Do(t, m).sys.meter.Some? && Gap(Do(t, m), c) == Gap(t, c) + UnreportedBy(t, m, c)
  }

  lemma PayWriteGap(t: IState, m: Move, c: Account)
    requires Steady(t) && !Overtaken(t, m) && t.sys.meter.Some?
    requires m.Advance? && m.p < |t.procs| && t.procs[m.p].PayMerged?
    ensures GapGrowsBy(t, m, c)
  {
    var p := t.procs[m.p];
    assert p in t.procs;
    assert SteadyProc(t.sys, p) && InStepProc(t.sys, p);
    FlightUpdate(t.procs, m.p, Do(t, m).procs[m.p], c);
    WriteTotal(t.sys.rows, p.id, p.merged, c);
  }

  lemma OtherWriteGap(t: IState, m: Move, c: Account)
    requires Steady(t) && !Overtaken(t, m) && t.sys.meter.Some?
    requires m.Advance? && m.p < |t.procs| && (t.procs[m.p].CancelMerged? || t.procs[m.p].CompleteMerged?)
    ensures GapGrowsBy(t, m, c)
  {
    var p := t.procs[m.p];
    assert p in t.procs;
    assert SteadyProc(t.sys, p) && InStepProc(t.sys, p);
    FlightUpdate(t.procs, m.p, Do(t, m).procs[m.p], c);
    WriteTotal(t.sys.rows, if p.CancelMerged? then p.id else p.ship.orderId, p.merged, c);
  }

  lemma QuietGap(t: IState, m: Move, c: Account)
    requires t.sys.meter.Some? && m.Advance? && m.p < |t.procs|
    requires !t.procs[m.p].PayMerged? && !t.procs[m.p].CancelMerged? && !t.procs[m.p].CompleteMerged?
    ensures GapGrowsBy(t, m, c)
  {
    FlightUpdate(t.procs, m.p, Do(t, m).procs[m.p], c);
  }

  lemma DoGap(t: IState, m: Move, c: Account)
    requires Steady(t) && !Overtaken(t, m) && t.sys.meter.Some?
    ensures GapGrowsBy(t, m, c)
  {
    if m.Advance? && m.p < |t.procs| {
      var p := t.procs[m.p];
      if p.PayMerged? {
        PayWriteGap(t, m, c);
      } else if p.CancelMerged? || p.CompleteMerged? {
        OtherWriteGap(t, m, c);
      } else {
        QuietGap(t, m, c);
      }
    } else if m.Insert? {
      if m.create.Create? {
        CreateLedger(t.sys, m.create, c);
      }
    } else if Do(t, m) != t {
      FlightAppend(t.procs, Do(t, m).procs[|t.procs|], c);
    }
  }

  lemma {:induction false} RunGap(t: IState, ms: seq<Move>, c: Account)
    requires Steady(t) && NothingOvertaken(t, ms) && t.sys.meter.Some?
    ensures DoAll(t, ms).sys.meter.Some? && Gap(DoAll(t, ms), c) == Gap(t, c) + AllUnreported(t, ms, c)
    decreases |ms|
  {
    if ms != [] {
      DoGap(t, ms[0], c);
      DoKeepsSteady(t, ms[0]);
      RunGap(Do(t, ms[0]), ms[1..], c);
    }
  }

  /** Conservation, for every interleaved run that overtakes nothing and every account:
      the table's total is what was counted, plus the payments written and not yet
      counted, plus what was written but reported as failed. For the paid counter, the
      total is the number of settled orders. */
  lemma CountersMatchUnlessOvertaken(ms: seq<Move>, c: Account)
    requires NothingOvertaken(Begin(true), ms)
    ensures var t := DoAll(Begin(true), ms);
            && t.sys.meter.Some?
            && TableTotal(t.sys.rows, c) ==
               Counter(t.sys.meter.value, c) + Flight(t.procs, c) + AllUnreported(Begin(true), ms, c)
            && TableTotal(t.sys.rows, PaidOrders) == |PaidAmong(t.sys.rows, t.sys.rows.Keys)|
  {
    BeginSteady(true);
    RunGap(Begin(true), ms, c);
    var t := DoAll(Begin(true), ms);
    TotalsAreHeadCounts(t.sys.rows, t.sys.rows.Keys);
  }
}
