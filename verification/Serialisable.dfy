/** Every interleaved run that overtakes nothing is equivalent to a serialised run. Each
    call is placed at its UPDATE; a payment whose charge takes effect but whose UPDATE
    never does, at its first read; an assembly at its publish. */
module Serialisable {
  import opened Wrappers
  import opened Domain
  import opened OrderProtocol
  import opened Serialised
  import opened Interleaved
  import opened Overtaking
  import opened Ledger
  import opened Delivery
  import opened Steadiness

  // ---- What a request will still do -------------------------------------------

  datatype Fate = Fate(charges: Option<Uuid>, writes: bool, eventId: Uuid, copies: nat)

  const NOTHING := Fate(None, false, "", 0)

  predicate Charges(t: IState, m: Move) {
    && m.Advance? && m.p < |t.procs| && t.procs[m.p].PayRead?
    && m.c.newTx !in t.sys.txs && m.c.newTx in Do(t, m).sys.txs
  }

  /** The charge, UPDATE and publish that the request at this position makes in the moves
      that remain. */
  function FateOf(t: IState, ms: seq<Move>, p: nat): Fate
    decreases |ms|
  {
    if ms == [] then NOTHING
    else
      var m, rest := ms[0], FateOf(Do(t, ms[0]), ms[1..], p);
      if !(m.Advance? && m.p == p && p < |t.procs|) then rest
      else
        match t.procs[p]
        case PayRead(_, _, _) => rest.(charges := if Charges(t, m) then Some(m.c.newTx) else None)
        case PayMerged(id, _, _, _, _) => rest.(writes := Pays(t, m, id))
        case PayCounted(_, _, _, _) => rest.(eventId := m.c.eventId, copies := m.c.copies)
        case Returned(_) => NOTHING
        case _ => rest
  }

  /** A returned request does nothing more. */
  lemma {:induction false} ReturnedDoesNothing(t: IState, ms: seq<Move>, p: nat)
    requires p < |t.procs| && t.procs[p].Returned?
    ensures FateOf(t, ms, p) == NOTHING
    decreases |ms|
  {
    if ms != [] {
      ReturnedDoesNothing(Do(t, ms[0]), ms[1..], p);
    }
  }

  lemma StepGrowsTxs(t: IState, m: Move)
    ensures forall a :: a in t.sys.txs ==> a in Do(t, m).sys.txs && Do(t, m).sys.txs[a] == t.sys.txs[a]
    ensures |t.procs| <= |Do(t, m).procs|
  {
  }

  lemma {:induction false} TxsGrow(t: IState, ms: seq<Move>)
    ensures forall a :: a in t.sys.txs ==> a in DoAll(t, ms).sys.txs && DoAll(t, ms).sys.txs[a] == t.sys.txs[a]
    decreases |ms|
  {
    if ms != [] {
      StepGrowsTxs(t, ms[0]);
      TxsGrow(Do(t, ms[0]), ms[1..]);
    }
  }

  /** The transaction of a charge yet to come is new, and no other charge's. */
  lemma {:induction false} ChargeIsNew(t: IState, ms: seq<Move>, p: nat, q: nat)
    ensures FateOf(t, ms, p).charges.Some? ==> FateOf(t, ms, p).charges.value !in t.sys.txs
    ensures p != q && FateOf(t, ms, p).charges.Some? ==> FateOf(t, ms, p).charges != FateOf(t, ms, q).charges
    decreases |ms|
  {
    if ms != [] {
      var m, t' := ms[0], Do(t, ms[0]);
      StepGrowsTxs(t, m);
      ChargeIsNew(t', ms[1..], p, q);
      ChargeIsNew(t', ms[1..], q, p);
    }
  }

  function ChargedAs(tx: Uuid, p: Proc): Transaction
    requires p.PayRead?
  {
    Transaction(tx, p.order.uuid, p.order.userId, ToProto(p.payBy), 0)
  }

  /** And it is the one the request's own snapshot gives. */
  lemma {:induction false} ChargeIsOwn(t: IState, ms: seq<Move>, p: nat)
    requires p < |t.procs| && t.procs[p].PayRead? && FateOf(t, ms, p).charges.Some?
    ensures var tx, txs := FateOf(t, ms, p).charges.value, DoAll(t, ms).sys.txs;
            && tx in txs && txs[tx] == ChargedAs(tx, t.procs[p])
            && t.procs[p].order.uuid != "" && t.procs[p].order.userId != ""
    decreases |ms|
  {
    var m, t' := ms[0], Do(t, ms[0]);
    if m.Advance? && m.p == p {
      TxsGrow(t', ms[1..]);
    } else {
      assert t'.procs[p] == t.procs[p];
      ChargeIsOwn(t', ms[1..], p);
    }
  }

  // ---- Which transactions the serialised run holds by now -------------------------

  /** No two payments between charge and UPDATE share a transaction, which is stored. */
  ghost predicate Owned(t: IState) {
    && (forall tx :: tx in t.sys.txs ==> t.sys.txs[tx].amount == 0)
    && (forall i :: 0 <= i < |t.procs| && HasTx(t.procs[i]) ==>
          t.procs[i].tx in t.sys.txs && t.procs[i].order.uuid != "" && t.procs[i].order.userId != "")
    && (forall i, j :: 0 <= i < j < |t.procs| && HasTx(t.procs[i]) && HasTx(t.procs[j]) ==>
          t.procs[i].tx != t.procs[j].tx)
  }

  predicate HasTx(p: Proc) {
    p.PayCharged? || p.PayMerged?
  }

  lemma OwnedAfter(t: IState, p: nat, s': Sys, q: Proc)
    requires Owned(t) && p < |t.procs|
    requires forall tx :: tx in t.sys.txs ==> tx in s'.txs
    requires forall tx :: tx in s'.txs ==> s'.txs[tx].amount == 0
    requires HasTx(q) ==> q.tx in s'.txs && q.order.uuid != "" && q.order.userId != ""
    requires HasTx(q) ==> q.tx !in t.sys.txs || (HasTx(t.procs[p]) && t.procs[p].tx == q.tx)
    ensures Owned(IState(s', t.procs[p := q]))
  {
  }

  lemma StageKeepsOwned(t: IState, m: Move)
    requires Owned(t) && m.Advance? && m.p < |t.procs|
    ensures var (s', q) := Stage(t.sys, t.procs[m.p], m.c);
            && (forall tx :: tx in t.sys.txs ==> tx in s'.txs)
            && (forall tx :: tx in s'.txs ==> s'.txs[tx].amount == 0)
            && (HasTx(q) ==> q.tx in s'.txs && q.order.uuid != "" && q.order.userId != "")
            && (HasTx(q) ==> q.tx !in t.sys.txs || (HasTx(t.procs[m.p]) && t.procs[m.p].tx == q.tx))
  {
  }

  lemma DoKeepsOwned(t: IState, m: Move)
    requires Owned(t)
    ensures Owned(Do(t, m))
  {
    if m.Advance? && m.p < |t.procs| {
      var (s', q) := Stage(t.sys, t.procs[m.p], m.c);
      StageKeepsOwned(t, m);
      OwnedAfter(t, m.p, s', q);
    }
  }

  /** Charged, and its UPDATE is still to come. */
  ghost predicate Held(t: IState, ms: seq<Move>, i: nat, tx: Uuid) {
    i < |t.procs| && HasTx(t.procs[i]) && t.procs[i].tx == tx && FateOf(t, ms, i).writes
  }

  /** Past its first read, will be charged and never write. */
  ghost predicate Soon(t: IState, ms: seq<Move>, i: nat, tx: Uuid) {
    i < |t.procs| && t.procs[i].PayRead? && FateOf(t, ms, i).charges == Some(tx) && !FateOf(t, ms, i).writes
  }

  ghost predicate HeldElsewhere(t: IState, ms: seq<Move>, p: nat, tx: Uuid) {
    exists i: nat :: i != p && Held(t, ms, i, tx)
  }

  ghost predicate SoonElsewhere(t: IState, ms: seq<Move>, p: nat, tx: Uuid) {
    exists i: nat :: i != p && Soon(t, ms, i, tx)
  }

  ghost predicate Placed(t: IState, ms: seq<Move>, tx: Uuid) {
    || (tx in t.sys.txs && !(exists i: nat :: Held(t, ms, i, tx)))
    || (exists i: nat :: Soon(t, ms, i, tx))
  }

  /** The transaction of the payment that is placed at the first of these moves. */
  function PlacedNow(t: IState, ms: seq<Move>): Option<Uuid>
    requires ms != []
  {
    var m, t' := ms[0], Do(t, ms[0]);
    if !(m.Advance? && m.p < |t.procs|) then None
    else if t.procs[m.p].PayMerged? && Pays(t, m, t.procs[m.p].id) then Some(t.procs[m.p].tx)
    else if t.procs[m.p].PayStart? && t'.procs[m.p].PayRead? && !FateOf(t', ms[1..], m.p).writes
    then FateOf(t', ms[1..], m.p).charges
    else None
  }

  lemma PlacedSplits(t: IState, ms: seq<Move>, p: nat, tx: Uuid)
    ensures Placed(t, ms, tx) <==>
            || (tx in t.sys.txs && !Held(t, ms, p, tx) && !HeldElsewhere(t, ms, p, tx))
            || Soon(t, ms, p, tx) || SoonElsewhere(t, ms, p, tx)
  {
  }

  /** One move changes what one request will still do. */
  lemma ElsewhereStays(t: IState, ms: seq<Move>, p: nat, tx: Uuid)
    requires ms != [] && (ms[0].Advance? ==> ms[0].p == p)
    ensures HeldElsewhere(t, ms, p, tx) <==> HeldElsewhere(Do(t, ms[0]), ms[1..], p, tx)
    ensures SoonElsewhere(t, ms, p, tx) <==> SoonElsewhere(Do(t, ms[0]), ms[1..], p, tx)
  {
    var t', rest := Do(t, ms[0]), ms[1..];
    forall i: nat | i != p
      ensures Held(t, ms, i, tx) <==> Held(t', rest, i, tx)
      ensures Soon(t, ms, i, tx) <==> Soon(t', rest, i, tx)
    {
      assert i < |t.procs| ==> t'.procs[i] == t.procs[i];
    }
  }

  /** A transaction is held or soon charged by at most one request, never both. */
  lemma OneOwner(t: IState, ms: seq<Move>, p: nat, tx: Uuid)
    requires Owned(t)
    ensures SoonElsewhere(t, ms, p, tx) ==> tx !in t.sys.txs && FateOf(t, ms, p).charges != Some(tx)
    ensures HeldElsewhere(t, ms, p, tx) ==> tx in t.sys.txs
    ensures HeldElsewhere(t, ms, p, tx) && p < |t.procs| && HasTx(t.procs[p]) ==> t.procs[p].tx != tx
    ensures FateOf(t, ms, p).charges == Some(tx) ==> tx !in t.sys.txs
  {
    ChargeIsNew(t, ms, p, p);
    if SoonElsewhere(t, ms, p, tx) {
      var i: nat :| i != p && Soon(t, ms, i, tx);
      ChargeIsNew(t, ms, i, p);
    }
    if HeldElsewhere(t, ms, p, tx) {
      var i: nat :| i != p && Held(t, ms, i, tx);
    }
  }

  /** What the move does to the standing of the request that makes it. */
  lemma OwnStanding(t: IState, ms: seq<Move>, tx: Uuid)
    requires ms != [] && ms[0].Advance? && ms[0].p < |t.procs|
    ensures var m, t', rest := ms[0], Do(t, ms[0]), ms[1..];
            var p, charged, placed := m.p, Charges(t, m) && m.c.newTx == tx, PlacedNow(t, ms) == Some(tx);
            && (tx in t'.sys.txs <==> tx in t.sys.txs || charged)
            && (Held(t', rest, p, tx) <==> (Held(t, ms, p, tx) && !placed) || (charged && FateOf(t, ms, p).writes))
            && (Soon(t', rest, p, tx) <==> (Soon(t, ms, p, tx) && !charged) || (t.procs[p].PayStart? && placed))
            && (charged || (placed && t.procs[p].PayStart?) ==> FateOf(t, ms, p).charges == Some(tx))
            && (charged && !FateOf(t, ms, p).writes ==> Soon(t, ms, p, tx))
            && (placed && !t.procs[p].PayStart? ==> Held(t, ms, p, tx))
            && (Soon(t, ms, p, tx) ==> FateOf(t, ms, p).charges == Some(tx) && !placed)
            && (Held(t, ms, p, tx) ==> HasTx(t.procs[p]) && t.procs[p].tx == tx && !charged)
  {
    var m, t' := ms[0], Do(t, ms[0]);
    if t'.procs[m.p].Returned? {
      ReturnedDoesNothing(t', ms[1..], m.p);
    }
  }

  lemma PlacedGrows(t: IState, ms: seq<Move>, tx: Uuid)
    requires Owned(t) && ms != []
    ensures Placed(Do(t, ms[0]), ms[1..], tx) <==> Placed(t, ms, tx) || PlacedNow(t, ms) == Some(tx)
    ensures PlacedNow(t, ms) == Some(tx) ==> !Placed(t, ms, tx)
  {
    var m, t', rest := ms[0], Do(t, ms[0]), ms[1..];
    var p := if m.Advance? then m.p else |t.procs|;
    PlacedSplits(t, ms, p, tx);
    PlacedSplits(t', rest, p, tx);
    ElsewhereStays(t, ms, p, tx);
    OneOwner(t, ms, p, tx);
    if m.Advance? && p < |t.procs| {
      OwnStanding(t, ms, tx);
      DoKeepsOwned(t, m);
      OneOwner(t', rest, p, tx);
      assert Held(t', rest, p, tx) ==> HasTx(t'.procs[p]) && t'.procs[p].tx == tx;
    }
  }

  // ---- Which events it has published ahead of time ---------------------------------

  /** The copies of its event that a request which has written will still publish. */
  function Unpublished(p: Proc, f: Fate): seq<OrderPaid> {
    match p
    case PayWritten(_, m, o, tx) => Copies(PaidEvent(f.eventId, o, m, tx), f.copies)
    case PayCounted(_, m, o, tx) => Copies(PaidEvent(f.eventId, o, m, tx), f.copies)
    case _ => []
  }

  function Times(log: seq<OrderPaid>, e: OrderPaid): nat {
    multiset(log)[e]
  }

  lemma TimesConcat(log: seq<OrderPaid>, more: seq<OrderPaid>, e: OrderPaid)
    ensures Times(log + more, e) == Times(log, e) + Times(more, e)
  {
  }

  function Own(t: IState, ms: seq<Move>, i: nat, e: OrderPaid): nat
    requires i < |t.procs|
  {
    Times(Unpublished(t.procs[i], FateOf(t, ms, i)), e)
  }

  function Owns(t: IState, ms: seq<Move>, e: OrderPaid): seq<int> {
    seq(|t.procs|, i requires 0 <= i < |t.procs| => Own(t, ms, i, e))
  }

  /** All copies of this event still to be published by requests that have written. */
  function Ahead(t: IState, ms: seq<Move>, e: OrderPaid): int {
    Sum(Owns(t, ms, e))
  }

  lemma {:induction false} SumUpdate(xs: seq<int>, i: nat, x: int)
    requires i < |xs|
    ensures Sum(xs[i := x]) == Sum(xs) - xs[i] + x
  {
    if i == 0 {
      assert xs[0 := x][1..] == xs[1..];
    } else {
      assert xs[i := x][1..] == xs[1..][i - 1 := x];
      SumUpdate(xs[1..], i - 1, x);
    }
  }

  lemma {:induction false} SumOfZeros(xs: seq<int>)
    requires forall i :: 0 <= i < |xs| ==> xs[i] == 0
    ensures Sum(xs) == 0
  {
    if xs != [] {
      SumOfZeros(xs[1..]);
    }
  }

  lemma AheadAtTheEnd(t: IState, e: OrderPaid)
    ensures Ahead(t, [], e) == 0
  {
    SumOfZeros(Owns(t, [], e));
  }

  lemma OthersStayAhead(t: IState, ms: seq<Move>, i: nat, e: OrderPaid)
    requires ms != [] && i < |t.procs| <= |Do(t, ms[0]).procs| && (ms[0].Advance? ==> ms[0].p != i)
    ensures Own(Do(t, ms[0]), ms[1..], i, e) == Own(t, ms, i, e)
  {
    assert Do(t, ms[0]).procs[i] == t.procs[i];
  }

  lemma AheadAfterStage(t: IState, ms: seq<Move>, e: OrderPaid)
    requires ms != [] && ms[0].Advance? && ms[0].p < |t.procs|
    ensures var t', rest, p := Do(t, ms[0]), ms[1..], ms[0].p;
            |t'.procs| == |t.procs| && Ahead(t', rest, e) == Ahead(t, ms, e) - Own(t, ms, p, e) + Own(t', rest, p, e)
  {
    var t', rest, p := Do(t, ms[0]), ms[1..], ms[0].p;
    forall i: nat | i < |t.procs| && i != p
      ensures Own(t', rest, i, e) == Own(t, ms, i, e)
    {
      OthersStayAhead(t, ms, i, e);
    }
    assert Owns(t', rest, e) == Owns(t, ms, e)[p := Own(t', rest, p, e)];
    SumUpdate(Owns(t, ms, e), p, Own(t', rest, p, e));
  }

  /** A request that has just begun has nothing to publish yet. */
  lemma AheadAfterStart(t: IState, ms: seq<Move>, e: OrderPaid)
    requires ms != [] && !(ms[0].Advance? && ms[0].p < |t.procs|)
    ensures Do(t, ms[0]).sys.paidLog == t.sys.paidLog && Ahead(Do(t, ms[0]), ms[1..], e) == Ahead(t, ms, e)
  {
    var t', rest := Do(t, ms[0]), ms[1..];
    forall i: nat | i < |t.procs|
      ensures Own(t', rest, i, e) == Own(t, ms, i, e)
    {
      OthersStayAhead(t, ms, i, e);
    }
    if |t'.procs| > |t.procs| {
      assert Unpublished(t'.procs[|t.procs|], FateOf(t', rest, |t.procs|)) == [];
      assert Owns(t', rest, e) == Owns(t, ms, e) + [0];
      SumAppend(Owns(t, ms, e), [0]);
      SumOfZeros([0]);
    } else {
      assert Owns(t', rest, e) == Owns(t, ms, e);
    }
  }

  /** The events published now by the interleaved run, or ahead of time by the other. */
  function PublishedNow(t: IState, ms: seq<Move>): seq<OrderPaid>
    requires ms != []
  {
    var m, t' := ms[0], Do(t, ms[0]);
    if m.Advance? && m.p < |t.procs| && t.procs[m.p].PayMerged?
    then Unpublished(t'.procs[m.p], FateOf(t', ms[1..], m.p)) else []
  }

  lemma EventsGrow(t: IState, ms: seq<Move>, e: OrderPaid)
    requires ms != []
    ensures var t' := Do(t, ms[0]);
            Times(t'.sys.paidLog, e) + Ahead(t', ms[1..], e) ==
            Times(t.sys.paidLog, e) + Ahead(t, ms, e) + Times(PublishedNow(t, ms), e)
  {
    if ms[0].Advance? && ms[0].p < |t.procs| {
      AheadAfterStage(t, ms, e);
      OwnEvents(t, ms, e);
    } else {
      AheadAfterStart(t, ms, e);
    }
  }

  lemma OwnEvents(t: IState, ms: seq<Move>, e: OrderPaid)
    requires ms != [] && ms[0].Advance? && ms[0].p < |t.procs|
    ensures var m, t' := ms[0], Do(t, ms[0]);
            Times(t'.sys.paidLog, e) + Own(t', ms[1..], m.p, e) ==
            Times(t.sys.paidLog, e) + Own(t, ms, m.p, e) + Times(PublishedNow(t, ms), e)
  {
    var m, t' := ms[0], Do(t, ms[0]);
    var p := t.procs[m.p];
    if p.PayCounted? {
      assert t'.sys.paidLog == t.sys.paidLog + Unpublished(p, FateOf(t, ms, m.p));
      TimesConcat(t.sys.paidLog, Unpublished(p, FateOf(t, ms, m.p)), e);
    } else {
      assert t'.sys.paidLog == t.sys.paidLog;
    }
  }

  // ---- The simulation -----------------------------------------------------------

  ghost predicate Matches(t: IState, ms: seq<Move>, s: Sys) {
    && Undated(s.rows) == Undated(t.sys.rows)
    && (forall tx :: tx in s.txs <==> Placed(t, ms, tx))
    && (forall tx :: tx in s.txs ==> tx in DoAll(t, ms).sys.txs && s.txs[tx] == DoAll(t, ms).sys.txs[tx])
    && (forall e :: Times(s.paidLog, e) == Times(t.sys.paidLog, e) + Ahead(t, ms, e))
    && multiset(s.shipLog) == multiset(t.sys.shipLog)
  }

  /** What the serialised run must do to keep matching. */
  ghost predicate Follows(t: IState, ms: seq<Move>, s: Sys, s': Sys)
    requires ms != []
  {
    var t', now := Do(t, ms[0]), PlacedNow(t, ms);
    && Undated(s'.rows) == Undated(t'.sys.rows)
    && (forall tx :: tx in s'.txs <==> tx in s.txs || now == Some(tx))
    && (forall tx :: tx in s.txs ==> s'.txs[tx] == s.txs[tx])
    && (now.Some? ==> now.value in DoAll(t, ms).sys.txs && s'.txs[now.value] == DoAll(t, ms).sys.txs[now.value])
    && s'.paidLog == s.paidLog + PublishedNow(t, ms)
    && multiset(s'.shipLog) == multiset(t'.sys.shipLog)
  }

  lemma FollowingMatches(t: IState, ms: seq<Move>, s: Sys, s': Sys)
    requires ms != [] && Owned(t) && Matches(t, ms, s) && Follows(t, ms, s, s')
    ensures Matches(Do(t, ms[0]), ms[1..], s')
  {
    forall e
      ensures Times(s'.paidLog, e) == Times(Do(t, ms[0]).sys.paidLog, e) + Ahead(Do(t, ms[0]), ms[1..], e)
    {
      EventsGrow(t, ms, e);
      TimesConcat(s.paidLog, PublishedNow(t, ms), e);
    }
    forall tx
      ensures tx in s'.txs <==> Placed(Do(t, ms[0]), ms[1..], tx)
    {
      PlacedGrows(t, ms, tx);
    }
  }

  // ---- Each move, followed --------------------------------------------------------

  function Played(s: Sys, a: Option<Action>): Sys {
    if a.None? then s else Step(s, a.value)
  }

  ghost predicate Ready(t: IState, ms: seq<Move>, s: Sys) {
    ms != [] && Steady(t) && Owned(t) && Matches(t, ms, s) && !Overtaken(t, ms[0])
  }

  predicate Acts(t: IState, m: Move) {
    m.Advance? && m.p < |t.procs|
  }

  lemma UndatedPut(rows: map<Uuid, Order>, k: Uuid, o: Order)
    ensures Undated(rows[k := o]) == Undated(rows)[k := o.(updatedAt := None)]
  {
  }

  lemma UndatedRow(rows: map<Uuid, Order>, rows': map<Uuid, Order>, k: Uuid)
    requires Undated(rows) == Undated(rows')
    ensures k in rows <==> k in rows'
    ensures k in rows ==> rows[k].(updatedAt := None) == rows'[k].(updatedAt := None)
  {
    assert k in rows <==> k in Undated(rows);
    assert k in rows' <==> k in Undated(rows');
    if k in rows {
      assert Undated(rows)[k] == Undated(rows')[k];
    }
  }

  lemma SamePut(rows: map<Uuid, Order>, rows': map<Uuid, Order>, k: Uuid, o: Order, o': Order)
    requires Undated(rows) == Undated(rows') && o.(updatedAt := None) == o'.(updatedAt := None)
    ensures Undated(rows[k := o]) == Undated(rows'[k := o'])
  {
    UndatedPut(rows, k, o);
    UndatedPut(rows', k, o');
  }

  lemma SameInsert(s: Sys, s': Sys, a: Action)
    requires a.Create? && Undated(s.rows) == Undated(s'.rows)
    ensures Undated(Step(s, a).rows) == Undated(Step(s', a).rows)
    ensures Step(s, a).txs == s.txs && Step(s, a).paidLog == s.paidLog && Step(s, a).shipLog == s.shipLog
  {
    UndatedRow(s.rows, s'.rows, a.id);
    if a.items != [] && Quote(a.items).Success? {
      var row := Order(a.id, a.user, PartIds(a.items), Quote(a.items).value, "", a.payBy, PendingPayment, None);
      SamePut(s.rows, s'.rows, a.id, row, row);
    }
  }

  lemma InsertFollows(t: IState, ms: seq<Move>, s: Sys)
    requires Ready(t, ms, s) && ms[0].Insert? && ms[0].create.Create?
    ensures Follows(t, ms, s, Step(s, ms[0].create))
  {
    SameInsert(s, t.sys, ms[0].create);
    SameInsert(t.sys, s, ms[0].create);
  }

  /** At its first read: a payment that will be charged and never write. */
  lemma ChargeFollows(t: IState, ms: seq<Move>, s: Sys) returns (a: Action)
    requires Ready(t, ms, s) && Acts(t, ms[0]) && t.procs[ms[0].p].PayStart? && PlacedNow(t, ms).Some?
    ensures Follows(t, ms, s, Step(s, a))
  {
    var p, t', tx := ms[0].p, Do(t, ms[0]), PlacedNow(t, ms).value;
    var request := t.procs[p];
    a := Pay(request.id, request.payBy, tx, "", 0, PayFaults(false, ReplyLost, UpdateFault(false, Clean), 0));
    UndatedRow(s.rows, t.sys.rows, request.id);
    PlacedGrows(t, ms, tx);
    ChargeIsOwn(t', ms[1..], p);
  }

  /** What a serialised PayOrder whose UPDATE takes effect does. */
  lemma PayEffect(s: Sys, a: Action)
    requires a.Pay? && a.id in s.rows && s.rows[a.id].status == PendingPayment && a.newTx !in s.txs
    requires s.rows[a.id].uuid != "" && s.rows[a.id].userId != ""
    requires !a.faults.readFails && a.faults.call.Answered?
    requires !a.faults.update.readFails && !a.faults.update.write.FailedBefore?
    ensures var s', o := Step(s, a), s.rows[a.id];
            && s'.rows == s.rows[a.id := Merge(o, PaidUpdate(a.newTx, a.payBy), a.now)]
            && s'.txs == s.txs[a.newTx := Transaction(a.newTx, o.uuid, o.userId, ToProto(a.payBy), 0)]
            && s'.shipLog == s.shipLog
            && s'.paidLog == s.paidLog + if a.faults.update.write.Clean?
                                         then Copies(PaidEvent(a.eventId, o, a.payBy, a.newTx), a.faults.copies)
                                         else []
  {
    UpdateIsMerge(s.rows, a.id, PaidUpdate(a.newTx, a.payBy), a.now, a.faults.update);
    assert s.rows[a.id := Merge(s.rows[a.id], PaidUpdate(a.newTx, a.payBy), a.now)][a.id].status == Paid;
  }

  ghost predicate PayReady(t: IState, ms: seq<Move>, s: Sys) {
    && Ready(t, ms, s) && Acts(t, ms[0]) && t.procs[ms[0].p].PayMerged?
    && Pays(t, ms[0], t.procs[ms[0].p].id)
  }

  lemma PayRows(t: IState, ms: seq<Move>, s: Sys)
    requires PayReady(t, ms, s)
    ensures var p := t.procs[ms[0].p];
            && p.id in s.rows && s.rows[p.id].status == PendingPayment
            && s.rows[p.id].uuid == p.order.uuid && s.rows[p.id].userId == p.order.userId
            && Undated(s.rows[p.id := Merge(s.rows[p.id], PaidUpdate(p.tx, p.payBy), 0)]) ==
               Undated(Do(t, ms[0]).sys.rows)
  {
    var m, p := ms[0], t.procs[ms[0].p];
    assert p in t.procs;
    assert SteadyProc(t.sys, p) && InStepProc(t.sys, p) && ProcOk(t.sys, p);
    UndatedRow(s.rows, t.sys.rows, p.id);
    SamePut(s.rows, t.sys.rows, p.id, Merge(s.rows[p.id], PaidUpdate(p.tx, p.payBy), 0), Do(t, m).sys.rows[p.id]);
  }

  lemma PayPlaces(t: IState, ms: seq<Move>, s: Sys)
    requires PayReady(t, ms, s)
    ensures var m, p, txs := ms[0], t.procs[ms[0].p], DoAll(t, ms).sys.txs;
            && PlacedNow(t, ms) == Some(p.tx) && p.tx !in s.txs
            && p.order.uuid != "" && p.order.userId != ""
            && p.tx in txs && txs[p.tx] == Transaction(p.tx, p.order.uuid, p.order.userId, ToProto(p.payBy), 0)
  {
    var p := t.procs[ms[0].p];
    assert p in t.procs;
    assert ProcOk(t.sys, p);
    PlacedGrows(t, ms, p.tx);
    TxsGrow(t, ms);
  }

  lemma PayPublishes(t: IState, ms: seq<Move>, fate: Fate)
    requires ms != [] && Acts(t, ms[0]) && t.procs[ms[0].p].PayMerged? && Pays(t, ms[0], t.procs[ms[0].p].id)
    requires fate == FateOf(Do(t, ms[0]), ms[1..], ms[0].p)
    ensures var m, p := ms[0], t.procs[ms[0].p];
            && Do(t, m).sys.shipLog == t.sys.shipLog
            && PublishedNow(t, ms) == if m.c.write.Clean?
                                      then Copies(PaidEvent(fate.eventId, p.order, p.payBy, p.tx), fate.copies)
                                      else []
  {
  }

  lemma PayFollows(t: IState, ms: seq<Move>, s: Sys) returns (a: Action)
    requires PayReady(t, ms, s)
    ensures Follows(t, ms, s, Step(s, a))
  {
    var m, p := ms[0], t.procs[ms[0].p];
    var fate := FateOf(Do(t, m), ms[1..], m.p);
    a := Pay(p.id, p.payBy, p.tx, fate.eventId, 0,
             PayFaults(false, Answered, UpdateFault(false, m.c.write), fate.copies));
    PayRows(t, ms, s);
    PayPlaces(t, ms, s);
    PayPublishes(t, ms, fate);
    PayEffect(s, a);
  }

  lemma CancelFollows(t: IState, ms: seq<Move>, s: Sys) returns (a: Option<Action>)
    requires Ready(t, ms, s) && Acts(t, ms[0]) && t.procs[ms[0].p].CancelMerged?
    ensures Follows(t, ms, s, Played(s, a))
  {
    var m, p := ms[0], t.procs[ms[0].p];
    assert p in t.procs;
    assert SteadyProc(t.sys, p) && InStepProc(t.sys, p);
    UndatedRow(s.rows, t.sys.rows, p.id);
    a := None;
    if !m.c.write.FailedBefore? {
      SamePut(s.rows, t.sys.rows, p.id, s.rows[p.id].(status := Cancelled), Do(t, m).sys.rows[p.id]);
      if s.rows[p.id].status == PendingPayment {
        a := Some(Cancel(p.id, 0, false, UpdateFault(false, Clean)));
        SamePut(s.rows, t.sys.rows, p.id, Merge(s.rows[p.id], StatusUpdate(Cancelled), 0), Do(t, m).sys.rows[p.id]);
      } else {
        assert s.rows[p.id := s.rows[p.id].(status := Cancelled)] == s.rows;
      }
    }
  }

  lemma CompleteRows(t: IState, ms: seq<Move>, s: Sys, id: Uuid)
    requires Ready(t, ms, s) && Acts(t, ms[0]) && t.procs[ms[0].p].CompleteMerged?
    requires !ms[0].c.write.FailedBefore? && id == t.procs[ms[0].p].ship.orderId
    ensures id in s.rows
    ensures Undated(s.rows[id := Merge(s.rows[id], StatusUpdate(Completed), 0)]) == Undated(Do(t, ms[0]).sys.rows)
  {
    var m, p := ms[0], t.procs[ms[0].p];
    assert p in t.procs;
    assert SteadyProc(t.sys, p) && InStepProc(t.sys, p);
    UndatedRow(s.rows, t.sys.rows, id);
    SamePut(s.rows, t.sys.rows, id, Merge(s.rows[id], StatusUpdate(Completed), 0), Do(t, m).sys.rows[id]);
  }

  lemma CompletePlacesNothing(t: IState, ms: seq<Move>)
    requires ms != [] && Acts(t, ms[0]) && t.procs[ms[0].p].CompleteMerged?
    ensures PlacedNow(t, ms).None? && PublishedNow(t, ms) == [] && Do(t, ms[0]).sys.shipLog == t.sys.shipLog
    ensures ms[0].c.write.FailedBefore? ==> Do(t, ms[0]).sys == t.sys
  {
  }

  /** The message is in the serialised topic as well, somewhere. */
  lemma ShipIsThere(t: IState, ms: seq<Move>, s: Sys, e: ShipAssembled) returns (at: nat)
    requires Matches(t, ms, s) && e in t.sys.shipLog
    ensures at < |s.shipLog| && s.shipLog[at] == e
  {
    assert e in multiset(s.shipLog);
    at :| at < |s.shipLog| && s.shipLog[at] == e;
  }

  lemma CompleteFollows(t: IState, ms: seq<Move>, s: Sys) returns (a: Option<Action>)
    requires Ready(t, ms, s) && Acts(t, ms[0]) && t.procs[ms[0].p].CompleteMerged?
    ensures Follows(t, ms, s, Played(s, a))
  {
    var p := t.procs[ms[0].p];
    a := None;
    CompletePlacesNothing(t, ms);
    if !ms[0].c.write.FailedBefore? {
      assert p in t.procs;
      assert SteadyProc(t.sys, p);
      var at := ShipIsThere(t, ms, s, p.ship);
      a := Some(HandleShip(at, 0, UpdateFault(false, Clean)));
      var id := p.ship.orderId;
      CompleteRows(t, ms, s, id);
      UpdateIsMerge(s.rows, id, StatusUpdate(Completed), 0, UpdateFault(false, Clean));
      assert Step(s, a.value) == s.(rows := s.rows[id := Merge(s.rows[id], StatusUpdate(Completed), 0)]);
    }
  }

  lemma EventIsThere(t: IState, ms: seq<Move>, s: Sys, e: OrderPaid) returns (at: nat)
    requires Matches(t, ms, s) && e in t.sys.paidLog
    ensures at < |s.paidLog| && s.paidLog[at] == e
  {
    assert Times(t.sys.paidLog, e) > 0;
    OwnsAreNatural(t, ms, e);
    assert Times(s.paidLog, e) > 0;
    at :| at < |s.paidLog| && s.paidLog[at] == e;
  }

  lemma OwnsAreNatural(t: IState, ms: seq<Move>, e: OrderPaid)
    ensures Ahead(t, ms, e) >= 0
  {
    SumOfNaturals(Owns(t, ms, e));
  }

  lemma {:induction false} SumOfNaturals(xs: seq<int>)
    requires forall i :: 0 <= i < |xs| ==> xs[i] >= 0
    ensures Sum(xs) >= 0
  {
    if xs != [] {
      SumOfNaturals(xs[1..]);
    }
  }

  lemma AssembleFollows(t: IState, ms: seq<Move>, s: Sys) returns (a: Action)
    requires Ready(t, ms, s) && Acts(t, ms[0]) && t.procs[ms[0].p].AssembleBuilt?
    ensures Follows(t, ms, s, Step(s, a))
  {
    var m, p := ms[0], t.procs[ms[0].p];
    assert p in t.procs;
    assert ProcOk(t.sys, p);
    var at := EventIsThere(t, ms, s, p.paid);
    a := HandlePaid(at, m.c.eventId, m.c.build, false, m.c.copies, m.c.sendFails);
    var published := Copies(ShipEvent(m.c.eventId, p.paid, m.c.build), m.c.copies);
    assert Step(s, a) == s.(shipLog := s.shipLog + published);
    assert Do(t, m).sys == t.sys.(shipLog := t.sys.shipLog + published);
  }

  /** All other moves are followed by doing nothing. */
  lemma OtherwiseFollows(t: IState, ms: seq<Move>, s: Sys)
    requires Ready(t, ms, s) && PlacedNow(t, ms).None? && !(ms[0].Insert? && ms[0].create.Create?)
    requires Acts(t, ms[0]) ==>
               var p := t.procs[ms[0].p];
               !p.CancelMerged? && !p.CompleteMerged? && !p.AssembleBuilt?
    ensures Follows(t, ms, s, s)
  {
    if Acts(t, ms[0]) && t.procs[ms[0].p].PayMerged? {
      assert t.procs[ms[0].p] in t.procs;
      assert ProcOk(t.sys, t.procs[ms[0].p]);
    }
    OtherMovesLeaveRows(t, ms);
  }

  lemma OtherMovesLeaveRows(t: IState, ms: seq<Move>)
    requires ms != [] && PlacedNow(t, ms).None? && !(ms[0].Insert? && ms[0].create.Create?)
    requires Acts(t, ms[0]) ==>
               var p := t.procs[ms[0].p];
               && !p.CancelMerged? && !p.CompleteMerged? && !p.AssembleBuilt?
               && (p.PayMerged? ==> p.id in t.sys.rows)
    ensures Do(t, ms[0]).sys.rows == t.sys.rows && Do(t, ms[0]).sys.shipLog == t.sys.shipLog
    ensures PublishedNow(t, ms) == []
  {
  }

  lemma OneMoveFollowed(t: IState, ms: seq<Move>, s: Sys) returns (a: Option<Action>)
    requires Ready(t, ms, s)
    ensures Follows(t, ms, s, Played(s, a))
  {
    var m := ms[0];
    if m.Insert? && m.create.Create? {
      InsertFollows(t, ms, s);
      return Some(m.create);
    }
    if Acts(t, m) {
      var p := t.procs[m.p];
      if p.CancelMerged? {
        a := CancelFollows(t, ms, s);
        return;
      } else if p.CompleteMerged? {
        a := CompleteFollows(t, ms, s);
        return;
      } else if p.AssembleBuilt? {
        var assemble := AssembleFollows(t, ms, s);
        return Some(assemble);
      } else if PlacedNow(t, ms).Some? {
        var pay;
        if p.PayStart? {
          pay := ChargeFollows(t, ms, s);
        } else {
          pay := PayFollows(t, ms, s);
        }
        return Some(pay);
      }
    }
    OtherwiseFollows(t, ms, s);
    return None;
  }

  // ---- Whole runs -------------------------------------------------------------------

  lemma {:induction false} RunFollowed(t: IState, ms: seq<Move>, s: Sys) returns (acts: seq<Action>)
    requires Steady(t) && Owned(t) && Matches(t, ms, s) && NothingOvertaken(t, ms)
    ensures Matches(DoAll(t, ms), [], Run(s, acts))
    decreases |ms|
  {
    if ms == [] {
      acts := [];
    } else {
      var a := OneMoveFollowed(t, ms, s);
      FollowingMatches(t, ms, s, Played(s, a));
      DoKeepsSteady(t, ms[0]);
      DoKeepsOwned(t, ms[0]);
      var rest := RunFollowed(Do(t, ms[0]), ms[1..], Played(s, a));
      if a.None? {
        acts := rest;
      } else {
        acts := [a.value] + rest;
        assert acts[1..] == rest;
      }
    }
  }

  lemma AtTheEnd(t: IState, s: Sys)
    requires Matches(t, [], s)
    ensures s.txs == t.sys.txs && multiset(s.paidLog) == multiset(t.sys.paidLog)
  {
    forall e
      ensures multiset(s.paidLog)[e] == multiset(t.sys.paidLog)[e]
    {
      AheadAtTheEnd(t, e);
      assert Times(s.paidLog, e) == Times(t.sys.paidLog, e) + Ahead(t, [], e);
    }
    forall tx
      ensures tx in s.txs <==> tx in t.sys.txs
    {
      assert tx in s.txs <==> Placed(t, [], tx);
    }
  }

  /** Whatever requests and handlers overlap, as long as no UPDATE overtakes: some
      serialised run leaves the same rows up to updated_at, the same transactions, and
      the same events in both topics, each as often. */
  lemma SerialisableUnlessOvertaken(metered: bool, ms: seq<Move>) returns (acts: seq<Action>)
    requires NothingOvertaken(Begin(metered), ms)
    ensures var s, t := Run(Fresh(metered), acts), DoAll(Begin(metered), ms).sys;
            && Undated(s.rows) == Undated(t.rows) && s.txs == t.txs
            && multiset(s.paidLog) == multiset(t.paidLog) && multiset(s.shipLog) == multiset(t.shipLog)
  {
    BeginSteady(metered);
    assert Matches(Begin(metered), ms, Fresh(metered));
    acts := RunFollowed(Begin(metered), ms, Fresh(metered));
    AtTheEnd(DoAll(Begin(metered), ms), Run(Fresh(metered), acts));
  }
}
