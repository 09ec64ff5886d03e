/** The two step models side by side: every serialised run is an interleaved run, and
    not the other way round. */
module Linking {
  import opened Wrappers
  import opened Domain
  import opened OrderProtocol
  import opened Interleaved
  import opened Overtaking

  const CALM := Choice(false, Answered, "", Clean, 0, false, "", 1, 1, false)

  function StageAll(s: Sys, p: Proc, cs: seq<Choice>): (Sys, Proc)
    decreases |cs|
  {
    if cs == [] then (s, p)
    else
      var (s', q) := Stage(s, p, cs[0]);
      StageAll(s', q, cs[1..])
  }

  function Advances(p: nat, cs: seq<Choice>): seq<Move> {
    seq(|cs|, i requires 0 <= i < |cs| => Advance(p, cs[i]))
  }

  lemma {:induction false} AloneIsStageAll(s: Sys, procs: seq<Proc>, p: Proc, cs: seq<Choice>)
    ensures DoAll(IState(s, procs + [p]), Advances(|procs|, cs)) ==
            IState(StageAll(s, p, cs).0, procs + [StageAll(s, p, cs).1])
    decreases |cs|
  {
    if cs != [] {
      var (s', q) := Stage(s, p, cs[0]);
      assert (procs + [p])[|procs| := q] == procs + [q];
      assert Advances(|procs|, cs)[1..] == Advances(|procs|, cs[1..]);
      AloneIsStageAll(s', procs, q, cs[1..]);
    }
  }

  /** The request or handler that an action starts, if it starts one. */
  function Started(s: Sys, a: Action): Option<(Move, Proc)> {
    match a
    case Create(_, _, _, _, _) => None
    case Pay(id, payBy, _, _, _, _) => Some((StartPay(id, payBy), PayStart(id, payBy)))
    case Cancel(id, _, _, _) => Some((StartCancel(id), CancelStart(id)))
    case HandlePaid(at, _, _, _, _, _) =>
      if at < |s.paidLog| then Some((Deliver(at), AssembleStart(s.paidLog[at]))) else None
    case HandleShip(at, _, _) =>
      if at < |s.shipLog| then Some((DeliverShip(at), CompleteStart(s.shipLog[at]))) else None
  }

  /** The choices under which its stages, run back to back, meet the action's faults. */
  function Choices(a: Action): seq<Choice> {
    match a
    case Create(_, _, _, _, _) => []
    case Pay(id, payBy, newTx, eventId, now, f) =>
      [CALM.(readFails := f.readFails),
       CALM.(newTx := newTx, call := f.call),
       CALM.(readFails := f.update.readFails, now := now),
       CALM.(write := f.update.write),
       CALM,
       CALM.(eventId := eventId, copies := f.copies)]
    case Cancel(id, now, readFails, f) =>
      [CALM.(readFails := readFails), CALM.(readFails := f.readFails, now := now), CALM.(write := f.write)]
    case HandlePaid(at, eventId, build, cancelled, copies, sendFails) =>
      [CALM.(cancelled := cancelled),
       CALM.(eventId := eventId, build := build, copies := copies, sendFails := sendFails)]
    case HandleShip(at, now, f) =>
      [CALM.(readFails := f.readFails, now := now), CALM.(write := f.write)]
  }

  lemma TwoStages(s: Sys, p: Proc, cs: seq<Choice>)
    requires |cs| >= 2
    ensures StageAll(s, p, cs) ==
            var (s1, p1) := Stage(s, p, cs[0]); var (s2, p2) := Stage(s1, p1, cs[1]); StageAll(s2, p2, cs[2..])
  {
    var (s1, p1) := Stage(s, p, cs[0]);
    assert cs[1..][0] == cs[1] && cs[1..][1..] == cs[2..];
  }

  lemma PayAlone(s: Sys, a: Action)
    requires a.Pay?
    ensures StageAll(s, PayStart(a.id, a.payBy), Choices(a)) == (Step(s, a), Returned(Perform(s, a).1))
  {
    var cs := Choices(a);
    TwoStages(s, PayStart(a.id, a.payBy), cs);
    var (s1, p1) := Stage(s, PayStart(a.id, a.payBy), cs[0]);
    var (s2, p2) := Stage(s1, p1, cs[1]);
    TwoStages(s2, p2, cs[2..]);
    var (s3, p3) := Stage(s2, p2, cs[2]);
    var (s4, p4) := Stage(s3, p3, cs[3]);
    assert cs[2..][2..] == cs[4..];
    TwoStages(s4, p4, cs[4..]);
    var (s5, p5) := Stage(s4, p4, cs[4]);
    assert cs[4..][2..] == [];
  }

  lemma OthersAlone(s: Sys, a: Action)
    requires !a.Pay? && !a.Create? && Started(s, a).Some?
    ensures StageAll(s, Started(s, a).value.1, Choices(a)) == (Step(s, a), Returned(Perform(s, a).1))
  {
    var cs, p := Choices(a), Started(s, a).value.1;
    TwoStages(s, p, cs);
    if a.Cancel? {
      var (s1, p1) := Stage(s, p, cs[0]);
      var (s2, p2) := Stage(s1, p1, cs[1]);
      assert cs[2..] == [cs[2]];
      assert [cs[2]][1..] == [];
    } else {
      assert cs[2..] == [];
    }
  }

  /** A request whose order is still what its guard saw. */
  predicate UpToDate(s: Sys, p: Proc) {
    (p.PayRead? || p.PayCharged? || p.PayMerged? || p.CancelRead? || p.CancelMerged?) && p.id in s.rows ==>
      s.rows[p.id].status == PendingPayment
  }

  lemma {:induction false} AloneOvertakesNothing(s: Sys, procs: seq<Proc>, p: Proc, cs: seq<Choice>)
    requires UpToDate(s, p)
    ensures NothingOvertaken(IState(s, procs + [p]), Advances(|procs|, cs))
    decreases |cs|
  {
    if cs != [] {
      var (s', q) := Stage(s, p, cs[0]);
      assert (procs + [p])[|procs| := q] == procs + [q];
      assert Advances(|procs|, cs)[1..] == Advances(|procs|, cs[1..]);
      AloneOvertakesNothing(s', procs, q, cs[1..]);
    }
  }

  /** A serialised step is what its stages do when nothing else runs in between: same
      effect on the shared state, same result; and nothing is overtaken. */
  lemma StepIsItsStages(t: IState, a: Action) returns (ms: seq<Move>)
    ensures DoAll(t, ms).sys == Step(t.sys, a)
    ensures NothingOvertaken(t, ms)
    ensures Started(t.sys, a).Some? ==> DoAll(t, ms).procs == t.procs + [Returned(Perform(t.sys, a).1)]
  {
    if a.Create? {
      ms := [Insert(a)];
      assert ms[1..] == [];
    } else if Started(t.sys, a).None? {
      ms := [];
    } else {
      var (start, p) := Started(t.sys, a).value;
      var rest := Advances(|t.procs|, Choices(a));
      ms := [start] + rest;
      assert ms[1..] == rest;
      AloneIsStageAll(t.sys, t.procs, p, Choices(a));
      AloneOvertakesNothing(t.sys, t.procs, p, Choices(a));
      if a.Pay? {
        PayAlone(t.sys, a);
      } else {
        OthersAlone(t.sys, a);
      }
    }
  }

  /** Every serialised run is an interleaved run in which nothing is overtaken, so what
      holds of all of those holds of every serialised run. */
  lemma {:induction false} SerialisedRunsAreInterleaved(t: IState, acts: seq<Action>) returns (ms: seq<Move>)
    ensures DoAll(t, ms).sys == Run(t.sys, acts) && NothingOvertaken(t, ms)
    decreases |acts|
  {
    if acts == [] {
      ms := [];
    } else {
      var first := StepIsItsStages(t, acts[0]);
      var rest := SerialisedRunsAreInterleaved(DoAll(t, first), acts[1..]);
      ms := first + rest;
      DoAllConcat(t, first, rest);
      NothingOvertakenSplits(t, first, rest);
    }
  }

  // ---- What interleaving breaks ---------------------------------------------

  const PART := Item("part", Quoted(5, 1))
  const MAKE := Insert(Create("order", "user", [PART], Card, Clean))

  /** The one order of the witness runs, in its various states. */
  function Row(tx: Uuid, st: Status): Order {
    Order("order", "user", PartIds([PART]), 5, tx, Card, st, Some(0))
  }

  function Tx(tx: Uuid): Transaction {
    Transaction(tx, "order", "user", ProtoCard, 0)
  }

  function Event(tx: Uuid): OrderPaid {
    OrderPaid("", "order", "user", Card, tx)
  }

  function World(o: Order, txs: map<Uuid, Transaction>, paid: seq<OrderPaid>, ships: seq<ShipAssembled>): Sys {
    Sys(map["order" := o], txs, paid, ships, None)
  }

  lemma MakeOrder() returns (ms: seq<Move>, t: IState)
    ensures DoAll(Begin(false), ms) == t
    ensures t == IState(World(Row("", PendingPayment).(updatedAt := None), map[], [], []), [])
  {
    assert Quote([PART][1..]) == Success(0);
    ms, t := Then([], Begin(false), MAKE);
  }

  lemma Then(ms: seq<Move>, t: IState, m: Move) returns (ms': seq<Move>, t': IState)
    requires DoAll(Begin(false), ms) == t
    ensures DoAll(Begin(false), ms') == t' == Do(t, m)
  {
    ms', t' := ms + [m], Do(t, m);
    DoAllConcat(Begin(false), ms, [m]);
    assert [m][1..] == [];
  }

  /** A pay call at the head of the line that has passed its guard, run to its end. */
  lemma PayToTheEnd(ms: seq<Move>, t: IState, p: nat, tx: Uuid) returns (ms': seq<Move>, t': IState)
    requires DoAll(Begin(false), ms) == t
    requires t.sys.meter == None && t.sys.rows.Keys == {"order"} && SameAsRow(t.sys.rows["order"])
    requires p < |t.procs| && t.procs[p].PayRead? && t.procs[p].id == "order" && t.procs[p].payBy == Card
    requires t.procs[p].order.uuid == "order" && t.procs[p].order.userId == "user" && tx !in t.sys.txs
    ensures DoAll(Begin(false), ms') == t'
    ensures t' == IState(World(Row(tx, Paid), t.sys.txs[tx := Tx(tx)], t.sys.paidLog + [Event(tx)], t.sys.shipLog),
                         t.procs[p := Returned(Success(tx))])
  {
    ms', t' := Then(ms, t, Advance(p, CALM.(newTx := tx)));
    ms', t' := Then(ms', t', Advance(p, CALM));
    ms', t' := Then(ms', t', Advance(p, CALM));
    assert t'.sys.rows == map["order" := Row(tx, Paid)];
    ms', t' := Then(ms', t', Advance(p, CALM));
    ms', t' := Then(ms', t', Advance(p, CALM));
    assert Copies(Event(tx), 1) == [Event(tx)];
  }

  predicate SameAsRow(o: Order) {
    o == Row(o.transactionId, o.status).(updatedAt := o.updatedAt)
  }

  /** Two calls read PENDING_PAYMENT before either writes. Both succeed, with two
      transactions and two distinct events: PaidAtMostOnce fails once calls overlap. */
  lemma TwoPaysCanBothSucceed() returns (ms: seq<Move>)
    ensures var t := DoAll(Begin(false), ms);
            && t.procs == [Returned(Success("t0")), Returned(Success("t1"))]
            && t.sys == World(Row("t1", Paid), map["t0" := Tx("t0"), "t1" := Tx("t1")], [Event("t0"), Event("t1")], [])
  {
    var t: IState;
    ms, t := MakeOrder();
    ms, t := Then(ms, t, StartPay("order", Card));
    ms, t := Then(ms, t, StartPay("order", Card));
    ms, t := Then(ms, t, Advance(0, CALM));
    ms, t := Then(ms, t, Advance(1, CALM));
    ms, t := PayToTheEnd(ms, t, 0, "t0");
    ms, t := PayToTheEnd(ms, t, 1, "t1");
  }

  /** A cancel that read the pending row writes it back after the payment: the order
      is CANCELLED with no transaction although PayOrder succeeded and published. */
  lemma CancelCanOverwritePaid() returns (ms: seq<Move>)
    ensures var t := DoAll(Begin(false), ms);
            && t.procs == [Returned(Success("t0")), Returned(Success("order"))]
            && t.sys == World(Row("", Cancelled), map["t0" := Tx("t0")], [Event("t0")], [])
  {
    var t: IState;
    ms, t := MakeOrder();
    ms, t := Then(ms, t, StartPay("order", Card));
    ms, t := Then(ms, t, StartCancel("order"));
    ms, t := Then(ms, t, Advance(0, CALM));
    ms, t := Then(ms, t, Advance(1, CALM));
    ms, t := Then(ms, t, Advance(1, CALM));
    ms, t := PayToTheEnd(ms, t, 0, "t0");
    ms, t := Then(ms, t, Advance(1, CALM));
    assert t.sys.rows == map["order" := Row("", Cancelled)];
  }

  /** And then it completes: the serialised NoCancelledOrderCompletes fails too. */
  lemma CancelledOrderCanComplete() returns (before: seq<Move>, after: seq<Move>)
    ensures DoAll(Begin(false), before).sys.rows == map["order" := Row("", Cancelled)]
    ensures DoAll(Begin(false), before + after).sys.rows == map["order" := Row("", Completed)]
  {
    before := CancelCanOverwritePaid();
    var t := DoAll(Begin(false), before);
    var assembled := StepIsItsStages(t, HandlePaid(0, "", 1, false, 1, false));
    var t1 := DoAll(t, assembled);
    assert t1.sys.shipLog == Copies(ShipEvent("", Event("t0"), 1), 1);
    var completed := StepIsItsStages(t1, HandleShip(0, 0, UpdateFault(false, Clean)));
    after := assembled + completed;
    DoAllConcat(t, assembled, completed);
    DoAllConcat(Begin(false), before, after);
  }
}
