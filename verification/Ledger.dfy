/** Conservation in serialised runs: the counters against the orders table, and prices
    since creation. */
module Ledger {
  import opened Wrappers
  import opened Domain
  import opened OrderProtocol
  import opened Serialised

  // What is being counted: created orders, paid orders, or one payment method's revenue.
  datatype Account = CreatedOrders | PaidOrders | RevenueBy(payBy: PaymentMethod)

  function Weight(o: Order, c: Account): int {
    if c.CreatedOrders? then 1
    else if o.status != Paid && o.status != Completed then 0
    else if c.PaidOrders? then 1
    else if o.paymentMethod == c.payBy then o.totalPrice
    else 0
  }

  function WeightAt(rows: map<Uuid, Order>, k: Uuid, c: Account): int {
    if k in rows then Weight(rows[k], c) else 0
  }

  function Counter(m: Meter, c: Account): int {
    match c
    case CreatedOrders => m.created
    case PaidOrders => m.paid
    case RevenueBy(payBy) => m.RevenueOf(payBy)
  }

  /** The sum of the weights of the orders named by keys. */
  ghost function Total(rows: map<Uuid, Order>, keys: set<Uuid>, c: Account): int
    requires keys <= rows.Keys
    decreases |keys|
  {
    if keys == {} then 0
    else
      var k :| k in keys;
      Weight(rows[k], c) + Total(rows, keys - {k}, c)
  }

  lemma {:induction false} TotalTakesAny(rows: map<Uuid, Order>, keys: set<Uuid>, c: Account, k: Uuid)
    requires keys <= rows.Keys && k in keys
    ensures Total(rows, keys, c) == Weight(rows[k], c) + Total(rows, keys - {k}, c)
    decreases |keys|
  {
    var j :| j in keys && Total(rows, keys, c) == Weight(rows[j], c) + Total(rows, keys - {j}, c);
    if j != k {
      TotalTakesAny(rows, keys - {j}, c, k);
      TotalTakesAny(rows, keys - {k}, c, j);
      assert keys - {j} - {k} == keys - {k} - {j};
    }
  }

  lemma {:induction false} TotalAgrees(rows: map<Uuid, Order>, rows': map<Uuid, Order>, keys: set<Uuid>, c: Account)
    requires keys <= rows.Keys && keys <= rows'.Keys
    requires forall k :: k in keys ==> Weight(rows[k], c) == Weight(rows'[k], c)
    ensures Total(rows, keys, c) == Total(rows', keys, c)
    decreases |keys|
  {
    if keys != {} {
      var k :| k in keys;
      TotalTakesAny(rows, keys, c, k);
      TotalTakesAny(rows', keys, c, k);
      TotalAgrees(rows, rows', keys - {k}, c);
    }
  }

  ghost function TableTotal(rows: map<Uuid, Order>, c: Account): int {
    Total(rows, rows.Keys, c)
  }

  lemma TableTotalPut(rows: map<Uuid, Order>, k: Uuid, o: Order, c: Account)
    ensures TableTotal(rows[k := o], c) == TableTotal(rows, c) + Weight(o, c) - WeightAt(rows, k, c)
  {
    var rows' := rows[k := o];
    TotalTakesAny(rows', rows'.Keys, c, k);
    assert rows'.Keys - {k} == rows.Keys - {k};
    TotalAgrees(rows, rows', rows.Keys - {k}, c);
    if k in rows {
      TotalTakesAny(rows, rows.Keys, c, k);
    } else {
      assert rows.Keys - {k} == rows.Keys;
    }
  }

  predicate InStock(it: Item) {
    it.reply.Quoted? && it.reply.stock > 0
  }

  /** The call meets an order it can create or pay, and its write takes effect but
      reports an error: a CreateOrder's INSERT, a PayOrder's UPDATE. */
  predicate Unreported(s: Sys, a: Action, c: Account) {
    if c.CreatedOrders? then
      && a.Create? && a.items != [] && (forall it :: it in a.items ==> InStock(it))
      && a.id !in s.rows && a.insert.FailedAfter?
    else
      && a.Pay? && a.id in s.rows && s.rows[a.id].status == PendingPayment
      && s.rows[a.id].uuid != "" && s.rows[a.id].userId != "" && a.newTx !in s.txs
      && !a.faults.readFails && a.faults.call.Answered?
      && !a.faults.update.readFails && a.faults.update.write.FailedAfter?
  }

  /** Those are exactly the calls that change the table and return an error. */
  lemma UnreportedMeaning(s: Sys, a: Action)
    requires Inv(s) && (a.Create? || a.Pay?)
    ensures var c := if a.Create? then CreatedOrders else PaidOrders;
            Unreported(s, a, c) <==> Perform(s, a).1.Failure? && Step(s, a).rows != s.rows
  {
    if a.Create? {
      QuoteMeaning(a.items);
      assert a.id !in s.rows && a.id in Step(s, a).rows ==> Step(s, a).rows != s.rows;
    } else {
      PayShape(s, a);
      if a.id in s.rows && a.id in Step(s, a).rows && Step(s, a).rows[a.id] != s.rows[a.id] {
        assert Step(s, a).rows != s.rows;
      }
    }
  }

  function UncountedBy(s: Sys, a: Action, c: Account): int {
    if Unreported(s, a, c) then WeightAt(Step(s, a).rows, a.id, c) else 0
  }

  function Uncounted(s: Sys, acts: seq<Action>, c: Account): int
    decreases |acts|
  {
    if acts == [] then 0 else UncountedBy(s, acts[0], c) + Uncounted(Step(s, acts[0]), acts[1..], c)
  }

  lemma CreateLedger(s: Sys, a: Action, c: Account)
    requires a.Create? && s.meter.Some?
    ensures Step(s, a).meter.Some?
    ensures TableTotal(Step(s, a).rows, c) - Counter(Step(s, a).meter.value, c) ==
            TableTotal(s.rows, c) - Counter(s.meter.value, c) + UncountedBy(s, a, c)
  {
    QuoteMeaning(a.items);
    if a.items != [] && Quote(a.items).Success? {
      var row := Order(a.id, a.user, PartIds(a.items), Quote(a.items).value, "", a.payBy, PendingPayment, None);
      TableTotalPut(s.rows, a.id, row, c);
    }
  }

  lemma StepLedger(s: Sys, a: Action, c: Account)
    requires Inv(s) && s.meter.Some?
    ensures Step(s, a).meter.Some?
    ensures TableTotal(Step(s, a).rows, c) - Counter(Step(s, a).meter.value, c) ==
            TableTotal(s.rows, c) - Counter(s.meter.value, c) + UncountedBy(s, a, c)
  {
    match a
    case Create(id, user, items, m, insert) => CreateLedger(s, a, c);
    case Pay(id, m, newTx, eventId, now, f) => PayLedger(s, a, c);
    case Cancel(id, now, readFails, f) =>
      UpdateIsMerge(s.rows, id, StatusUpdate(Cancelled), now, f);
      if id in s.rows {
        TableTotalPut(s.rows, id, Merge(s.rows[id], StatusUpdate(Cancelled), now), c);
      }
    case HandlePaid(at, eventId, build, cancelled, copies, sendFails) =>
    case HandleShip(at, now, f) =>
      if at < |s.shipLog| {
        var id := s.shipLog[at].orderId;
        assert s.shipLog[at] in s.shipLog;
        UpdateIsMerge(s.rows, id, StatusUpdate(Completed), now, f);
        TableTotalPut(s.rows, id, Merge(s.rows[id], StatusUpdate(Completed), now), c);
      }
  }

  lemma PayLedger(s: Sys, a: Action, c: Account)
    requires a.Pay? && s.meter.Some?
    ensures Step(s, a).meter.Some?
    ensures TableTotal(Step(s, a).rows, c) - Counter(Step(s, a).meter.value, c) ==
            TableTotal(s.rows, c) - Counter(s.meter.value, c) + UncountedBy(s, a, c)
  {
    if !a.faults.readFails && a.id in s.rows && s.rows[a.id].status == PendingPayment {
      var o := s.rows[a.id];
      var (txs, tx) := CallPayment(s.txs, a.newTx, o, a.payBy, a.faults.call);
      if tx.Some? {
        UpdateIsMerge(s.rows, a.id, PaidUpdate(tx.value, a.payBy), a.now, a.faults.update);
        TableTotalPut(s.rows, a.id, Merge(o, PaidUpdate(tx.value, a.payBy), a.now), c);
      }
    }
  }

  lemma {:induction false} RunLedger(s: Sys, acts: seq<Action>, c: Account)
    requires Inv(s) && s.meter.Some?
    ensures Run(s, acts).meter.Some?
    ensures TableTotal(Run(s, acts).rows, c) - Counter(Run(s, acts).meter.value, c) ==
            TableTotal(s.rows, c) - Counter(s.meter.value, c) + Uncounted(s, acts, c)
    decreases |acts|
  {
    if acts != [] {
      StepKeepsInv(s, acts[0]);
      StepLedger(s, acts[0], c);
      RunLedger(Step(s, acts[0]), acts[1..], c);
    }
  }

  /** No call of the run went unreported to this account. */
  predicate AllReported(s: Sys, acts: seq<Action>, c: Account)
    decreases |acts|
  {
    acts == [] || (!Unreported(s, acts[0], c) && AllReported(Step(s, acts[0]), acts[1..], c))
  }

  lemma UnreportedWeighsOne(s: Sys, a: Action, c: Account)
    requires Inv(s) && Unreported(s, a, c) && !c.RevenueBy?
    ensures UncountedBy(s, a, c) == 1
  {
    var rows' := Step(s, a).rows;
    if a.Pay? {
      var (_, tx) := CallPayment(s.txs, a.newTx, s.rows[a.id], a.payBy, a.faults.call);
      assert rows' == WriteRow(s.rows, a.id, Merge(s.rows[a.id], PaidUpdate(tx.value, a.payBy), a.now));
      assert rows'[a.id].status == Paid;
    } else {
      QuoteMeaning(a.items);
    }
  }

  lemma {:induction false} UncountedIsZero(s: Sys, acts: seq<Action>, c: Account)
    requires Inv(s)
    ensures AllReported(s, acts, c) ==> Uncounted(s, acts, c) == 0
    ensures !c.RevenueBy? ==> Uncounted(s, acts, c) >= 0
    ensures !c.RevenueBy? && !AllReported(s, acts, c) ==> Uncounted(s, acts, c) > 0
    decreases |acts|
  {
    if acts != [] {
      StepKeepsInv(s, acts[0]);
      if Unreported(s, acts[0], c) && !c.RevenueBy? {
        UnreportedWeighsOne(s, acts[0], c);
      }
      UncountedIsZero(Step(s, acts[0]), acts[1..], c);
    }
  }

  /** Conservation over whole runs. Every counter falls short of the table by exactly
      what went unreported to it. So when nothing did, each revenue counter equals the
      sum of the prices of the paid and completed orders with that method; and the
      created and paid counters are right if and only if nothing did. */
  lemma CountersMatchOrders(acts: seq<Action>, c: Account)
    ensures Run(Fresh(true), acts).meter.Some?
    ensures var s := Run(Fresh(true), acts);
            var total, counter := TableTotal(s.rows, c), Counter(s.meter.value, c);
            && total == counter + Uncounted(Fresh(true), acts, c)
            && (AllReported(Fresh(true), acts, c) ==> total == counter)
            && (!c.RevenueBy? && total == counter ==> AllReported(Fresh(true), acts, c))
  {
    RunLedger(Fresh(true), acts, c);
    UncountedIsZero(Fresh(true), acts, c);
  }

  /** A run whose counter is short: the payment's UPDATE takes effect, its error is
      returned, the order is paid and nobody counted it. */
  lemma PaidCounterCanFallShort() returns (acts: seq<Action>)
    ensures var s := Run(Fresh(true), acts);
            && HasStatus(s, "order", Paid) && s.meter == Some(Meter(1, 0, map[]))
            && TableTotal(s.rows, PaidOrders) == 1 && !AllReported(Fresh(true), acts, PaidOrders)
  {
    var items := [Item("part", Quoted(5, 1))];
    var create := Create("order", "user", items, Card, Clean);
    var pay := Pay("order", Card, "t0", "e0", 0, PayFaults(false, Answered, UpdateFault(false, FailedAfter), 1));
    acts := [create, pay];
    assert items[1..] == [] && Quote(items) == Success(5);
    var s1 := Step(Fresh(true), create);
    assert HasStatus(s1, "order", PendingPayment);
    RunTwo(Fresh(true), create, pay);
    var s2 := Step(s1, pay);
    TotalTakesAny(s2.rows, s2.rows.Keys, PaidOrders, "order");
    assert s2.rows.Keys - {"order"} == {};
    CountersMatchOrders(acts, PaidOrders);
  }

  function PaidAmong(rows: map<Uuid, Order>, keys: set<Uuid>): set<Uuid>
    requires keys <= rows.Keys
  {
    set k | k in keys && (rows[k].status == Paid || rows[k].status == Completed)
  }

  lemma PaidAmongSplits(rows: map<Uuid, Order>, keys: set<Uuid>, k: Uuid)
    requires keys <= rows.Keys && k in keys
    ensures |PaidAmong(rows, keys)| == |PaidAmong(rows, keys - {k})| + Weight(rows[k], PaidOrders)
  {
    var rest := PaidAmong(rows, keys - {k});
    if Weight(rows[k], PaidOrders) == 1 {
      assert PaidAmong(rows, keys) == rest + {k};
    } else {
      assert PaidAmong(rows, keys) == rest;
    }
  }

  /** The totals of created and of paid orders are head counts. */
  lemma {:induction false} TotalsAreHeadCounts(rows: map<Uuid, Order>, keys: set<Uuid>)
    requires keys <= rows.Keys
    ensures Total(rows, keys, PaidOrders) == |PaidAmong(rows, keys)|
    ensures Total(rows, keys, CreatedOrders) == |keys|
    decreases |keys|
  {
    if keys != {} {
      var k :| k in keys;
      TotalTakesAny(rows, keys, PaidOrders, k);
      TotalTakesAny(rows, keys, CreatedOrders, k);
      PaidAmongSplits(rows, keys, k);
      TotalsAreHeadCounts(rows, keys - {k});
    }
  }

  // ---- Prices -------------------------------------------------------------

  function Prices(items: seq<Item>): seq<int>
    requires forall it :: it in items ==> it.reply.Quoted?
  {
    seq(|items|, i requires 0 <= i < |items| => assert items[i] in items; items[i].reply.price)
  }

  function Sum(xs: seq<int>): int {
    if xs == [] then 0 else xs[0] + Sum(xs[1..])
  }

  lemma {:induction false} SumAppend(xs: seq<int>, ys: seq<int>)
    ensures Sum(xs + ys) == Sum(xs) + Sum(ys)
  {
    if xs == [] {
      assert xs + ys == ys;
    } else {
      assert (xs + ys)[0] == xs[0] && (xs + ys)[1..] == xs[1..] + ys;
      SumAppend(xs[1..], ys);
    }
  }

  lemma DropOne(ys: seq<int>, i: nat)
    requires i < |ys|
    ensures Sum(ys) == ys[i] + Sum(ys[..i] + ys[i + 1..])
    ensures multiset(ys) == multiset(ys[..i] + ys[i + 1..]) + multiset{ys[i]}
  {
    var xs, zs := ys[..i], ys[i + 1..];
    assert ys == xs + ([ys[i]] + zs);
    DropFromMiddle(xs, ys[i], zs);
  }

  lemma DropFromMiddle(xs: seq<int>, y: int, zs: seq<int>)
    ensures Sum(xs + ([y] + zs)) == y + Sum(xs + zs)
    ensures multiset(xs + ([y] + zs)) == multiset(xs + zs) + multiset{y}
  {
    SumAppend(xs, [y] + zs);
    SumAppend(xs, zs);
    SumCons(y, zs);
  }

  lemma SumCons(y: int, zs: seq<int>)
    ensures Sum([y] + zs) == y + Sum(zs)
  {
    assert ([y] + zs)[1..] == zs;
  }

  lemma CancelOne(a: multiset<int>, b: multiset<int>, e: int)
    requires a + multiset{e} == b + multiset{e}
    ensures a == b
  {
    assert a == a + multiset{e} - multiset{e};
  }

  /** The sum depends on the prices with their multiplicities and on nothing else. */
  lemma {:induction false} SumIsMultisetSum(xs: seq<int>, ys: seq<int>)
    requires multiset(xs) == multiset(ys)
    ensures Sum(xs) == Sum(ys)
  {
    if xs == [] {
      assert |multiset(ys)| == 0;
    } else {
      assert xs[0] in multiset(ys);
      var i :| 0 <= i < |ys| && ys[i] == xs[0];
      DropOne(ys, i);
      DropOne(xs, 0);
      assert xs[..0] + xs[1..] == xs[1..];
      var rest := ys[..i] + ys[i + 1..];
      CancelOne(multiset(xs[1..]), multiset(rest), xs[0]);
      SumIsMultisetSum(xs[1..], rest);
    }
  }

  /** A quote succeeds exactly when every part was found and in stock, with the sum
      over all positions; otherwise the error is that of the first bad part. */
  lemma {:induction false} QuoteMeaning(items: seq<Item>)
    ensures Quote(items).Success? <==> forall it :: it in items ==> InStock(it)
    ensures Quote(items).Success? ==> Quote(items).value == Sum(Prices(items))
    ensures Quote(items).Failure? ==>
              exists i :: 0 <= i < |items| && (forall j :: 0 <= j < i ==> InStock(items[j]))
                          && ItemError(items[i].reply) == Some(Quote(items).error)
  {
    if items != [] {
      QuoteMeaning(items[1..]);
      assert items[0] in items;
      assert forall it :: it in items <==> it == items[0] || it in items[1..];
      if Quote(items).Success? {
        assert Prices(items)[1..] == Prices(items[1..]);
      } else if ItemError(items[0].reply).None? {
        var i :| 0 <= i < |items[1..]| && (forall j :: 0 <= j < i ==> InStock(items[1..][j]))
                 && ItemError(items[1..][i].reply) == Some(Quote(items[1..]).error);
        var it :| it in items[1..] && !InStock(it);
        assert it in items;
        assert forall j :: 0 < j < i + 1 ==> items[j] == items[1..][j - 1];
        assert items[i + 1] == items[1..][i];
      }
    }
  }

  /** The first part that is not in stock, if there is one. */
  ghost predicate FirstBad(items: seq<Item>, i: nat) {
    i < |items| && !InStock(items[i]) && forall j :: 0 <= j < i ==> InStock(items[j])
  }

  lemma FirstBadIsLeast(items: seq<Item>, i: nat, j: nat)
    requires FirstBad(items, i) && j < |items| && !InStock(items[j])
    ensures i <= j
  {
  }

  ghost predicate FirstBadIsMissing(items: seq<Item>) {
    exists i: nat :: FirstBad(items, i) && items[i].reply.Unavailable?
  }

  ghost predicate FirstBadIsSoldOut(items: seq<Item>) {
    exists i: nat :: FirstBad(items, i) && items[i].reply.Quoted? && items[i].reply.stock <= 0
  }

  /** "Not found" if and only if the first part not in stock was not quoted at all; "out of
      stock" if and only if it was quoted with nothing left. No other error. */
  lemma QuoteAnswers(items: seq<Item>)
    ensures Quote(items) == Failure(PartNotFound) <==> FirstBadIsMissing(items)
    ensures Quote(items) == Failure(PartOutOfStock) <==> FirstBadIsSoldOut(items)
    ensures Quote(items).Failure? ==> Quote(items).error in {PartNotFound, PartOutOfStock}
  {
    QuoteMeaning(items);
    forall i: nat, j: nat | FirstBad(items, i) && FirstBad(items, j)
      ensures i == j
    {
      FirstBadIsLeast(items, i, j);
      FirstBadIsLeast(items, j, i);
    }
    if Quote(items).Failure? {
      var i: nat :| i < |items| && (forall j :: 0 <= j < i ==> InStock(items[j]))
                    && ItemError(items[i].reply) == Some(Quote(items).error);
      assert FirstBad(items, i);
    } else {
      assert forall i :: 0 <= i < |items| ==> items[i] in items;
    }
  }

  /** CreateOrder's answers, and the row it leaves: pending, unpaid, with the requested
      owner, method and parts in their order, at the sum of the quotes. */
  lemma CreateAnswers(s: Sys, a: Action)
    requires a.Create?
    ensures var (s', r) := Perform(s, a);
            var allIn := a.items != [] && forall it :: it in a.items ==> InStock(it);
            var inserted := allIn && a.id !in s.rows && !a.insert.FailedBefore?;
            && (r == Failure(NoPartsSpecified) <==> a.items == [])
            && (r == Failure(PartNotFound) <==> FirstBadIsMissing(a.items))
            && (r == Failure(PartOutOfStock) <==> FirstBadIsSoldOut(a.items))
            && (r == Failure(CreateFailed) <==> allIn && (a.id in s.rows || !a.insert.Clean?))
            && (r == Success(a.id) <==> allIn && a.id !in s.rows && a.insert.Clean?)
            && (!inserted ==> s' == s)
            && (inserted ==>
                  && s'.rows - {a.id} == s.rows && a.id in s'.rows
                  && s'.txs == s.txs && s'.paidLog == s.paidLog && s'.shipLog == s.shipLog
                  && CreatedBy(a, s'.rows[a.id])
                  && s'.rows[a.id].status == PendingPayment && s'.rows[a.id].transactionId == ""
                  && s'.rows[a.id].paymentMethod == a.payBy && s'.rows[a.id].updatedAt == None
                  && |s'.rows[a.id].partIds| == |a.items|
                  && forall i :: 0 <= i < |a.items| ==> s'.rows[a.id].partIds[i] == a.items[i].part)
  {
    QuoteMeaning(a.items);
    QuoteAnswers(a.items);
  }

  /** The part of a row no later step may touch. */
  predicate SameOrder(o: Order, o': Order) {
    o.uuid == o'.uuid && o.userId == o'.userId && o.partIds == o'.partIds && o.totalPrice == o'.totalPrice
  }

  lemma {:induction false} OrderKeepsItsPrice(s: Sys, acts: seq<Action>, id: Uuid)
    requires Inv(s) && id in s.rows
    ensures id in Run(s, acts).rows && SameOrder(s.rows[id], Run(s, acts).rows[id])
    decreases |acts|
  {
    if acts != [] {
      StepKeepsInv(s, acts[0]);
      StepKeepsPrices(s, acts[0], id);
      OrderKeepsItsPrice(Step(s, acts[0]), acts[1..], id);
    }
  }

  lemma StepKeepsPrices(s: Sys, a: Action, id: Uuid)
    requires id in s.rows
    ensures id in Step(s, a).rows && SameOrder(s.rows[id], Step(s, a).rows[id])
  {
    if a.Pay? {
      PayShape(s, a);
    }
  }

  /** This action created this order, at the sum of what it was quoted. */
  ghost predicate CreatedBy(a: Action, o: Order) {
    && a.Create? && a.id == o.uuid && a.user == o.userId && a.items != []
    && (forall it :: it in a.items ==> InStock(it))
    && PartIds(a.items) == o.partIds
    && Sum(Prices(a.items)) == o.totalPrice
  }

  /** Every order in the table was put there by a CreateOrder of the run, and its
      TotalPrice is still the sum of the prices quoted then, one for each listed part. */
  lemma {:induction false} PriceIsQuotedSum(s: Sys, acts: seq<Action>, id: Uuid)
    requires Inv(s) && id !in s.rows && id in Run(s, acts).rows
    ensures exists a :: a in acts && CreatedBy(a, Run(s, acts).rows[id])
    decreases |acts|
  {
    var a, s' := acts[0], Step(s, acts[0]);
    StepKeepsInv(s, a);
    if id in s'.rows {
      CreatedNow(s, a, id);
      OrderKeepsItsPrice(s', acts[1..], id);
      assert CreatedBy(a, Run(s, acts).rows[id]);
    } else {
      PriceIsQuotedSum(s', acts[1..], id);
      var b :| b in acts[1..] && CreatedBy(b, Run(s', acts[1..]).rows[id]);
      assert b in acts;
    }
  }

  /** Only a CreateOrder adds a row, and this is the row it adds. */
  lemma CreatedNow(s: Sys, a: Action, id: Uuid)
    requires Inv(s) && id !in s.rows && id in Step(s, a).rows
    ensures CreatedBy(a, Step(s, a).rows[id])
  {
    if a.Pay? {
      PayShape(s, a);
    }
    assert a.Create? && a.id == id;
    QuoteMeaning(a.items);
  }
}
