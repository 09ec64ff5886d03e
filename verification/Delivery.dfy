/** Delivering ShipAssembled messages: order, repetition and partitions do not matter. */
module Delivery {
  import opened Wrappers
  import opened Domain
  import opened OrderProtocol

  /** The rows without their updated_at column. */
  function Undated(rows: map<Uuid, Order>): map<Uuid, Order> {
    map k | k in rows :: rows[k].(updatedAt := None)
  }

  /** A handler call whose UPDATE took effect, whatever it reported. */
  predicate TakesEffect(s: Sys, a: Action) {
    a.HandleShip? && a.at < |s.shipLog| && !a.update.readFails && !a.update.write.FailedBefore?
  }

  /** The orders named by the messages that took effect. */
  function Named(s: Sys, acts: seq<Action>): set<Uuid> {
    set a | a in acts && TakesEffect(s, a) :: s.shipLog[a.at].orderId
  }

  function CompleteAll(rows: map<Uuid, Order>, ids: set<Uuid>): map<Uuid, Order> {
    map k | k in rows :: if k in ids then rows[k].(status := Completed) else rows[k]
  }

  predicate Deliveries(acts: seq<Action>) {
    forall a :: a in acts ==> a.HandleShip?
  }

  lemma OneDelivery(s: Sys, a: Action)
    requires a.HandleShip?
    ensures Undated(Step(s, a).rows) ==
            Undated(CompleteAll(s.rows, if TakesEffect(s, a) then {s.shipLog[a.at].orderId} else {}))
    ensures Step(s, a) == s.(rows := Step(s, a).rows)
  {
  }

  lemma CompleteAllTwice(rows: map<Uuid, Order>, rows': map<Uuid, Order>, ids: set<Uuid>, more: set<Uuid>)
    requires Undated(rows') == Undated(CompleteAll(rows, ids))
    ensures Undated(CompleteAll(rows', more)) == Undated(CompleteAll(rows, ids + more))
  {
    var l, r := Undated(CompleteAll(rows', more)), Undated(CompleteAll(rows, ids + more));
    assert Undated(rows').Keys == rows'.Keys == rows.Keys;
    forall k | k in rows
      ensures l[k] == r[k]
    {
      assert Undated(rows')[k] == Undated(CompleteAll(rows, ids))[k];
    }
  }

  lemma NamedSplits(s: Sys, acts: seq<Action>)
    requires acts != [] && Deliveries(acts)
    ensures Named(s, acts) ==
            (if TakesEffect(s, acts[0]) then {s.shipLog[acts[0].at].orderId} else {}) + Named(s, acts[1..])
  {
    assert forall b :: b in acts <==> b == acts[0] || b in acts[1..];
  }

  /** The closed form: exactly the existing orders named become COMPLETED; their
      transaction, method and everything else but updated_at are unchanged. */
  lemma {:induction false} DeliveryCompletesExactlyTheNamed(s: Sys, acts: seq<Action>)
    requires Deliveries(acts)
    ensures Undated(Run(s, acts).rows) == Undated(CompleteAll(s.rows, Named(s, acts)))
    ensures Run(s, acts) == s.(rows := Run(s, acts).rows)
    decreases |acts|
  {
    if acts == [] {
      assert CompleteAll(s.rows, Named(s, acts)) == s.rows;
    } else {
      var a, s' := acts[0], Step(s, acts[0]);
      assert a in acts;
      OneDelivery(s, a);
      DeliveryCompletesExactlyTheNamed(s', acts[1..]);
      assert Named(s', acts[1..]) == Named(s, acts[1..]);
      var first := if TakesEffect(s, a) then {s.shipLog[a.at].orderId} else {};
      CompleteAllTwice(s.rows, s'.rows, first, Named(s, acts[1..]));
      NamedSplits(s, acts);
    }
  }

  /** Two ways of delivering, with any order, repetition, timing, failures and split
      over partitions, give the same rows up to updated_at if they name the same orders. */
  lemma DeliveryOrderIsIrrelevant(s: Sys, one: seq<Action>, other: seq<Action>)
    requires Deliveries(one) && Deliveries(other)
    requires Named(s, one) == Named(s, other)
    ensures Undated(Run(s, one).rows) == Undated(Run(s, other).rows)
  {
    DeliveryCompletesExactlyTheNamed(s, one);
    DeliveryCompletesExactlyTheNamed(s, other);
  }

  /** In particular, what each partition was handed, concatenated in any order with
      any interleaving of the same calls. */
  lemma AnyInterleavingOfPartitions(s: Sys, left: seq<Action>, right: seq<Action>, mixed: seq<Action>)
    requires Deliveries(left) && Deliveries(right)
    requires multiset(mixed) == multiset(left) + multiset(right)
    ensures Undated(Run(s, mixed).rows) == Undated(Run(s, left + right).rows)
  {
    assert forall a :: a in mixed <==> a in multiset(mixed);
    assert forall a :: a in left + right <==> a in multiset(left) + multiset(right);
    assert Named(s, mixed) == Named(s, left + right);
    DeliveryOrderIsIrrelevant(s, mixed, left + right);
  }
}
