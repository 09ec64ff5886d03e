/** The serialised system with its two topics consumed as the consumer loop does it:
    partition by partition, in order, marking on success only, resuming at what was
    committed. Which paid orders can still be assembled, and which never will be. */
module Consumption {
  import opened Wrappers
  import opened Domain
  import opened OrderProtocol
  import opened Serialised
  import ConsumerGroup

  datatype Topic = PaidTopic | ShipTopic

  // One partition of one topic, as claimed by a consumer.
  datatype Claim = Claim(topic: Topic, partition: nat)

  /** What was committed, what is marked, and the position from which the next message of
      the claim is delivered; all as positions in the whole topic. */
  datatype Reader = Reader(committed: nat, mark: nat, next: nat)

  // The partition each position of a topic falls into; keys are random.
  type Split = (Topic, nat) -> nat

  datatype CState = CState(sys: Sys, readers: map<Claim, Reader>) {
    function Of(claim: Claim): Reader {
      if claim in readers then readers[claim] else Reader(0, 0, 0)
    }
  }

  /** A use case or handler call; a commit; or a new session, after a crash or not. */
  datatype CStep = Do(a: Action) | Commit(claim: Claim) | Resume(claim: Claim)

  function Length(s: Sys, topic: Topic): nat {
    if topic.PaidTopic? then |s.paidLog| else |s.shipLog|
  }

  function OrderAt(s: Sys, topic: Topic, at: nat): Uuid
    requires at < Length(s, topic)
  {
    if topic.PaidTopic? then s.paidLog[at].orderId else s.shipLog[at].orderId
  }

  function ClaimOf(split: Split, topic: Topic, at: nat): Claim {
    Claim(topic, split(topic, at))
  }

  /** No message of this claim at any position from..to. */
  ghost predicate NothingBetween(split: Split, claim: Claim, from: nat, to: nat) {
    forall j :: from <= j < to ==> ClaimOf(split, claim.topic, j) != claim
  }

  /** The message at this position is the next one its claim delivers. */
  ghost predicate Ready(split: Split, c: CState, topic: Topic, at: nat) {
    var claim := ClaimOf(split, topic, at);
    c.Of(claim).next <= at < Length(c.sys, topic) && NothingBetween(split, claim, c.Of(claim).next, at)
  }

  predicate IsHandler(a: Action) {
    a.HandlePaid? || a.HandleShip?
  }

  function TopicOf(a: Action): Topic
    requires IsHandler(a)
  {
    if a.HandlePaid? then PaidTopic else ShipTopic
  }

  /** The loop's treatment of one message: marked if its handler succeeded, passed over
      if not. */
  function Passed(r: Reader, at: nat, ok: bool): Reader {
    r.(next := at + 1, mark := if ok then ConsumerGroup.Marked(r.mark, at) else r.mark)
  }

  /** One step; a handler call for a message that is not next does not happen. */
  ghost function Next(split: Split, c: CState, x: CStep): CState {
    match x
    case Do(a) =>
      if !IsHandler(a) then c.(sys := Step(c.sys, a))
      else if !Ready(split, c, TopicOf(a), a.at) then c
      else
        var claim := ClaimOf(split, TopicOf(a), a.at);
        var (sys, r) := Perform(c.sys, a);
        CState(sys, c.readers[claim := Passed(c.Of(claim), a.at, r.Success?)])
    case Commit(claim) => c.(readers := c.readers[claim := c.Of(claim).(committed := c.Of(claim).mark)])
    case Resume(claim) =>
      var from := c.Of(claim).committed;
      c.(readers := c.readers[claim := Reader(from, from, from)])
  }

  ghost function After(split: Split, c: CState, xs: seq<CStep>): CState
    decreases |xs|
  {
    if xs == [] then c else After(split, Next(split, c, xs[0]), xs[1..])
  }

  lemma {:induction false} AfterConcat(split: Split, c: CState, xs: seq<CStep>, ys: seq<CStep>)
    ensures After(split, c, xs + ys) == After(split, After(split, c, xs), ys)
    decreases |xs|
  {
    if xs == [] {
      assert xs + ys == ys;
    } else {
      assert (xs + ys)[0] == xs[0] && (xs + ys)[1..] == xs[1..] + ys;
      AfterConcat(split, Next(split, c, xs[0]), xs[1..], ys);
    }
  }

  lemma AfterOne(split: Split, c: CState, x: CStep)
    ensures After(split, c, [x]) == Next(split, c, x)
  {
    assert [x][1..] == [];
  }

  function Start(metered: bool): CState {
    CState(Fresh(metered), map[])
  }

  /** Every such run is a serialised run, so all that holds of those holds here. */
  lemma {:induction false} ConsumedRunsAreSerialised(split: Split, c: CState, xs: seq<CStep>)
    returns (acts: seq<Action>)
    ensures Run(c.sys, acts) == After(split, c, xs).sys
    decreases |xs|
  {
    if xs == [] {
      acts := [];
    } else {
      var c' := Next(split, c, xs[0]);
      var rest := ConsumedRunsAreSerialised(split, c', xs[1..]);
      if c'.sys == c.sys {
        acts := rest;
      } else {
        acts := [xs[0].a] + rest;
        assert acts[1..] == rest;
      }
    }
  }

  // ---- The invariant ----------------------------------------------------------

  ghost predicate CInv(c: CState) {
    && Inv(c.sys)
    && forall claim :: claim in c.readers ==>
         var r := c.readers[claim]; r.committed <= r.mark <= r.next <= Length(c.sys, claim.topic)
  }

  lemma StepGrowsTopics(s: Sys, a: Action)
    ensures s.paidLog <= Step(s, a).paidLog && s.shipLog <= Step(s, a).shipLog
  {
  }

  lemma NextKeepsCInv(split: Split, c: CState, x: CStep)
    requires CInv(c)
    ensures CInv(Next(split, c, x))
  {
    if x.Do? {
      StepKeepsInv(c.sys, x.a);
      StepGrowsTopics(c.sys, x.a);
    }
  }

  lemma {:induction false} CInvAlways(split: Split, c: CState, xs: seq<CStep>)
    requires CInv(c)
    ensures CInv(After(split, c, xs))
    decreases |xs|
  {
    if xs != [] {
      NextKeepsCInv(split, c, xs[0]);
      CInvAlways(split, Next(split, c, xs[0]), xs[1..]);
    }
  }

  /** This step's handler succeeded on the message just below the given position. */
  ghost predicate SucceededBelow(split: Split, c: CState, x: CStep, claim: Claim, position: nat) {
    && x.Do? && IsHandler(x.a) && TopicOf(x.a) == claim.topic && x.a.at + 1 == position
    && ClaimOf(split, claim.topic, x.a.at) == claim
    && Ready(split, c, TopicOf(x.a), x.a.at) && Perform(c.sys, x.a).1.Success?
  }

  ghost predicate OnceSucceeded(split: Split, c: CState, xs: seq<CStep>, claim: Claim, position: nat)
    decreases |xs|
  {
    xs != [] && (SucceededBelow(split, c, xs[0], claim, position)
                 || OnceSucceeded(split, Next(split, c, xs[0]), xs[1..], claim, position))
  }

  /** A mark, and what is committed, only ever moves to one past a message that its
      handler succeeded on. */
  lemma {:induction false} MarksArePastSuccesses(split: Split, c: CState, xs: seq<CStep>, claim: Claim)
    ensures var now, later := c.Of(claim), After(split, c, xs).Of(claim);
            && (later.mark in {now.mark, now.committed} || OnceSucceeded(split, c, xs, claim, later.mark))
            && (later.committed in {now.mark, now.committed} || OnceSucceeded(split, c, xs, claim, later.committed))
    decreases |xs|
  {
    if xs != [] {
      MarksArePastSuccesses(split, Next(split, c, xs[0]), xs[1..], claim);
    }
  }

  /** A message naming the order that was not committed: it is or can again be ahead. */
  ghost predicate AheadAt(split: Split, c: CState, id: Uuid, topic: Topic, at: nat) {
    && at < Length(c.sys, topic) && OrderAt(c.sys, topic, at) == id
    && c.Of(ClaimOf(split, topic, at)).committed <= at
  }

  ghost predicate Ahead(split: Split, c: CState, id: Uuid) {
    exists topic, at: nat :: AheadAt(split, c, id, topic, at)
  }

  ghost predicate EndsAfter(split: Split, c: CState, xs: seq<CStep>, id: Uuid, st: Status) {
    HasStatus(After(split, c, xs).sys, id, st)
  }

  // ---- Without one: PAID for ever ---------------------------------------------

  ghost predicate Lost(split: Split, c: CState, id: Uuid) {
    HasStatus(c.sys, id, Paid) && !Ahead(split, c, id)
  }

  lemma LostStaysOnCall(split: Split, c: CState, a: Action, id: Uuid)
    requires CInv(c) && Lost(split, c, id) && !IsHandler(a)
    ensures Lost(split, Next(split, c, Do(a)), id)
  {
    var c' := Next(split, c, Do(a));
    match a {
      case Pay(_, _, _, _, _, _) => PayShape(c.sys, a);
      case Cancel(_, _, _, _) => UpdateIsMerge(c.sys.rows, a.id, StatusUpdate(Cancelled), a.now, a.update);
      case _ =>
    }
    forall topic, at: nat
      ensures !AheadAt(split, c', id, topic, at)
    {
      assert !AheadAt(split, c, id, topic, at);
    }
  }

  lemma LostStaysOnMessage(split: Split, c: CState, a: Action, id: Uuid)
    requires CInv(c) && Lost(split, c, id) && IsHandler(a) && Ready(split, c, TopicOf(a), a.at)
    ensures Lost(split, Next(split, c, Do(a)), id)
  {
    var c' := Next(split, c, Do(a));
    assert !AheadAt(split, c, id, TopicOf(a), a.at);
    if a.HandleShip? {
      UpdateIsMerge(c.sys.rows, c.sys.shipLog[a.at].orderId, StatusUpdate(Completed), a.now, a.update);
    }
    forall topic, at: nat
      ensures !AheadAt(split, c', id, topic, at)
    {
      assert !AheadAt(split, c, id, topic, at);
    }
  }

  lemma LostStays(split: Split, c: CState, x: CStep, id: Uuid)
    requires CInv(c) && Lost(split, c, id)
    ensures Lost(split, Next(split, c, x), id)
  {
    if x.Do? {
      if !IsHandler(x.a) {
        LostStaysOnCall(split, c, x.a, id);
      } else if Ready(split, c, TopicOf(x.a), x.a.at) {
        LostStaysOnMessage(split, c, x.a, id);
      }
    } else {
      forall topic, at: nat
        ensures !AheadAt(split, Next(split, c, x), id, topic, at)
      {
        assert !AheadAt(split, c, id, topic, at);
      }
    }
  }

  lemma {:induction false} LostForEver(split: Split, c: CState, xs: seq<CStep>, id: Uuid)
    requires CInv(c) && Lost(split, c, id)
    ensures Lost(split, After(split, c, xs), id)
    decreases |xs|
  {
    if xs != [] {
      NextKeepsCInv(split, c, xs[0]);
      LostStays(split, c, xs[0], id);
      LostForEver(split, Next(split, c, xs[0]), xs[1..], id);
    }
  }

  // ---- With one: resume, pass over what comes first, handle it ------------------

  /** A delivery that fails and changes nothing but where its claim is. */
  function FailingCall(topic: Topic, at: nat): Action {
    if topic.PaidTopic? then HandlePaid(at, "", 1, true, 0, false)
    else HandleShip(at, 0, UpdateFault(true, Clean))
  }

  lemma FailingCallPasses(split: Split, c: CState, topic: Topic, at: nat)
    requires CInv(c) && Ready(split, c, topic, at)
    ensures var claim := ClaimOf(split, topic, at);
            var c' := Next(split, c, Do(FailingCall(topic, at)));
            c'.sys == c.sys && c'.Of(claim).next == at + 1
  {
  }

  lemma {:induction false} PassOver(split: Split, c: CState, topic: Topic, at: nat, k: nat) returns (xs: seq<CStep>)
    requires CInv(c) && at < Length(c.sys, topic)
    requires c.Of(ClaimOf(split, topic, at)).next <= k <= at
    requires NothingBetween(split, ClaimOf(split, topic, at), c.Of(ClaimOf(split, topic, at)).next, k)
    ensures var c' := After(split, c, xs); CInv(c') && c'.sys == c.sys && Ready(split, c', topic, at)
    decreases at - k
  {
    if k == at {
      xs := [];
    } else if ClaimOf(split, topic, k) != ClaimOf(split, topic, at) {
      xs := PassOver(split, c, topic, at, k + 1);
    } else {
      var x := Do(FailingCall(topic, k));
      FailingCallPasses(split, c, topic, k);
      NextKeepsCInv(split, c, x);
      var rest := PassOver(split, Next(split, c, x), topic, at, k + 1);
      xs := [x] + rest;
      assert xs[1..] == rest;
    }
  }

  lemma CanBeNext(split: Split, c: CState, topic: Topic, at: nat) returns (xs: seq<CStep>)
    requires CInv(c) && at < Length(c.sys, topic) && c.Of(ClaimOf(split, topic, at)).committed <= at
    ensures var c' := After(split, c, xs); CInv(c') && c'.sys == c.sys && Ready(split, c', topic, at)
  {
    var claim := ClaimOf(split, topic, at);
    var c1 := Next(split, c, Resume(claim));
    NextKeepsCInv(split, c, Resume(claim));
    var rest := PassOver(split, c1, topic, at, c1.Of(claim).next);
    xs := [Resume(claim)] + rest;
    assert xs[1..] == rest;
  }

  lemma ShippedCanComplete(split: Split, c: CState, id: Uuid, at: nat) returns (xs: seq<CStep>)
    requires CInv(c) && id in c.sys.rows && AheadAt(split, c, id, ShipTopic, at)
    ensures EndsAfter(split, c, xs, id, Completed)
  {
    var first := CanBeNext(split, c, ShipTopic, at);
    var x := Do(HandleShip(at, 0, UpdateFault(false, Clean)));
    xs := first + [x];
    AfterConcat(split, c, first, [x]);
    AfterOne(split, After(split, c, first), x);
  }

  lemma AnnouncedCanComplete(split: Split, c: CState, id: Uuid, at: nat) returns (xs: seq<CStep>)
    requires CInv(c) && id in c.sys.rows && AheadAt(split, c, id, PaidTopic, at)
    ensures EndsAfter(split, c, xs, id, Completed)
  {
    var first := CanBeNext(split, c, PaidTopic, at);
    var x := Do(HandlePaid(at, "", 1, false, 1, false));
    var c1 := After(split, c, first);
    var c2 := Next(split, c1, x);
    NextKeepsCInv(split, c1, x);
    AfterOne(split, c1, x);
    AfterConcat(split, c, first, [x]);
    assert AheadAt(split, c2, id, ShipTopic, |c1.sys.shipLog|);
    var rest := ShippedCanComplete(split, c2, id, |c1.sys.shipLog|);
    xs := first + [x] + rest;
    AfterConcat(split, c, first + [x], rest);
  }

  /** Exactly which paid orders can still be assembled, after any run with any faults,
      under any split into partitions: those that some message, in either topic, at or
      past what its partition has committed, names. All others are PAID for ever. */
  lemma PaidOrderCanComplete(split: Split, metered: bool, before: seq<CStep>, id: Uuid)
    requires EndsAfter(split, Start(metered), before, id, Paid)
    ensures var c := After(split, Start(metered), before);
            && (Ahead(split, c, id) <==> exists after :: EndsAfter(split, c, after, id, Completed))
            && (!Ahead(split, c, id) ==> forall after :: EndsAfter(split, c, after, id, Paid))
  {
    var c := After(split, Start(metered), before);
    CInvAlways(split, Start(metered), before);
    if topic, at: nat :| AheadAt(split, c, id, topic, at) {
      var after;
      if topic.PaidTopic? {
        after := AnnouncedCanComplete(split, c, id, at);
      } else {
        after := ShippedCanComplete(split, c, id, at);
      }
      assert EndsAfter(split, c, after, id, Completed);
    } else {
      forall after
        ensures EndsAfter(split, c, after, id, Paid) && !EndsAfter(split, c, after, id, Completed)
      {
        LostForEver(split, c, after, id);
      }
    }
  }

  // ---- A run in which an announced order is lost ---------------------------------

  const NO_FAULTS := PayFaults(false, Answered, UpdateFault(false, Clean), 1)
  const ITEMS := [Item("part", Quoted(5, 1))]

  function MakeOrder(id: Uuid): CStep {
    Do(Create(id, "user", ITEMS, Card, Clean))
  }

  function PayFor(id: Uuid, tx: Uuid): CStep {
    Do(Pay(id, Card, tx, "", 0, NO_FAULTS))
  }

  function Made(id: Uuid): Order {
    Order(id, "user", PartIds(ITEMS), 5, "", Card, PendingPayment, None)
  }

  function PaidRow(id: Uuid, tx: Uuid): Order {
    Made(id).(status := Paid, transactionId := tx, updatedAt := Some(0))
  }

  lemma MakeTwo(split: Split) returns (c: CState)
    ensures c == After(split, Start(false), [MakeOrder("a"), MakeOrder("b")])
    ensures c == CState(Fresh(false).(rows := map["a" := Made("a"), "b" := Made("b")]), map[])
  {
    assert ITEMS[1..] == [] && Quote(ITEMS[1..]) == Success(0) && Quote(ITEMS) == Success(5);
    var c1 := Next(split, Start(false), MakeOrder("a"));
    assert c1.sys.rows == map["a" := Made("a")];
    c := Next(split, c1, MakeOrder("b"));
    assert c.sys.rows == map["a" := Made("a"), "b" := Made("b")];
    AfterOne(split, Start(false), MakeOrder("a"));
    AfterOne(split, c1, MakeOrder("b"));
    assert [MakeOrder("a"), MakeOrder("b")] == [MakeOrder("a")] + [MakeOrder("b")];
    AfterConcat(split, Start(false), [MakeOrder("a")], [MakeOrder("b")]);
  }

  lemma PayTwo(split: Split, c: CState) returns (c': CState)
    requires c == CState(Fresh(false).(rows := map["a" := Made("a"), "b" := Made("b")]), map[])
    ensures c' == After(split, c, [PayFor("a", "t0"), PayFor("b", "t1")])
    ensures c'.readers == map[] && c'.sys.shipLog == [] && HasStatus(c'.sys, "a", Paid)
    ensures c'.sys.paidLog == [OrderPaid("", "a", "user", Card, "t0"), OrderPaid("", "b", "user", Card, "t1")]
  {
    var c1 := Next(split, c, PayFor("a", "t0"));
    assert c1.sys.rows["a"] == PaidRow("a", "t0") && c1.sys.rows["b"] == Made("b");
    assert c1.sys.paidLog == [OrderPaid("", "a", "user", Card, "t0")];
    c' := Next(split, c1, PayFor("b", "t1"));
    AfterOne(split, c, PayFor("a", "t0"));
    AfterOne(split, c1, PayFor("b", "t1"));
    assert [PayFor("a", "t0"), PayFor("b", "t1")] == [PayFor("a", "t0")] + [PayFor("b", "t1")];
    AfterConcat(split, c, [PayFor("a", "t0")], [PayFor("b", "t1")]);
  }

  /** Assembling a fails to send, b behind it succeeds, and that is committed: the mark
      is past both. */
  lemma PassOne(split: Split, c: CState) returns (xs: seq<CStep>)
    requires split(PaidTopic, 0) == split(PaidTopic, 1) == 0
    requires c.readers == map[] && c.sys.shipLog == [] && HasStatus(c.sys, "a", Paid)
    requires c.sys.paidLog == [OrderPaid("", "a", "user", Card, "t0"), OrderPaid("", "b", "user", Card, "t1")]
    ensures var c' := After(split, c, xs);
            && HasStatus(c'.sys, "a", Paid) && Announced(c'.sys, "a") && !Ahead(split, c', "a")
  {
    var claim := Claim(PaidTopic, 0);
    var fails, works := Do(HandlePaid(0, "", 1, false, 0, true)), Do(HandlePaid(1, "", 1, false, 1, false));
    xs := [fails] + [works] + [Commit(claim)];
    var c1 := Next(split, c, fails);
    assert c1 == CState(c.sys, map[claim := Reader(0, 0, 1)]);
    var c2 := Next(split, c1, works);
    assert c2.Of(claim) == Reader(0, 2, 2) && c2.sys.shipLog == [ShipAssembled("", "b", "user", 1)];
    var c3 := Next(split, c2, Commit(claim));
    AfterOne(split, c, fails);
    AfterOne(split, c1, works);
    AfterOne(split, c2, Commit(claim));
    AfterConcat(split, c, [fails], [works]);
    AfterConcat(split, c, [fails] + [works], [Commit(claim)]);
    assert c3.sys.paidLog[0].orderId == "a";
  }

  lemma LosingRun(split: Split) returns (xs: seq<CStep>)
    requires split(PaidTopic, 0) == split(PaidTopic, 1) == 0
    ensures var c := After(split, Start(false), xs);
            HasStatus(c.sys, "a", Paid) && Announced(c.sys, "a") && !Ahead(split, c, "a")
  {
    var makes, pays := [MakeOrder("a"), MakeOrder("b")], [PayFor("a", "t0"), PayFor("b", "t1")];
    var c1 := MakeTwo(split);
    var c2 := PayTwo(split, c1);
    var rest := PassOne(split, c2);
    AfterConcat(split, Start(false), makes, pays);
    AfterConcat(split, Start(false), makes + pays, rest);
    xs := makes + pays + rest;
  }

  /** Announced but lost: the order's one OrderPaid is in the topic, below what is
      committed, and never succeeded; the order is PAID for ever. */
  lemma AnnouncedOrderCanBeLost(split: Split) returns (xs: seq<CStep>)
    requires split(PaidTopic, 0) == split(PaidTopic, 1) == 0
    ensures Announced(After(split, Start(false), xs).sys, "a")
    ensures forall after :: EndsAfter(split, Start(false), xs + after, "a", Paid)
  {
    xs := LosingRun(split);
    CInvAlways(split, Start(false), xs);
    forall after
      ensures EndsAfter(split, Start(false), xs + after, "a", Paid)
    {
      AfterConcat(split, Start(false), xs, after);
      LostForEver(split, After(split, Start(false), xs), after, "a");
    }
  }
}
