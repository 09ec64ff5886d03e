/** The Kafka consumer loop over one partition, through any number of sessions.

    Assumed of the client library: a session delivers the partition in offset order
    starting at its mark, and marking a message moves the mark to one past its offset,
    never backwards. A session is given as the handler's outcomes, in delivery order. */
module ConsumerGroup {

  /** The mark after one more message was marked. */
  function Marked(mark: nat, offset: nat): nat {
    if offset + 1 > mark then offset + 1 else mark
  }

  /** The mark after delivering from the given offset on: marked on success only. */
  function MarkFrom(mark: nat, offset: nat, outcomes: seq<bool>): nat
    decreases |outcomes|
  {
    if outcomes == [] then mark
    else MarkFrom(if outcomes[0] then Marked(mark, offset) else mark, offset + 1, outcomes[1..])
  }

  /** The mark at the start of session s; every session resumes where the last left it. */
  function StartOf(start: nat, runs: seq<seq<bool>>, s: nat): nat
    requires s <= |runs|
  {
    if s == 0 then start
    else MarkFrom(StartOf(start, runs, s - 1), StartOf(start, runs, s - 1), runs[s - 1])
  }

  function FinalMark(start: nat, runs: seq<seq<bool>>): nat {
    StartOf(start, runs, |runs|)
  }

  /** In session s the message with this offset was delivered at position i. */
  ghost predicate DeliveredAt(start: nat, runs: seq<seq<bool>>, s: nat, i: nat, offset: nat) {
    s < |runs| && i < |runs[s]| && StartOf(start, runs, s) + i == offset
  }

  ghost predicate Delivered(start: nat, runs: seq<seq<bool>>, offset: nat) {
    exists s: nat, i: nat :: DeliveredAt(start, runs, s, i, offset)
  }

  ghost predicate Succeeded(start: nat, runs: seq<seq<bool>>, offset: nat) {
    exists s: nat, i: nat :: DeliveredAt(start, runs, s, i, offset) && runs[s][i]
  }

  /** In some session this message failed and a later one then succeeded. */
  ghost predicate Skipped(start: nat, runs: seq<seq<bool>>, offset: nat) {
    exists s: nat, i: nat, j: nat ::
      DeliveredAt(start, runs, s, i, offset) && !runs[s][i] && i < j < |runs[s]| && runs[s][j]
  }

  /** One session: the mark ends one past its last success, and only failures follow. */
  lemma {:induction false} MarkIsPastLastSuccess(mark: nat, offset: nat, outcomes: seq<bool>)
    requires mark <= offset
    ensures var m := MarkFrom(mark, offset, outcomes);
            && mark <= m <= offset + |outcomes|
            && (m == mark || (offset < m && outcomes[m - 1 - offset]))
            && (forall j :: 0 <= j < |outcomes| && outcomes[j] ==> offset + j < m)
    decreases |outcomes|
  {
    if outcomes != [] {
      MarkIsPastLastSuccess(if outcomes[0] then Marked(mark, offset) else mark, offset + 1, outcomes[1..]);
      var m := MarkFrom(mark, offset, outcomes);
      forall j | 0 <= j < |outcomes| && outcomes[j]
        ensures offset + j < m
      {
        if j > 0 {
          assert outcomes[1..][j - 1];
        }
      }
    }
  }

  lemma {:induction false} MarkNeverMovesBack(start: nat, runs: seq<seq<bool>>, s: nat, t: nat)
    requires s <= t <= |runs|
    ensures StartOf(start, runs, s) <= StartOf(start, runs, t)
    decreases t - s
  {
    if s < t {
      var m := StartOf(start, runs, t - 1);
      MarkIsPastLastSuccess(m, m, runs[t - 1]);
      MarkNeverMovesBack(start, runs, s, t - 1);
    }
  }

  /** The session that moved the mark past an offset, and where it delivered it. */
  lemma {:induction false} PassedIn(start: nat, runs: seq<seq<bool>>, t: nat, offset: nat) returns (s: nat, i: nat)
    requires t <= |runs| && start <= offset < StartOf(start, runs, t)
    ensures s < t && DeliveredAt(start, runs, s, i, offset)
    ensures offset < StartOf(start, runs, s + 1)
    decreases t
  {
    var m := StartOf(start, runs, t - 1);
    if offset < m {
      s, i := PassedIn(start, runs, t - 1, offset);
    } else {
      MarkIsPastLastSuccess(m, m, runs[t - 1]);
      s, i := t - 1, offset - m;
    }
  }

  lemma {:induction false} MarkIsPastASuccess(start: nat, runs: seq<seq<bool>>, t: nat)
    requires t <= |runs|
    ensures StartOf(start, runs, t) == start
            || (start < StartOf(start, runs, t) && Succeeded(start, runs, StartOf(start, runs, t) - 1))
    decreases t
  {
    if t > 0 {
      var m, m' := StartOf(start, runs, t - 1), StartOf(start, runs, t);
      MarkIsPastASuccess(start, runs, t - 1);
      MarkIsPastLastSuccess(m, m, runs[t - 1]);
      MarkNeverMovesBack(start, runs, 0, t - 1);
      if m' != m {
        assert DeliveredAt(start, runs, t - 1, m' - 1 - m, m' - 1);
      }
    }
  }

  /** A message that once succeeded is below the mark from then on and never comes back. */
  lemma SuccessIsFinal(start: nat, runs: seq<seq<bool>>, s: nat, i: nat, offset: nat)
    requires DeliveredAt(start, runs, s, i, offset) && runs[s][i]
    ensures offset < StartOf(start, runs, s + 1)
    ensures forall t: nat, j: nat :: DeliveredAt(start, runs, t, j, offset) ==> t <= s
  {
    var m := StartOf(start, runs, s);
    MarkIsPastLastSuccess(m, m, runs[s]);
    forall t: nat, j: nat | DeliveredAt(start, runs, t, j, offset)
      ensures t <= s
    {
      if s < t {
        MarkNeverMovesBack(start, runs, s + 1, t);
      }
    }
  }

  /** What the mark says, after any number of sessions: it is the start or one past a
      message that succeeded; everything below it was delivered; and a message below it
      never succeeded if and only if it failed before a later success of its session. */
  lemma WhatTheMarkMeans(start: nat, runs: seq<seq<bool>>)
    ensures start <= FinalMark(start, runs)
    ensures FinalMark(start, runs) == start || Succeeded(start, runs, FinalMark(start, runs) - 1)
    ensures forall o: nat :: start <= o < FinalMark(start, runs) ==> Delivered(start, runs, o)
    ensures forall o: nat :: start <= o < FinalMark(start, runs) ==>
              (!Succeeded(start, runs, o) <==> Skipped(start, runs, o))
  {
    MarkNeverMovesBack(start, runs, 0, |runs|);
    MarkIsPastASuccess(start, runs, |runs|);
    forall o: nat | start <= o < FinalMark(start, runs)
      ensures Delivered(start, runs, o)
      ensures !Succeeded(start, runs, o) <==> Skipped(start, runs, o)
    {
      var s, i := PassedIn(start, runs, |runs|, o);
      if !Succeeded(start, runs, o) {
        var m := StartOf(start, runs, s);
        MarkIsPastLastSuccess(m, m, runs[s]);
        var last := StartOf(start, runs, s + 1) - 1 - m;
        assert runs[s][last] && i < last;
      }
      if Skipped(start, runs, o) {
        SkippedNeverSucceeds(start, runs, o);
      }
    }
  }

  lemma SkippedNeverSucceeds(start: nat, runs: seq<seq<bool>>, offset: nat)
    requires Skipped(start, runs, offset)
    ensures !Succeeded(start, runs, offset) && offset < FinalMark(start, runs)
  {
    var s: nat, i: nat, j: nat :|
      DeliveredAt(start, runs, s, i, offset) && !runs[s][i] && i < j < |runs[s]| && runs[s][j];
    var m := StartOf(start, runs, s);
    MarkIsPastLastSuccess(m, m, runs[s]);
    MarkNeverMovesBack(start, runs, s + 1, |runs|);
    forall t: nat, k: nat | DeliveredAt(start, runs, t, k, offset)
      ensures !runs[t][k]
    {
      if t < s {
        if runs[t][k] {
          SuccessIsFinal(start, runs, t, k, offset);
        }
      } else if s < t {
        MarkNeverMovesBack(start, runs, s + 1, t);
      }
    }
  }

  /** No session has a failure with a success after it. */
  predicate FailuresEndSessions(runs: seq<seq<bool>>) {
    forall s, i, j :: 0 <= s < |runs| && 0 <= i < j < |runs[s]| && runs[s][j] ==> runs[s][i]
  }

  /** When nothing below the mark is lost: exactly when no session goes on to a success
      after a failure. In particular when the handler never fails. */
  lemma NothingLostCondition(start: nat, runs: seq<seq<bool>>)
    ensures (forall o: nat :: start <= o < FinalMark(start, runs) ==> Succeeded(start, runs, o))
            <==> FailuresEndSessions(runs)
  {
    WhatTheMarkMeans(start, runs);
    if FailuresEndSessions(runs) {
      forall o: nat | start <= o < FinalMark(start, runs)
        ensures Succeeded(start, runs, o)
      {
        assert !Skipped(start, runs, o);
      }
    } else {
      var s, i, j :| 0 <= s < |runs| && 0 <= i < j < |runs[s]| && runs[s][j] && !runs[s][i];
      var o := StartOf(start, runs, s) + i;
      MarkNeverMovesBack(start, runs, 0, s);
      assert DeliveredAt(start, runs, s, i, o);
      SkippedNeverSucceeds(start, runs, o);
    }
  }

  // ---- The loops ------------------------------------------------------------

  class PartitionSession {
    var mark: nat

    constructor (mark: nat)
      ensures this.mark == mark
    {
      this.mark := mark;
    }

    method MarkMessage(offset: nat)
      modifies this
      ensures mark == Marked(old(mark), offset)
    {
      if offset + 1 > mark {
        mark := offset + 1;
      }
    }

    /** One claim: until the channel closes or the session's context is done. */
    method ConsumeClaim(outcomes: seq<bool>)
      modifies this
      ensures mark == MarkFrom(old(mark), old(mark), outcomes)
    {
      var next, i := mark, 0;
      while i < |outcomes|
        invariant 0 <= i <= |outcomes| && next == old(mark) + i
        invariant MarkFrom(old(mark), old(mark), outcomes) == MarkFrom(mark, next, outcomes[i..])
      {
        var ok := outcomes[i];
        var offset := next;
        i, next := i + 1, next + 1;
        assert outcomes[i - 1..][1..] == outcomes[i..];
        if !ok {
          continue;
        }
        MarkMessage(offset);
      }
    }
  }

  datatype Ending = Rebalanced | GroupClosed | GroupFailed
  datatype Session = Session(outcomes: seq<bool>, ending: Ending, contextDone: bool)
  datatype Exit = ReturnsNil | ReturnsError | ReturnsContextError | StillConsuming

  function Outcomes(sessions: seq<Session>): seq<seq<bool>> {
    seq(|sessions|, i requires 0 <= i < |sessions| => sessions[i].outcomes)
  }

  lemma {:induction false} StartOfPrefix(start: nat, runs: seq<seq<bool>>, s: nat, t: nat)
    requires s <= t <= |runs|
    ensures StartOf(start, runs[..t], s) == StartOf(start, runs, s)
    decreases s
  {
    if s > 0 {
      StartOfPrefix(start, runs, s - 1, t);
    }
  }

  /** Consume: session after session on the same handler, up to and including the first
      one that ends with an error, a closed group or a finished context. */
  method Consume(p: PartitionSession, sessions: seq<Session>) returns (exit: Exit, ran: nat)
    modifies p
    ensures ran <= |sessions|
    ensures exit.StillConsuming? ==> ran == |sessions|
    ensures forall i :: 0 <= i < ran - 1 ==> sessions[i].ending.Rebalanced? && !sessions[i].contextDone
    ensures exit.ReturnsNil? <==> ran > 0 && sessions[ran - 1].ending.GroupClosed?
    ensures exit.ReturnsError? <==> ran > 0 && sessions[ran - 1].ending.GroupFailed?
    ensures exit.ReturnsContextError? <==>
              ran > 0 && sessions[ran - 1].ending.Rebalanced? && sessions[ran - 1].contextDone
    ensures p.mark == StartOf(old(p.mark), Outcomes(sessions), ran)
  {
    ran := 0;
    while ran < |sessions|
      invariant 0 <= ran <= |sessions|
      invariant forall i :: 0 <= i < ran ==> sessions[i].ending.Rebalanced? && !sessions[i].contextDone
      invariant p.mark == StartOf(old(p.mark), Outcomes(sessions), ran)
    {
      var s := sessions[ran];
      p.ConsumeClaim(s.outcomes);
      ran := ran + 1;
      if !s.ending.Rebalanced? {
        return if s.ending.GroupClosed? then ReturnsNil else ReturnsError, ran;
      }
      if s.contextDone {
        return ReturnsContextError, ran;
      }
    }
    return StillConsuming, ran;
  }

  // ---- Middlewares ----------------------------------------------------------

  function Wrapped<H>(middlewares: seq<H -> H>, handler: H): H {
    if middlewares == [] then handler else middlewares[0](Wrapped(middlewares[1..], handler))
  }

  method NewGroupHandler<H>(handler: H, middlewares: seq<H -> H>) returns (h: H)
    ensures h == Wrapped(middlewares, handler)
  {
    h := handler;
    var i := |middlewares|;
    assert middlewares[i..] == [];
    while i > 0
      invariant 0 <= i <= |middlewares|
      invariant h == Wrapped(middlewares[i..], handler)
    {
      i := i - 1;
      assert middlewares[i..][1..] == middlewares[i + 1..];
      h := middlewares[i](h);
    }
  }

  // A handler that may write to a log; the flag is its outcome.
  type Logged = seq<string> -> (seq<string>, bool)

  function Logging(line: string): Logged -> Logged {
    (next: Logged) => (log: seq<string>) => next(log + [line])
  }

  function Loggers(lines: seq<string>): seq<Logged -> Logged> {
    if lines == [] then [] else [Logging(lines[0])] + Loggers(lines[1..])
  }

  /** Middlewares act in the order they are listed, the handler last, and logging ones
      leave its outcome alone. */
  lemma {:induction false} MiddlewaresRunInOrder(lines: seq<string>, handler: Logged, log: seq<string>)
    ensures Wrapped(Loggers(lines), handler)(log) == handler(log + lines)
    decreases |lines|
  {
    if lines == [] {
      assert log + lines == log;
    } else {
      assert Loggers(lines)[1..] == Loggers(lines[1..]);
      MiddlewaresRunInOrder(lines[1..], handler, log + [lines[0]]);
      assert log + [lines[0]] + lines[1..] == log + lines;
    }
  }
}
