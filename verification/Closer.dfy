/** Graceful shutdown: CloseAll's once, snapshot, worker goroutines, wait group, error
    channel and select loop, as atomic steps taken in any order by any number of
    callers. What would crash the process (a send on or a second close of a closed
    channel, a negative wait group) sets a flag. */
module Closer {
  import opened Wrappers

  // A registered function, by name; the same one may be registered twice.
  type Func = nat

  datatype Error = FuncError(code: int) | PanicRecovered | ContextError

  // What calling a registered function comes to.
  datatype Outcome = Nil | Err(e: Error) | Panics

  // One worker goroutine. Sending holds an error not yet in the channel.
  datatype Worker =
    | NotLaunched
    | Launched
    | Running
    | Sending(e: Error)
    | Exiting(sent: Option<Error>)
    | Finished(sent: Option<Error>)

  datatype Main =
    | Idle
    | Snapshot
    | Launching(left: nat)
    | Selecting
    | Leaving(cancelled: bool)
    | Over(cancelled: bool)

  datatype Waiter = NotSpawned | Waiting | Closed

  datatype Caller = AtOnce | InBody | Done(result: Option<Error>)

  datatype Once = Unused | Busy(runner: nat) | Used

  datatype State = State(
    funcs: seq<Func>,          // c.funcs
    added: seq<Func>,          // history: everything added before the snapshot
    once: Once,
    callers: seq<Caller>,
    doneClosed: nat,           // how often c.done was closed
    crashed: bool,
    contextDone: bool,         // the context of the call that runs the body
    main: Main,
    taken: seq<Func>,          // the snapshot
    workers: seq<Worker>,      // worker i runs taken[i]
    calls: seq<nat>,           // history: workers in the order they called their function
    wg: int,
    channel: seq<Error>,
    channelClosed: bool,
    waiter: Waiter,
    sent: seq<Error>,          // history: everything ever sent
    received: nat,             // history: how much of it was taken
    result: Option<Error>)

  function Fresh(): State {
    State([], [], Unused, [], 0, false, false, Idle, [], [], [], 0, [], false, NotSpawned, [], 0, None)
  }

  datatype Action =
    | Add(fs: seq<Func>)
    | NewCaller
    | EnterOnce(c: nat)
    | CancelContext
    | TakeSnapshot
    | LaunchNext
    | SpawnWaiter
    | Call(w: nat)
    | Return(w: nat, outcome: Outcome)
    | Send(w: nat)
    | WorkerDone(w: nat)
    | CloseChannel
    | SeeContextDone
    | Receive
    | SeeClosed
    | CloseDone

  /** When a step can be taken; a send into a full open channel cannot. */
  predicate Enabled(s: State, a: Action) {
    match a
    case Add(_) => true
    case NewCaller => true
    case EnterOnce(c) => c < |s.callers| && s.callers[c].AtOnce? && !s.once.Busy?
    case CancelContext => !s.contextDone
    case TakeSnapshot => s.main.Snapshot?
    case LaunchNext => s.main.Launching? && s.main.left > 0
    case SpawnWaiter => s.main.Launching? && s.main.left == 0
    case Call(w) => w < |s.workers| && s.workers[w].Launched?
    case Return(w, _) => w < |s.workers| && s.workers[w].Running?
    case Send(w) => w < |s.workers| && s.workers[w].Sending? && (s.channelClosed || |s.channel| < |s.taken|)
    case WorkerDone(w) => w < |s.workers| && s.workers[w].Exiting?
    case CloseChannel => s.waiter.Waiting? && s.wg == 0
    case SeeContextDone => s.main.Selecting? && s.contextDone
    case Receive => s.main.Selecting? && s.channel != []
    case SeeClosed => s.main.Selecting? && s.channel == [] && s.channelClosed
    case CloseDone => s.main.Leaving? && s.once.Busy? && s.once.runner < |s.callers|
  }

  function AfterCall(o: Outcome): Worker {
    match o
    case Nil => Exiting(None)
    case Err(e) => Sending(e)
    case Panics => Sending(PanicRecovered)
  }

  function First(r: Option<Error>, e: Error): Option<Error> {
    if r.None? then Some(e) else r
  }

  function Next(s: State, a: Action): State
    requires Enabled(s, a)
  {
    match a
    case Add(fs) =>
      s.(funcs := s.funcs + fs, added := if s.main.Idle? || s.main.Snapshot? then s.added + fs else s.added)
    case NewCaller => s.(callers := s.callers + [AtOnce])
    case EnterOnce(c) =>
      if s.once.Unused? then s.(once := Busy(c), callers := s.callers[c := InBody], main := Snapshot)
      else s.(callers := s.callers[c := Done(None)])
    case CancelContext => s.(contextDone := true)
    case TakeSnapshot =>
      if s.funcs == [] then s.(main := Leaving(false))
      else s.(taken := s.funcs, funcs := [], workers := seq(|s.funcs|, _ => NotLaunched), main := Launching(|s.funcs|))
    case LaunchNext =>
      if s.main.left <= |s.workers| then
        s.(wg := s.wg + 1, workers := s.workers[s.main.left - 1 := Launched], main := Launching(s.main.left - 1))
      else s
    case SpawnWaiter => s.(waiter := Waiting, main := Selecting)
    case Call(w) => s.(workers := s.workers[w := Running], calls := s.calls + [w])
    case Return(w, o) => s.(workers := s.workers[w := AfterCall(o)])
    case Send(w) =>
      if s.channelClosed then s.(crashed := true)
      else
        var e := s.workers[w].e;
        s.(workers := s.workers[w := Exiting(Some(e))], channel := s.channel + [e], sent := s.sent + [e])
    case WorkerDone(w) =>
      if s.wg <= 0 then s.(crashed := true)
      else s.(workers := s.workers[w := Finished(s.workers[w].sent)], wg := s.wg - 1)
    case CloseChannel =>
      if s.channelClosed then s.(crashed := true) else s.(channelClosed := true, waiter := Closed)
    case SeeContextDone => s.(result := First(s.result, ContextError), main := Leaving(true))
    case Receive =>
      s.(result := First(s.result, s.channel[0]), channel := s.channel[1..], received := s.received + 1)
    case SeeClosed => s.(main := Leaving(false))
    case CloseDone =>
      var s' := s.(doneClosed := s.doneClosed + 1, once := Used, main := Over(s.main.cancelled),
                   callers := s.callers[s.once.runner := Done(s.result)]);
      if s.doneClosed > 0 then s'.(crashed := true) else s'
  }

  // ---- Counting workers -----------------------------------------------------

  predicate Live(w: Worker) {
    w.Launched? || w.Running? || w.Sending? || w.Exiting?
  }

  predicate HasSent(w: Worker) {
    (w.Exiting? || w.Finished?) && w.sent.Some?
  }

  function Count(ws: seq<Worker>, p: Worker -> bool): nat {
    if ws == [] then 0 else (if p(ws[0]) then 1 else 0) + Count(ws[1..], p)
  }

  lemma {:induction false} CountUpdate(ws: seq<Worker>, i: nat, w: Worker, p: Worker -> bool)
    requires i < |ws|
    ensures Count(ws[i := w], p) == Count(ws, p) - (if p(ws[i]) then 1 else 0) + (if p(w) then 1 else 0)
  {
    if i == 0 {
      assert ws[0 := w][1..] == ws[1..];
    } else {
      assert ws[i := w][1..] == ws[1..][i - 1 := w];
      CountUpdate(ws[1..], i - 1, w, p);
    }
  }

  lemma {:induction false} CountBounds(ws: seq<Worker>, p: Worker -> bool)
    ensures Count(ws, p) <= |ws|
    ensures Count(ws, p) == 0 <==> forall i :: 0 <= i < |ws| ==> !p(ws[i])
    ensures (exists i :: 0 <= i < |ws| && !p(ws[i])) ==> Count(ws, p) < |ws|
  {
    if ws != [] {
      CountBounds(ws[1..], p);
      assert forall i :: 0 < i < |ws| ==> ws[i] == ws[1..][i - 1];
    }
  }

  // ---- The invariant --------------------------------------------------------

  ghost predicate BodyInv(s: State) {
    && !s.crashed
    && |s.workers| == |s.taken|
    && s.wg == Count(s.workers, Live)
    && |s.sent| == Count(s.workers, HasSent)
    && s.received <= |s.sent|
    && s.channel == s.sent[s.received..]
    && (s.main.Launching? ==> s.main.left <= |s.workers|)
    && (forall i :: 0 <= i < |s.workers| ==>
          (s.workers[i].NotLaunched? <==> s.main.Launching? && i < s.main.left))
    && (s.waiter.NotSpawned? <==> s.main.Idle? || s.main.Snapshot? || s.main.Launching? || s.taken == [])
    && (s.channelClosed <==> s.waiter.Closed?)
    && (s.channelClosed ==> s.wg == 0)
    && (!s.main.Leaving? && !s.main.Over? ==> s.result == FirstOf(s.sent[..s.received]))
    && (s.main.Leaving? || s.main.Over? ==>
          if s.main.cancelled then s.contextDone && s.result == Some(if s.received > 0 then s.sent[0] else ContextError)
          else (s.taken == [] || s.channelClosed) && s.received == |s.sent| && s.result == FirstOf(s.sent))
  }

  function FirstOf(es: seq<Error>): Option<Error> {
    if es == [] then None else Some(es[0])
  }

  ghost predicate SnapshotInv(s: State) {
    && (s.main.Idle? || s.main.Snapshot? ==> s.funcs == s.added && s.taken == [])
    && (!s.main.Idle? && !s.main.Snapshot? ==> s.taken == s.added)
    && (s.main.Launching? ==> s.taken != [])
    && (s.main.Selecting? ==> s.taken != [])
  }

  ghost predicate OnceInv(s: State) {
    && (s.once.Unused? <==> s.main.Idle?)
    && (s.once.Used? <==> s.main.Over?)
    && s.doneClosed == (if s.once.Used? then 1 else 0)
    && (s.once.Busy? ==> s.once.runner < |s.callers| && s.callers[s.once.runner].InBody?)
    && (forall c :: 0 <= c < |s.callers| && s.callers[c].InBody? ==> s.once == Busy(c))
    && (forall c :: 0 <= c < |s.callers| && s.callers[c].Done? ==> s.once.Used?)
  }

  ghost predicate CallsInv(s: State) {
    && (forall i :: i in s.calls ==> i < |s.workers|)
    && (forall i, j :: 0 <= i < j < |s.calls| ==> s.calls[i] != s.calls[j])
    && (forall i :: 0 <= i < |s.workers| ==>
          (i in s.calls <==> !s.workers[i].NotLaunched? && !s.workers[i].Launched?))
  }

  ghost predicate Inv(s: State) {
    BodyInv(s) && SnapshotInv(s) && OnceInv(s) && CallsInv(s)
  }

  predicate WorkerStep(a: Action) {
    a.Call? || a.Return? || a.Send? || a.WorkerDone?
  }

  /** What a worker's own step does to the counts. */
  lemma OneWorkerCounts(s: State, w: nat, worker: Worker)
    requires Inv(s) && w < |s.workers|
    ensures Count(s.workers[w := worker], Live) ==
            s.wg - (if Live(s.workers[w]) then 1 else 0) + (if Live(worker) then 1 else 0)
    ensures Count(s.workers[w := worker], HasSent) ==
            |s.sent| - (if HasSent(s.workers[w]) then 1 else 0) + (if HasSent(worker) then 1 else 0)
    ensures Live(s.workers[w]) ==> s.wg > 0 && !s.channelClosed
  {
    CountUpdate(s.workers, w, worker, Live);
    CountUpdate(s.workers, w, worker, HasSent);
    CountBounds(s.workers, Live);
  }

  lemma CallKeepsInv(s: State, a: Action)
    requires Inv(s) && Enabled(s, a) && a.Call?
    ensures Inv(Next(s, a))
  {
    OneWorkerCounts(s, a.w, Running);
  }

  lemma ReturnKeepsInv(s: State, a: Action)
    requires Inv(s) && Enabled(s, a) && a.Return?
    ensures Inv(Next(s, a))
  {
    OneWorkerCounts(s, a.w, AfterCall(a.outcome));
  }

  lemma SendKeepsInv(s: State, a: Action)
    requires Inv(s) && Enabled(s, a) && a.Send?
    ensures Inv(Next(s, a))
  {
    OneWorkerCounts(s, a.w, Exiting(Some(s.workers[a.w].e)));
  }

  lemma DoneKeepsInv(s: State, a: Action)
    requires Inv(s) && Enabled(s, a) && a.WorkerDone?
    ensures Inv(Next(s, a))
  {
    OneWorkerCounts(s, a.w, Finished(s.workers[a.w].sent));
  }

  lemma OutsideKeepsInv(s: State, a: Action)
    requires Inv(s) && Enabled(s, a) && (a.Add? || a.NewCaller? || a.CancelContext?)
    ensures Inv(Next(s, a))
  {
  }

  lemma OnceKeepsInv(s: State, a: Action)
    requires Inv(s) && Enabled(s, a) && (a.EnterOnce? || a.CloseDone?)
    ensures Inv(Next(s, a))
  {
  }

  lemma SnapshotKeepsInv(s: State, a: Action)
    requires Inv(s) && Enabled(s, a) && a.TakeSnapshot?
    ensures Inv(Next(s, a))
  {
    CountBounds(s.workers, Live);
    CountBounds(s.workers, HasSent);
    CountBounds(Next(s, a).workers, Live);
    CountBounds(Next(s, a).workers, HasSent);
  }

  lemma LaunchKeepsInv(s: State, a: Action)
    requires Inv(s) && Enabled(s, a) && (a.LaunchNext? || a.SpawnWaiter? || a.CloseChannel?)
    ensures Inv(Next(s, a))
  {
    if a.LaunchNext? {
      CountUpdate(s.workers, s.main.left - 1, Launched, Live);
      CountUpdate(s.workers, s.main.left - 1, Launched, HasSent);
    }
  }

  lemma SelectKeepsInv(s: State, a: Action)
    requires Inv(s) && Enabled(s, a) && (a.SeeContextDone? || a.Receive? || a.SeeClosed?)
    ensures Inv(Next(s, a))
  {
    if a.Receive? {
      assert s.channel[0] == s.sent[s.received];
      assert s.sent[..s.received + 1] == s.sent[..s.received] + [s.sent[s.received]];
    } else if a.SeeClosed? {
      assert s.sent[..s.received] == s.sent;
    }
  }

  lemma NextKeepsInv(s: State, a: Action)
    requires Inv(s) && Enabled(s, a)
    ensures Inv(Next(s, a))
  {
    match a
    case Add(_) => OutsideKeepsInv(s, a);
    case NewCaller => OutsideKeepsInv(s, a);
    case CancelContext => OutsideKeepsInv(s, a);
    case EnterOnce(_) => OnceKeepsInv(s, a);
    case CloseDone => OnceKeepsInv(s, a);
    case TakeSnapshot => SnapshotKeepsInv(s, a);
    case LaunchNext => LaunchKeepsInv(s, a);
    case SpawnWaiter => LaunchKeepsInv(s, a);
    case CloseChannel => LaunchKeepsInv(s, a);
    case SeeContextDone => SelectKeepsInv(s, a);
    case Receive => SelectKeepsInv(s, a);
    case SeeClosed => SelectKeepsInv(s, a);
    case Call(_) => CallKeepsInv(s, a);
    case Return(_, _) => ReturnKeepsInv(s, a);
    case Send(_) => SendKeepsInv(s, a);
    case WorkerDone(_) => DoneKeepsInv(s, a);
  }

  // ---- Every schedule -------------------------------------------------------

  ghost predicate Possible(s: State, acts: seq<Action>)
    decreases |acts|
  {
    acts == [] || (Enabled(s, acts[0]) && Possible(Next(s, acts[0]), acts[1..]))
  }

  function After(s: State, acts: seq<Action>): State
    requires Possible(s, acts)
    decreases |acts|
  {
    if acts == [] then s else After(Next(s, acts[0]), acts[1..])
  }

  lemma {:induction false} InvAlways(s: State, acts: seq<Action>)
    requires Inv(s) && Possible(s, acts)
    ensures Inv(After(s, acts))
    decreases |acts|
  {
    if acts != [] {
      NextKeepsInv(s, acts[0]);
      InvAlways(Next(s, acts[0]), acts[1..]);
    }
  }

  lemma FreshInv()
    ensures Inv(Fresh())
  {
  }

  /** Whatever the schedule: nothing ever crashes (so nothing is sent or closed twice
      after the channel is closed), no worker is ever blocked on its send, and `done` is
      closed once the body is over and never again. */
  lemma NoCrashNoBlockDoneOnce(acts: seq<Action>)
    requires Possible(Fresh(), acts)
    ensures var s := After(Fresh(), acts);
            && !s.crashed
            && (forall w :: 0 <= w < |s.workers| && s.workers[w].Sending? ==>
                  Enabled(s, Send(w)) && !s.channelClosed && |s.channel| < |s.taken|)
            && s.doneClosed == (if s.once.Used? then 1 else 0)
  {
    FreshInv();
    InvAlways(Fresh(), acts);
    var s := After(Fresh(), acts);
    CountBounds(s.workers, HasSent);
    CountBounds(s.workers, Live);
    forall w | 0 <= w < |s.workers| && s.workers[w].Sending?
      ensures Enabled(s, Send(w)) && !s.channelClosed && |s.channel| < |s.taken|
    {
      assert !HasSent(s.workers[w]) && Live(s.workers[w]);
    }
  }

  /** Exactly the functions added before the snapshot are taken; they are launched from
      the last added to the first, all of them before the select loop begins, so on a
      cancellation too; each one's worker calls it at most once, and once it is finished
      exactly once; nothing else is called. When the body returns without cancellation
      they are all finished. */
  lemma ExactlyTheAddedAreCalledOnce(acts: seq<Action>)
    requires Possible(Fresh(), acts)
    ensures var s := After(Fresh(), acts);
            && (!s.main.Idle? && !s.main.Snapshot? ==> s.taken == s.added)
            && |s.workers| == |s.taken|
            && (forall w :: 0 <= w < |s.workers| ==>
                  (s.workers[w].NotLaunched? <==> s.main.Launching? && w < s.main.left))
            && (forall i, j :: 0 <= i < j < |s.calls| ==> s.calls[i] != s.calls[j])
            && (forall w :: w in s.calls ==> w < |s.taken|)
            && (forall w :: 0 <= w < |s.workers| && s.workers[w].Finished? ==> w in s.calls)
            && (s.main == Over(false) ==> forall w :: 0 <= w < |s.workers| ==> s.workers[w].Finished?)
  {
    FreshInv();
    InvAlways(Fresh(), acts);
    var s := After(Fresh(), acts);
    CountBounds(s.workers, Live);
    if s.main == Over(false) {
      forall w | 0 <= w < |s.workers|
        ensures s.workers[w].Finished?
      {
        assert !Live(s.workers[w]) && !s.workers[w].NotLaunched?;
      }
    }
  }

  predicate CleanFinish(w: Worker) {
    w == Finished(None)
  }

  ghost predicate AllClean(s: State) {
    forall w :: 0 <= w < |s.workers| ==> CleanFinish(s.workers[w])
  }

  lemma ResultMeaning(s: State)
    requires Inv(s)
    ensures s.main.Over? && s.result.None? ==> AllClean(s)
    ensures s.main == Over(false) ==>
              && (s.result.None? <==> AllClean(s))
              && (s.result.Some? ==> s.sent != [] && s.result.value == s.sent[0])
  {
    if s.main == Over(false) {
      CountBounds(s.workers, Live);
      CountBounds(s.workers, HasSent);
      forall w | 0 <= w < |s.workers|
        ensures HasSent(s.workers[w]) <==> !CleanFinish(s.workers[w])
      {
        assert !Live(s.workers[w]) && !s.workers[w].NotLaunched?;
      }
    }
  }

  /** Nil only if every function finished cleanly. Without cancellation nil exactly then,
      and otherwise the first error sent; on cancellation, which takes a cancelled context,
      the first error taken or else the context's. */
  ghost predicate ResultIsRight(s: State) {
    && s.main.Over?
    && (s.result.None? ==> AllClean(s))
    && (if s.main.cancelled then
          && s.contextDone && s.received <= |s.sent|
          && s.result == Some(if s.received > 0 then s.sent[0] else ContextError)
        else
          && (s.result.None? <==> AllClean(s))
          && (s.result.Some? ==> s.sent != [] && s.result.value == s.sent[0]))
  }

  /** What CloseAll returns. The call that ran the body returns nil only if every
      function finished without error or panic. If it did not leave on cancellation it
      returns nil exactly then and otherwise the first error sent; if it did, which takes
      a cancelled context, the first error taken or else the context's. */
  lemma WhatCloseAllReturns(acts: seq<Action>)
    requires Possible(Fresh(), acts)
    ensures var s := After(Fresh(), acts);
            s.main.Over? ==> ResultIsRight(s)
  {
    FreshInv();
    InvAlways(Fresh(), acts);
    ResultMeaning(After(Fresh(), acts));
  }

  /** Who gets that result: the runner, fixed when the body began; all others nil. */
  ghost predicate ResultsInv(s: State, runner: nat) {
    && Inv(s)
    && (s.once.Busy? ==> s.once.runner == runner)
    && (s.once.Used? ==> runner < |s.callers| && s.callers[runner] == Done(s.result))
    && (forall c :: 0 <= c < |s.callers| && c != runner && s.callers[c].Done? ==> s.callers[c] == Done(None))
  }

  lemma ResultsStay(s: State, a: Action, runner: nat)
    requires ResultsInv(s, runner) && !s.once.Unused? && Enabled(s, a) && Inv(Next(s, a))
    ensures ResultsInv(Next(s, a), runner) && !Next(s, a).once.Unused?
  {
    if a.CloseDone? || a.EnterOnce? {
    } else if a.NewCaller? {
    } else {
      assert Next(s, a).callers == s.callers && Next(s, a).once == s.once;
      assert s.once.Used? ==> Next(s, a).result == s.result;
    }
  }

  lemma {:induction false} OthersReturnNil(s: State, acts: seq<Action>, runner: nat)
    requires ResultsInv(s, runner) && Possible(s, acts) && !s.once.Unused?
    ensures ResultsInv(After(s, acts), runner) && !After(s, acts).once.Unused?
    decreases |acts|
  {
    if acts != [] {
      NextKeepsInv(s, acts[0]);
      ResultsStay(s, acts[0], runner);
      OthersReturnNil(Next(s, acts[0]), acts[1..], runner);
    }
  }

  /** From the step that begins the body: that caller is the one that gets the result,
      every other call that returns gets nil, and none of them returns before it. */
  lemma OnlyTheRunnerGetsTheResult(s: State, c: nat, acts: seq<Action>)
    requires Inv(s) && s.once.Unused? && Enabled(s, EnterOnce(c)) && Possible(Next(s, EnterOnce(c)), acts)
    ensures var s' := After(Next(s, EnterOnce(c)), acts);
            && (s'.once.Used? ==> c < |s'.callers| && s'.callers[c] == Done(s'.result))
            && (forall d :: 0 <= d < |s'.callers| && d != c && s'.callers[d].Done? ==> s'.callers[d] == Done(None))
            && (!s'.once.Used? ==> forall d :: 0 <= d < |s'.callers| ==> !s'.callers[d].Done?)
  {
    NextKeepsInv(s, EnterOnce(c));
    OthersReturnNil(Next(s, EnterOnce(c)), acts, c);
  }

  // ---- Progress -------------------------------------------------------------

  /** A step of CloseAll itself or of one of its goroutines. */
  predicate Internal(a: Action) {
    !a.Add? && !a.NewCaller? && !a.CancelContext? && !a.EnterOnce?
  }

  function Rank(w: Worker): nat {
    match w
    case NotLaunched => 6
    case Launched => 5
    case Running => 4
    case Sending(_) => 3
    case Exiting(_) => 1
    case Finished(_) => 0
  }

  function RankSum(ws: seq<Worker>): nat {
    if ws == [] then 0 else Rank(ws[0]) + RankSum(ws[1..])
  }

  lemma {:induction false} RankUpdate(ws: seq<Worker>, i: nat, w: Worker)
    requires i < |ws|
    ensures RankSum(ws[i := w]) == RankSum(ws) - Rank(ws[i]) + Rank(w)
  {
    if i == 0 {
      assert ws[0 := w][1..] == ws[1..];
    } else {
      assert ws[i := w][1..] == ws[1..][i - 1 := w];
      RankUpdate(ws[1..], i - 1, w);
    }
  }

  /** An upper bound on the steps left, from the snapshot on. */
  function StepsLeft(s: State): nat {
    RankSum(s.workers) + |s.channel|
    + (if s.waiter.Closed? then 0 else 1)
    + (match s.main case Launching(_) => 3 case Selecting => 2 case Leaving(_) => 1 case _ => 0)
  }

  lemma EveryStepCounts(s: State, a: Action)
    requires Inv(s) && Enabled(s, a) && Internal(a) && !a.TakeSnapshot?
    ensures StepsLeft(Next(s, a)) < StepsLeft(s)
    ensures !s.main.Idle? ==> !Next(s, a).main.Idle? && !Next(s, a).main.Snapshot?
  {
    if WorkerStep(a) {
      WorkerStepCounts(s, a);
    } else if a.LaunchNext? {
      RankUpdate(s.workers, s.main.left - 1, Launched);
    }
  }

  lemma WorkerStepCounts(s: State, a: Action)
    requires Inv(s) && Enabled(s, a) && WorkerStep(a)
    ensures StepsLeft(Next(s, a)) < StepsLeft(s) && Next(s, a).main == s.main
  {
    OneWorkerCounts(s, a.w, s.workers[a.w]);
    RankUpdate(s.workers, a.w, Next(s, a).workers[a.w]);
  }

  lemma OutsideStepsAreFree(s: State, a: Action)
    requires Inv(s) && Enabled(s, a) && !Internal(a) && !s.main.Idle?
    ensures StepsLeft(Next(s, a)) == StepsLeft(s) && Next(s, a).main == s.main
  {
  }

  function InternalSteps(acts: seq<Action>): nat {
    if acts == [] then 0 else (if Internal(acts[0]) then 1 else 0) + InternalSteps(acts[1..])
  }

  lemma {:induction false} RankSumFresh(n: nat)
    ensures RankSum(seq(n, _ => NotLaunched)) == 6 * n
  {
    if n > 0 {
      assert seq(n, _ => NotLaunched)[1..] == seq(n - 1, _ => NotLaunched);
      RankSumFresh(n - 1);
    }
  }

  lemma {:induction false} StepsAreBounded(s: State, acts: seq<Action>)
    requires Inv(s) && !s.main.Idle? && !s.main.Snapshot? && Possible(s, acts)
    ensures InternalSteps(acts) <= StepsLeft(s)
    decreases |acts|
  {
    if acts != [] {
      NextKeepsInv(s, acts[0]);
      if Internal(acts[0]) {
        EveryStepCounts(s, acts[0]);
      } else {
        OutsideStepsAreFree(s, acts[0]);
      }
      StepsAreBounded(Next(s, acts[0]), acts[1..]);
    }
  }

  /** With n functions registered, CloseAll and its goroutines take at most 6n + 4
      steps after the snapshot, under every schedule. */
  lemma CloseAllIsBounded(s: State, acts: seq<Action>)
    requires Inv(s) && Enabled(s, TakeSnapshot) && Possible(Next(s, TakeSnapshot), acts)
    ensures InternalSteps(acts) <= 6 * |s.funcs| + 4
  {
    NextKeepsInv(s, TakeSnapshot);
    RankSumFresh(|s.funcs|);
    StepsAreBounded(Next(s, TakeSnapshot), acts);
  }

  /** While the body runs, either some step of CloseAll is possible that does not wait
      for a registered function, or a registered function has not returned yet. */
  lemma NeverStuck(s: State) returns (a: Action)
    requires Inv(s) && s.once.Busy?
    ensures Enabled(s, a) && Internal(a)
    ensures (forall w :: 0 <= w < |s.workers| ==> !s.workers[w].Running?) ==> !a.Return?
  {
    CountBounds(s.workers, Live);
    CountBounds(s.workers, HasSent);
    if s.main.Snapshot? {
      a := TakeSnapshot;
    } else if s.main.Launching? {
      a := if s.main.left > 0 then LaunchNext else SpawnWaiter;
    } else if s.main.Leaving? {
      a := CloseDone;
    } else if s.channel != [] {
      a := Receive;
    } else if s.channelClosed {
      a := SeeClosed;
    } else if s.wg == 0 {
      a := CloseChannel;
    } else {
      var w :| 0 <= w < |s.workers| && Live(s.workers[w]);
      a := if s.workers[w].Launched? then Call(w)
           else if s.workers[w].Running? then Return(w, Nil)
           else if s.workers[w].Sending? then Send(w)
           else WorkerDone(w);
      assert s.workers[w].Sending? ==> !HasSent(s.workers[w]);
    }
  }

  lemma LateCallReturns(s: State)
    requires Inv(s) && s.once.Used?
    ensures var s' := Next(s, NewCaller);
            && Enabled(s', EnterOnce(|s.callers|))
            && Next(s', EnterOnce(|s.callers|)) == s.(callers := s.callers + [Done(None)])
            && Inv(Next(s', EnterOnce(|s.callers|)))
  {
    NextKeepsInv(s, NewCaller);
    NextKeepsInv(Next(s, NewCaller), EnterOnce(|s.callers|));
  }
}
