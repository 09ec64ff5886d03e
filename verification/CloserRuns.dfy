/** CloseAll's answer in terms of the schedule alone: what was added, what each function
    returned, and what comes back. */
module CloserRuns {
  import opened Wrappers
  import opened Closer

  predicate Ended(worker: Worker) {
    worker.Sending? || worker.Exiting? || worker.Finished?
  }

  predicate HoldsError(worker: Worker, e: Error) {
    worker == Sending(e) || worker == Exiting(Some(e)) || worker == Finished(Some(e))
  }

  /** What a worker holds from the return of its function on: no error for nil, the
      error itself for an error, the recovered one for a panic. */
  ghost predicate Carries(worker: Worker, o: Outcome) {
    && (o.Nil? ==> worker == Exiting(None) || worker == Finished(None))
    && (o.Err? ==> HoldsError(worker, o.e))
    && (o.Panics? ==> HoldsError(worker, PanicRecovered))
  }

  lemma CarriedOn(s: State, a: Action, w: nat, o: Outcome)
    requires Inv(s) && Enabled(s, a) && w < |s.workers|
    requires Carries(s.workers[w], o) || a == Return(w, o)
    ensures w < |Next(s, a).workers| && Carries(Next(s, a).workers[w], o)
  {
  }

  lemma {:induction false} StillCarried(s: State, acts: seq<Action>, w: nat, o: Outcome)
    requires Inv(s) && Possible(s, acts) && w < |s.workers| && Carries(s.workers[w], o)
    ensures w < |After(s, acts).workers| && Carries(After(s, acts).workers[w], o)
    decreases |acts|
  {
    if acts != [] {
      CarriedOn(s, acts[0], w, o);
      NextKeepsInv(s, acts[0]);
      StillCarried(Next(s, acts[0]), acts[1..], w, o);
    }
  }

  /** Whatever happens afterwards, what a function returned is carried by its worker. */
  lemma {:induction false} ReturnsAreCarried(s: State, acts: seq<Action>, w: nat, o: Outcome)
    requires Inv(s) && Possible(s, acts) && Return(w, o) in acts
    ensures w < |After(s, acts).workers| && Carries(After(s, acts).workers[w], o)
    decreases |acts|
  {
    NextKeepsInv(s, acts[0]);
    if acts[0] == Return(w, o) {
      CarriedOn(s, acts[0], w, o);
      StillCarried(Next(s, acts[0]), acts[1..], w, o);
    } else {
      ReturnsAreCarried(Next(s, acts[0]), acts[1..], w, o);
    }
  }

  lemma OnlyReturnEnds(s: State, a: Action, w: nat)
    requires Inv(s) && Enabled(s, a) && !(a.Return? && a.w == w)
    requires w < |s.workers| ==> !Ended(s.workers[w])
    ensures w < |Next(s, a).workers| ==> !Ended(Next(s, a).workers[w])
  {
  }

  /** And nothing is carried that no function returned. */
  lemma {:induction false} EndsWereReturned(s: State, acts: seq<Action>, w: nat) returns (o: Outcome)
    requires Inv(s) && Possible(s, acts)
    requires w < |s.workers| ==> !Ended(s.workers[w])
    requires w < |After(s, acts).workers| && Ended(After(s, acts).workers[w])
    ensures Return(w, o) in acts
    decreases |acts|
  {
    NextKeepsInv(s, acts[0]);
    if acts[0].Return? && acts[0].w == w {
      o := acts[0].outcome;
    } else {
      OnlyReturnEnds(s, acts[0], w);
      o := EndsWereReturned(Next(s, acts[0]), acts[1..], w);
    }
  }

  /** Everything sent is held by a worker that sent it. */
  ghost predicate SentIsHeld(s: State) {
    forall e :: e in s.sent ==> exists w :: 0 <= w < |s.workers| && HoldsError(s.workers[w], e)
  }

  lemma NextKeepsSentHeld(s: State, a: Action)
    requires Inv(s) && Enabled(s, a) && SentIsHeld(s)
    ensures SentIsHeld(Next(s, a))
  {
    var s' := Next(s, a);
    forall e | e in s'.sent
      ensures exists w :: 0 <= w < |s'.workers| && HoldsError(s'.workers[w], e)
    {
      if e in s.sent {
        var w :| 0 <= w < |s.workers| && HoldsError(s.workers[w], e);
        CarriedOn(s, a, w, Err(e));
      } else {
        assert HoldsError(s'.workers[a.w], e);
      }
    }
  }

  lemma {:induction false} SentAlwaysHeld(s: State, acts: seq<Action>)
    requires Inv(s) && Possible(s, acts) && SentIsHeld(s)
    ensures SentIsHeld(After(s, acts))
    decreases |acts|
  {
    if acts != [] {
      NextKeepsInv(s, acts[0]);
      NextKeepsSentHeld(s, acts[0]);
      SentAlwaysHeld(Next(s, acts[0]), acts[1..]);
    }
  }

  ghost predicate AllReturnedNil(acts: seq<Action>) {
    forall w: nat, o :: Return(w, o) in acts ==> o.Nil?
  }

  ghost predicate Returned(acts: seq<Action>, w: nat) {
    exists o :: Return(w, o) in acts
  }

  /** Some function returned this error, or panicked and this is the recovered one. */
  ghost predicate Brought(acts: seq<Action>, e: Error) {
    exists w: nat, o :: Return(w, o) in acts && (o == Err(e) || (o.Panics? && e == PanicRecovered))
  }

  lemma HeldWasBrought(acts: seq<Action>, w: nat, e: Error)
    requires Possible(Fresh(), acts)
    requires w < |After(Fresh(), acts).workers| && HoldsError(After(Fresh(), acts).workers[w], e)
    ensures Brought(acts, e)
  {
    FreshInv();
    var o := EndsWereReturned(Fresh(), acts, w);
    ReturnsAreCarried(Fresh(), acts, w, o);
  }

  lemma CleanMeansNil(acts: seq<Action>)
    requires Possible(Fresh(), acts) && AllClean(After(Fresh(), acts))
    ensures AllReturnedNil(acts)
  {
    FreshInv();
    forall w: nat, o | Return(w, o) in acts
      ensures o.Nil?
    {
      ReturnsAreCarried(Fresh(), acts, w, o);
      assert CleanFinish(After(Fresh(), acts).workers[w]);
    }
  }

  /** What the call that runs the body returns, by what the functions returned. Nil means
      that every one that returned, returned nil. Any error is one some function brought,
      or the context's own after a cancellation. And without cancellation every function
      taken has returned, and the answer is nil if and only if all returned nil. */
  lemma AnswerIsTheFunctions(acts: seq<Action>)
    requires Possible(Fresh(), acts) && After(Fresh(), acts).main.Over?
    ensures var s := After(Fresh(), acts);
            && (s.result.None? ==> AllReturnedNil(acts))
            && (s.result.Some? ==>
                  Brought(acts, s.result.value) || (s.main.cancelled && s.result.value == ContextError))
            && (!s.main.cancelled ==>
                  && (s.result.None? <==> AllReturnedNil(acts))
                  && forall w: nat :: w < |s.taken| ==> Returned(acts, w))
  {
    var s := After(Fresh(), acts);
    FreshInv();
    InvAlways(Fresh(), acts);
    WhatCloseAllReturns(acts);
    SentAlwaysHeld(Fresh(), acts);
    if s.result.None? {
      CleanMeansNil(acts);
    } else if !s.main.cancelled || s.received > 0 {
      assert s.sent[0] in s.sent;
      var w: nat :| w < |s.workers| && HoldsError(s.workers[w], s.sent[0]);
      HeldWasBrought(acts, w, s.sent[0]);
    }
    if !s.main.cancelled {
      ExactlyTheAddedAreCalledOnce(acts);
      forall w: nat | w < |s.taken|
        ensures Returned(acts, w)
      {
        assert s.workers[w].Finished?;
        var o := EndsWereReturned(Fresh(), acts, w);
      }
    }
  }

  // ---- What is taken -----------------------------------------------------------

  /** All functions registered by these steps, in order. */
  function AddedBy(acts: seq<Action>): seq<Func> {
    if acts == [] then [] else (if acts[0].Add? then acts[0].fs else []) + AddedBy(acts[1..])
  }

  lemma OnlyAddRegisters(s: State, a: Action)
    requires Enabled(s, a) && !a.TakeSnapshot?
    ensures Next(s, a).taken == s.taken && Next(s, a).funcs == s.funcs + if a.Add? then a.fs else []
  {
  }

  lemma {:induction false} NothingElseRegisters(s: State, acts: seq<Action>)
    requires Possible(s, acts) && TakeSnapshot !in acts
    ensures After(s, acts).funcs == s.funcs + AddedBy(acts) && After(s, acts).taken == s.taken
    decreases |acts|
  {
    if acts != [] {
      assert acts[0] in acts;
      OnlyAddRegisters(s, acts[0]);
      NothingElseRegisters(Next(s, acts[0]), acts[1..]);
    }
  }

  lemma {:induction false} OneSnapshot(s: State, acts: seq<Action>)
    requires Inv(s) && !s.once.Unused? && !s.main.Snapshot? && Possible(s, acts)
    ensures TakeSnapshot !in acts
    decreases |acts|
  {
    if acts != [] {
      NextKeepsInv(s, acts[0]);
      OneSnapshot(Next(s, acts[0]), acts[1..]);
    }
  }

  lemma {:induction false} PossibleSplits(s: State, before: seq<Action>, after: seq<Action>)
    requires Possible(s, before + after)
    ensures Possible(s, before) && Possible(After(s, before), after)
    ensures After(s, before + after) == After(After(s, before), after)
    decreases |before|
  {
    if before == [] {
      assert before + after == after;
    } else {
      assert (before + after)[0] == before[0] && (before + after)[1..] == before[1..] + after;
      PossibleSplits(Next(s, before[0]), before[1..], after);
    }
  }

  /** The functions taken are all those added before the snapshot, in the order they were
      added; what is added later stays registered and is never taken. */
  lemma TakenIsWhatWasAdded(before: seq<Action>, after: seq<Action>)
    requires Possible(Fresh(), before + ([TakeSnapshot] + after)) && TakeSnapshot !in before
    ensures var s := After(Fresh(), before + ([TakeSnapshot] + after));
            s.taken == AddedBy(before) && s.funcs == AddedBy(after)
  {
    FreshInv();
    PossibleSplits(Fresh(), before, [TakeSnapshot] + after);
    InvAlways(Fresh(), before);
    NothingElseRegisters(Fresh(), before);
    var s := After(Fresh(), before);
    assert ([TakeSnapshot] + after)[1..] == after;
    var s' := Next(s, TakeSnapshot);
    NextKeepsInv(s, TakeSnapshot);
    OneSnapshot(s', after);
    NothingElseRegisters(s', after);
    assert s'.funcs == [] && [] + AddedBy(after) == AddedBy(after);
  }

  lemma Chain(s: State, acts: seq<Action>, a: Action)
    requires Enabled(s, a) && Possible(Next(s, a), acts)
    ensures Possible(s, [a] + acts) && After(s, [a] + acts) == After(Next(s, a), acts)
  {
    assert ([a] + acts)[1..] == acts;
  }

  /** One function launched, its call begun by the first caller. */
  ghost predicate OneLaunched(s: State) {
    && s.main == Launching(0) && s.workers == [Launched] && !s.contextDone && s.result.None?
    && s.callers == [InBody] && s.once == Busy(0)
  }

  lemma LeavesEarly(s: State) returns (acts: seq<Action>)
    requires OneLaunched(s)
    ensures Possible(s, acts)
    ensures var s' := After(s, acts);
            s'.main == Over(true) && s'.result == Some(ContextError) && s'.workers == [Running]
  {
    var s1 := Next(s, SpawnWaiter);
    var s2 := Next(s1, Call(0));
    var s3 := Next(s2, CancelContext);
    var s4 := Next(s3, SeeContextDone);
    acts := [];
    Chain(s4, acts, CloseDone);
    acts := [CloseDone] + acts;
    Chain(s3, acts, SeeContextDone);
    acts := [SeeContextDone] + acts;
    Chain(s2, acts, CancelContext);
    acts := [CancelContext] + acts;
    Chain(s1, acts, Call(0));
    acts := [Call(0)] + acts;
    Chain(s, acts, SpawnWaiter);
    acts := [SpawnWaiter] + acts;
  }

  /** On a cancellation CloseAll can leave while a function is still running. */
  lemma CanLeaveEarly() returns (acts: seq<Action>)
    ensures Possible(Fresh(), acts)
    ensures var s := After(Fresh(), acts);
            s.main == Over(true) && s.result == Some(ContextError) && s.workers == [Running]
  {
    var s1 := Next(Fresh(), Add([7]));
    var s2 := Next(s1, NewCaller);
    var s3 := Next(s2, EnterOnce(0));
    var s4 := Next(s3, TakeSnapshot);
    assert s4.workers == [NotLaunched];
    acts := LeavesEarly(Next(s4, LaunchNext));
    Chain(s4, acts, LaunchNext);
    acts := [LaunchNext] + acts;
    Chain(s3, acts, TakeSnapshot);
    acts := [TakeSnapshot] + acts;
    Chain(s2, acts, EnterOnce(0));
    acts := [EnterOnce(0)] + acts;
    Chain(s1, acts, NewCaller);
    acts := [NewCaller] + acts;
    Chain(Fresh(), acts, Add([7]));
    acts := [Add([7])] + acts;
  }

  lemma PossibleSnoc(s: State, acts: seq<Action>, a: Action)
    requires Possible(s, acts) && Enabled(After(s, acts), a)
    ensures Possible(s, acts + [a]) && After(s, acts + [a]) == Next(After(s, acts), a)
  {
    assert [a][1..] == [];
    PossibleJoins(s, acts, [a]);
  }

  lemma {:induction false} PossibleJoins(s: State, before: seq<Action>, after: seq<Action>)
    requires Possible(s, before) && Possible(After(s, before), after)
    ensures Possible(s, before + after) && After(s, before + after) == After(After(s, before), after)
    decreases |before|
  {
    if before == [] {
      assert before + after == after;
    } else {
      assert (before + after)[0] == before[0] && (before + after)[1..] == before[1..] + after;
      PossibleJoins(Next(s, before[0]), before[1..], after);
    }
  }

  // ---- The object ----------------------------------------------------------------

  /** The shutdown object, with CloseAll run to its end by a scheduler that picks any
      enabled step, and lets the outside steps happen at any points in between. */
  class Shutdown {
    var state: State
    ghost var history: seq<Action>

    ghost predicate Valid()
      reads this
    {
      Possible(Fresh(), history) && state == After(Fresh(), history) && Inv(state)
    }

    constructor ()
      ensures Valid() && history == [] && state.once.Unused? && state.funcs == []
    {
      state, history := Fresh(), [];
    }

    method Take(a: Action)
      requires Valid() && Enabled(state, a)
      modifies this
      ensures Valid() && state == Next(old(state), a) && history == old(history) + [a]
    {
      PossibleSnoc(Fresh(), history, a);
      NextKeepsInv(state, a);
      state, history := Next(state, a), history + [a];
    }

    method AddFuncs(fs: seq<Func>)
      requires Valid()
      modifies this
      ensures Valid() && history == old(history) + [Add(fs)]
      ensures state.funcs == old(state).funcs + fs && state.once == old(state).once
    {
      Take(Add(fs));
    }

    /** The call that begins the body: always comes back, once every registered function
        does. */
    method RunBody(outside: seq<Action>) returns (result: Option<Error>)
      requires Valid() && state.once.Unused?
      requires forall a :: a in outside ==> a.Add? || a.NewCaller? || a.CancelContext?
      modifies this
      ensures Valid() && state.once.Used? && state.result == result && state.main.Over?
    {
      var c, i := |state.callers|, 0;
      Take(NewCaller);
      Take(EnterOnce(c));
      Take(TakeSnapshot);
      while !state.once.Used?
        invariant Valid() && !state.once.Unused? && !state.main.Snapshot? && 0 <= i <= |outside|
        decreases StepsLeft(state) + |outside| - i
      {
        var interrupted: bool := *;
        if i < |outside| && interrupted {
          assert outside[i] in outside;
          if Enabled(state, outside[i]) {
            OutsideStepsAreFree(state, outside[i]);
            Take(outside[i]);
          }
          i := i + 1;
        } else {
          ghost var possible := NeverStuck(state);
          var a :| Enabled(state, a) && Internal(a);
          EveryStepCounts(state, a);
          Take(a);
        }
      }
      return state.result;
    }

    /** The first call runs the body and answers as its functions did, in the whole history
        of the object; any later one returns nil at once and runs nothing. */
    method CloseAll(outside: seq<Action>) returns (result: Option<Error>)
      requires Valid() && !state.once.Busy?
      requires forall a :: a in outside ==> a.Add? || a.NewCaller? || a.CancelContext?
      modifies this
      ensures Valid() && state.once.Used? && state.doneClosed == 1 && !state.crashed
      ensures old(state).once.Used? ==>
                result.None? && state == old(state).(callers := old(state).callers + [Done(None)])
      ensures old(state).once.Unused? ==> state.result == result && state.taken == state.added && ResultIsRight(state)
      ensures old(state).once.Unused? ==>
                && (result.None? ==> AllReturnedNil(history))
                && (!state.main.cancelled ==> (result.None? <==> AllReturnedNil(history)))
                && (result.Some? ==>
                      Brought(history, result.value) || (state.main.cancelled && result.value == ContextError))
    {
      if state.once.Used? {
        LateCallReturns(state);
        Take(NewCaller);
        Take(EnterOnce(|state.callers| - 1));
        return None;
      }
      result := RunBody(outside);
      WhatCloseAllReturns(history);
      AnswerIsTheFunctions(history);
    }
  }
}
