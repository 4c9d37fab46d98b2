/** The scenarios of src/use-async-effect.spec.tsx, replayed on the state
    machine with concrete routines. Promises, handlers and values are named
    by small numbers. */
module EffectScenarios {
  import opened EffectModel
  import AsyncEffect
  import EffectProperties

  /** A routine whose `k`-th call (counting from 1) gets `steps[k - 1]`, and
      which returns `undefined` once the list is exhausted. It ignores what it
      is resumed with. */
  function Scripted(steps: seq<Reaction>): Routine {
    Routine([],
      h => if 0 < |h| <= |steps| then steps[|h| - 1] else Reaction([], Result(Undefined, true)),
      h => if |h| <= |steps| then |steps| - |h| + 1 else 0)
  }

  function OnCancel(id: nat): Registration {
    Registration(Some(id), None)
  }

  function Awaits(regs: seq<Registration>, promise: nat): Reaction {
    Reaction(regs, Result(Thenable(promise), false))
  }

  /** "yield can resolve a non promise object" (lines 54-68): a plain value
      comes back unchanged from the next call, and the run completes within
      the synchronous start. */
  lemma PlainValueScenario()
    ensures Finite(Scripted([Reaction([], Result(Other(4), false))]))
    ensures var t := Start(Scripted([Reaction([], Result(Other(4), false))]));
      t.phase == Completed && t.calls == [Next(Undefined), Next(Other(4))] && t.log == []
  {
  }

  /** "onCancel is resetted after each yield" (lines 233-251), extended as a
      second registration: handler 1 is registered before the first await,
      handler 2 before the second; teardown during the second await calls
      handler 2 only, and the second promise resolving afterwards does not
      resume the routine. */
  lemma HandlerPerSuspensionScenario()
    ensures Finite(Scripted([Awaits([OnCancel(1)], 1), Awaits([OnCancel(2)], 2)]))
    ensures
      var r := Scripted([Awaits([OnCancel(1)], 1), Awaits([OnCancel(2)], 2)]);
      var t1 := Start(r);
      var t2 := Settle(r, t1, Fulfilled(Other(7)));
      var t3 := Teardown(t2);
      var t4 := Settle(r, t3, Fulfilled(Other(8)));
      && t1.phase == Waiting(1, false) && t1.handlers.onCancel == Fn(1)
      && t2.phase == Waiting(2, false) && t2.handlers.onCancel == Fn(2)
      && t3.log == [CancelInvoked(2)]
      && t4.phase == Stopped && t4.calls == [Next(Undefined), Next(Other(7))]
      && t4.log == [CancelInvoked(2)]
  {
  }

  /** "does not call a undefined handler" and "does override cancel handler"
      (lines 136-183): within one step the last registration wins, and a
      registration without a handler clears the earlier one. */
  lemma OverrideScenario()
    ensures Finite(Scripted([Awaits([OnCancel(1), Registration(None, None)], 1)]))
    ensures Finite(Scripted([Awaits([OnCancel(1), OnCancel(2)], 1)]))
    ensures Teardown(Start(Scripted([Awaits([OnCancel(1), Registration(None, None)], 1)]))).log == []
    ensures Teardown(Start(Scripted([Awaits([OnCancel(1), OnCancel(2)], 1)]))).log == [CancelInvoked(2)]
  {
  }

  /** "onCancel second parameter for error handling" (lines 280-304): a
      rejection after teardown goes to the error handler with its reason, and
      the routine is not resumed. */
  lemma CancelErrorScenario()
    ensures Finite(Scripted([Awaits([Registration(Some(1), Some(2))], 1)]))
    ensures
      var r := Scripted([Awaits([Registration(Some(1), Some(2))], 1)]);
      var t := Settle(r, Teardown(Start(r)), Rejected(Other(9)));
      t.log == [CancelInvoked(1), CancelErrorInvoked(2, Other(9))] &&
      t.calls == [Next(Undefined)] && t.phase == Stopped
  {
  }

  /** A routine whose first step awaits promise 1 and whose second step,
      resumed with `throw`, either catches the error and returns, or lets it
      propagate; resumed with `next`, it returns the cleanup 3. */
  function Catching(catches: bool): Routine {
    Routine([],
      (h: seq<Resume>) => if |h| <= 1 then Awaits([], 1)
           else if h[1].Throw? then
             (if catches then Reaction([], Result(Undefined, true)) else Reaction([], Raise(h[1].reason)))
           else Reaction([], Result(Other(3), true)),
      h => 0)
  }

  /** "does throw promise rejections" and "logs warnings about uncatched
      promises to the console" (lines 201-231): a rejection of a live run is
      thrown into the routine; caught, the run completes without a report;
      uncaught, it is reported once and no cleanup is recorded. */
  lemma RejectionScenario()
    ensures Finite(Catching(true)) && Finite(Catching(false))
    ensures var t := Settle(Catching(true), Start(Catching(true)), Rejected(Other(5)));
      t.calls == [Next(Undefined), Throw(Other(5))] && t.phase == Completed && t.log == [] && t.cleanup == None
    ensures var t := Settle(Catching(false), Start(Catching(false)), Rejected(Other(5)));
      t.calls == [Next(Undefined), Throw(Other(5))] && t.phase == Aborted &&
      t.log == [LoggedUnhandled(Other(5))] && t.cleanup == None
  {
  }

  /** A rejection with a falsy reason (`Promise.reject()`) on a live step is
      not thrown into the routine: its next call is `next` with the awaited
      thenable itself, so the routine that would let a thrown error escape
      returns normally, records its cleanup and nothing is reported. */
  lemma FalsyRejectionScenario()
    ensures Finite(Catching(false))
    ensures var t := Settle(Catching(false), Start(Catching(false)), Rejected(Undefined));
      t.calls == [Next(Undefined), Next(Thenable(1))] && t.phase == Completed &&
      t.log == [] && t.cleanup == Some(Other(3))
  {
  }

  /** A routine that keeps the registration callback and calls it once it has
      completed gets both its cancel handler and its cleanup called by the
      teardown. */
  lemma LateRegistrationScenario()
    ensures Finite(Catching(true))
    ensures
      var r := Catching(true);
      var t := Apply(r, Start(r), [OnSettle(Fulfilled(Undefined)), OnRegister(OnCancel(5)), OnTeardown]);
      t.log == [CancelInvoked(5), CleanupInvoked(Other(3))]
  {
  }

  /** A registration from outside a step while an await is pending (from a
      `then` on the yielded promise, say) is cleared once that step settles:
      the teardown of the completed run calls only the cleanup. */
  lemma PendingRegistrationScenario()
    ensures Finite(Catching(true))
    ensures
      var r := Catching(true);
      var ins := [OnRegister(OnCancel(5)), OnSettle(Fulfilled(Undefined)), OnTeardown];
      EffectProperties.NoLateRegistration(r, Start(r), ins) &&
      Apply(r, Start(r), ins).log == [CleanupInvoked(Other(3))]
  {
  }

  /** "calls a cleanup function returned by the generator when unmounting"
      (lines 306-327): the cleanup is not called before teardown, and is
      called once by it. */
  lemma CleanupScenario()
    ensures Finite(Catching(true))
    ensures
      var r := Catching(true);
      var t := Settle(r, Start(r), Fulfilled(Undefined));
      t.phase == Completed && t.cleanup == Some(Other(3)) && t.log == [] &&
      Teardown(t).log == [CleanupInvoked(Other(3))]
  {
  }

  /** "calls the generator again once a dependency changes" and "calls a
      clenup function returned by the generator when dependencies change"
      (lines 28-52 and 329-361), driven through the binding: a render with
      unchanged dependencies starts nothing, a change tears the completed run
      down (calling its cleanup once) and starts one new run, and unmounting
      calls the new run's cleanup. */
  method DependencyChangeScenario() returns (firstLog: seq<Event>, secondLog: seq<Event>)
    ensures firstLog == [CleanupInvoked(Other(3))]
    ensures secondLog == [CleanupInvoked(Other(3))]
  {
    var r := Catching(true);
    var b := new AsyncEffect.Binding.Mount(r);
    b.current.Settle(Fulfilled(Undefined));
    var first := b.current;
    assert first.Model().phase == Completed && first.log == [];
    b.Render(r, false);
    assert b.current == first && b.runs == 1;
    b.Render(r, true);
    assert first.log == [CleanupInvoked(Other(3))];
    assert b.current != first && b.runs == 2;
    b.current.Settle(Fulfilled(Undefined));
    b.Unmount();
    firstLog := first.log;
    secondLog := b.current.log;
  }
}
