/** What the driver of src/use-async-effect.ts guarantees, proved about the
    state machine of module EffectModel. */
module EffectProperties {
  import opened EffectModel

  /** The shape every run has between two inputs. */
  predicate Consistent(s: State) {
    && !s.phase.Running?
    && (s.phase.Stopped? ==> s.canceled)
    && (s.cleanup.Some? ==> s.phase.Completed? && IsTruthy(s.cleanup.value))
  }

  /** A routine none of whose steps awaits or throws. */
  ghost predicate NeverSuspends(r: Routine) {
    forall h: seq<Resume> ::
      r.react(h).outcome.Result? && !IsAwaited(r.react(h).outcome.value)
  }

  /** Registering replaces the previous pair entirely: a second registration
      overrides the first, a registration without arguments clears both
      handlers to `noop`, and nothing but the handlers changes. */
  lemma RegistrationReplaces(s: State, a: Registration, b: Registration)
    ensures Register(Register(s, a), b) == Register(s, b)
    ensures Register(s, Registration(None, None)).handlers == Inert
    ensures Register(s, a).(handlers := s.handlers) == s
    ensures Register(s, a).handlers.onCancel.Noop? <==> a.onCancel.None?
    ensures Register(s, a).handlers.onCancelError.Noop? <==> a.onCancelError.None?
  {
  }

  /** Within one synchronous pass the iterator is called first with `x`, and
      after that only with `next(v)`, where `v` is the plain value the
      previous call yielded, unchanged: no value is awaited in between. */
  lemma {:induction false} PumpCalls(r: Routine, s: State, x: Resume)
    requires Finite(r)
    ensures var t := Pump(r, s, x);
      |t.calls| > |s.calls| && t.calls[..|s.calls| + 1] == s.calls + [x]
    ensures var t := Pump(r, s, x);
      forall i :: |s.calls| < i < |t.calls| ==>
        Continues(r.react(t.calls[..i]).outcome) &&
        t.calls[i] == Next(r.react(t.calls[..i]).outcome.value)
    decreases r.rank(s.calls + [x])
  {
    var s1 := Called(r, s, x);
    var h := s1.calls;
    match r.react(h).outcome
    case Raise(_) =>
    case Result(v, done) =>
      if !IsAwaited(v) {
        var s2 := EndStep(s1, v, done);
        if Proceeds(s1, done) {
          PumpCalls(r, s2, Next(v));
          var t := Pump(r, s2, Next(v));
          assert t.calls[..|h|] == h by {
            assert t.calls[..|h| + 1][..|h|] == t.calls[..|h|];
          }
          assert t.calls[..|s.calls| + 1] == s.calls + [x];
        }
      }
  }

  /** How a synchronous pass of a run that is not canceled ends: suspended on
      the thenable the last step yielded, completed, or aborted by an
      exception. Only completion records a cleanup, and it also leaves both
      handlers `noop`; only an exception writes to the log. In the other two
      cases the handlers in effect are those the last step registered, on
      top of the starting pair if the pass made a single call, and on top of
      `noop` otherwise. */
  lemma {:induction false} PumpOutcome(r: Routine, s: State, x: Resume)
    requires Finite(r)
    requires !s.canceled
    ensures var t := Pump(r, s, x); var o := r.react(t.calls).outcome;
      && !t.canceled
      && (t.phase.Waiting? || t.phase.Completed? || t.phase.Aborted?)
      && (t.phase.Waiting? ==>
            o == Result(Thenable(t.phase.promise), t.phase.done) &&
            t.cleanup == s.cleanup && t.log == s.log)
      && (t.phase.Completed? ==>
            o.Result? && o.done && !IsAwaited(o.value) && t.handlers == Inert &&
            t.cleanup == (if IsTruthy(o.value) then Some(o.value) else s.cleanup) &&
            t.log == s.log)
      && (t.phase.Aborted? ==>
            o.Raise? && t.cleanup == s.cleanup && t.log == s.log + [LoggedUnhandled(o.reason)])
      && (!t.phase.Completed? ==>
            t.handlers == AfterRegistrations(
              if |t.calls| == |s.calls| + 1 then s.handlers else Inert,
              r.react(t.calls).registrations))
    decreases r.rank(s.calls + [x])
  {
    var s1 := Called(r, s, x);
    match r.react(s1.calls).outcome
    case Raise(_) =>
    case Result(v, done) =>
      if !IsAwaited(v) {
        var s2 := EndStep(s1, v, done);
        if Proceeds(s1, done) {
          PumpOutcome(r, s2, Next(v));
          PumpCalls(r, s2, Next(v));
        }
      }
  }

  /** A routine that yields no thenable and throws nothing completes within
      the synchronous part of `run()`, with both handlers back to `noop`. */
  lemma SynchronousRoutineCompletes(r: Routine)
    requires Finite(r)
    requires NeverSuspends(r)
    ensures Start(r).phase == Completed
    ensures Start(r).handlers == Inert
    ensures Start(r).log == []
  {
    PumpOutcome(r, Initial(r), Next(Undefined));
    var t := Start(r);
    assert r.react(t.calls).outcome.Result?;
  }

  /** What happens when the pending awaited value settles.
      On a canceled run the iterator is not touched: a fulfilment is dropped,
      a rejection goes to `onCancelError` only. On a live run the step
      completes: if it was not the final one, the iterator is resumed with
      `next(value)` on a fulfilment and `throw(reason)` on a rejection with a
      truthy reason, while a falsy reason hands it the awaited thenable itself
      with `next`; if it was the final one, the run completes. A live run's handlers are reset by the settled
      step, so afterwards only what the latest step registered is in effect. */
  lemma SettleOutcome(r: Routine, s: State, o: Settlement)
    requires Finite(r)
    requires s.phase.Waiting? && Consistent(s)
    ensures var t := Settle(r, s, o);
      s.canceled ==>
        && t.canceled && t.phase == Stopped
        && t.calls == s.calls && t.handlers == s.handlers && t.cleanup == s.cleanup
        && t.log == s.log + (if o.Rejected? then CancelErrorCall(s.handlers.onCancelError, o.reason) else [])
    ensures var t := Settle(r, s, o);
      !s.canceled && !s.phase.done ==>
        |t.calls| > |s.calls| &&
        t.calls[..|s.calls| + 1] ==
          s.calls + [if o.Fulfilled? then Next(o.value)
                     else if IsTruthy(o.reason) then Throw(o.reason)
                     else Next(Thenable(s.phase.promise))]
    ensures var t := Settle(r, s, o);
      !s.canceled && s.phase.done ==>
        && t.phase == Completed && t.calls == s.calls && t.handlers == Inert && t.log == s.log
        && t.cleanup == (if o.Rejected? then Some(Thenable(s.phase.promise))
                         else if IsTruthy(o.value) then Some(o.value) else None)
    ensures var t := Settle(r, s, o);
      !s.canceled ==>
        && !t.canceled && !t.phase.Stopped?
        && (!t.phase.Completed? ==>
              t.handlers == AfterRegistrations(Inert, r.react(t.calls).registrations))
  {
    var done := s.phase.done;
    if !s.canceled && !done {
      var x := if o.Fulfilled? then Next(o.value) else AfterRejection(o.reason, s.phase.promise);
      var v := if o.Fulfilled? then o.value else Thenable(s.phase.promise);
      var t0 := EndStep(s, v, done);
      assert t0 == s.(handlers := Inert);
      assert Settle(r, s, o) == Pump(r, t0, x);
      PumpCalls(r, t0, x);
      PumpOutcome(r, t0, x);
    }
  }

  /** A handler registered before an earlier suspension does not fire at a
      teardown during a later one: once a settled step of a live run leads to
      a new suspension, teardown invokes nothing unless that latest step
      registered a handler, and then only the last one it registered. */
  lemma EarlierHandlerDoesNotFire(r: Routine, s: State, o: Settlement)
    requires Finite(r)
    requires s.phase.Waiting? && Consistent(s) && !s.canceled
    ensures var t := Settle(r, s, o); var regs := r.react(t.calls).registrations;
      t.phase.Waiting? ==>
        Teardown(t).log ==
          t.log + (if regs == [] then [] else CancelCall(HandlerOf(regs[|regs| - 1].onCancel)))
  {
    SettleOutcome(r, s, o);
    StepConsistent(r, s, OnSettle(o));
  }

  /** Every run starts consistent and not canceled. */
  lemma StartConsistent(r: Routine)
    requires Finite(r)
    ensures Consistent(Start(r)) && !Start(r).canceled
  {
    PumpOutcome(r, Initial(r), Next(Undefined));
  }

  /** Every input keeps a run consistent, and a canceled run stays canceled. */
  lemma StepConsistent(r: Routine, s: State, i: Input)
    requires Finite(r)
    requires Consistent(s)
    ensures Consistent(Step(r, s, i))
    ensures s.canceled ==> Step(r, s, i).canceled
  {
    if i.OnSettle? && s.phase.Waiting? {
      SettleOutcome(r, s, i.o);
      var t := Settle(r, s, i.o);
      if !s.canceled && !s.phase.done {
        var x := if i.o.Fulfilled? then Next(i.o.value) else AfterRejection(i.o.reason, s.phase.promise);
        var v := if i.o.Fulfilled? then i.o.value else Thenable(s.phase.promise);
        PumpOutcome(r, EndStep(s, v, false), x);
      }
    }
  }

  lemma {:induction false} ApplyConsistent(r: Routine, s: State, ins: seq<Input>)
    requires Finite(r)
    requires Consistent(s)
    ensures Consistent(Apply(r, s, ins))
    decreases |ins|
  {
    if ins != [] {
      StepConsistent(r, s, ins[0]);
      ApplyConsistent(r, Step(r, s, ins[0]), ins[1..]);
    }
  }

  /** Whatever happens to a run after it started, a cleanup is recorded only
      by a completed run, and only a truthy final value is recorded. */
  lemma RunConsistent(r: Routine, ins: seq<Input>)
    requires Finite(r)
    ensures Consistent(Apply(r, Start(r), ins))
  {
    StartConsistent(r);
    ApplyConsistent(r, Start(r), ins);
  }

  /** Once canceled, a run never talks to its iterator again, whatever
      inputs follow (late registrations, the pending value settling, further
      teardowns): it stays canceled, its calls are frozen, and its log only
      grows, by callback invocations and never by an unhandled-error report. */
  lemma {:induction false} CanceledRunIsFrozen(r: Routine, s: State, ins: seq<Input>)
    requires Finite(r)
    requires s.canceled
    ensures var t := Apply(r, s, ins);
      && t.canceled && t.calls == s.calls
      && |s.log| <= |t.log| && t.log[..|s.log|] == s.log
      && (forall i :: |s.log| <= i < |t.log| ==> !t.log[i].LoggedUnhandled?)
    decreases |ins|
  {
    if ins != [] {
      var s1 := Step(r, s, ins[0]);
      assert s1.canceled && s1.calls == s.calls;
      assert |s.log| <= |s1.log| && s1.log[..|s.log|] == s.log;
      assert forall i :: |s.log| <= i < |s1.log| ==> !s1.log[i].LoggedUnhandled?;
      CanceledRunIsFrozen(r, s1, ins[1..]);
      var t := Apply(r, s1, ins[1..]);
      assert t == Apply(r, s, ins);
      forall i | |s.log| <= i < |t.log|
        ensures !t.log[i].LoggedUnhandled?
      {
        if i < |s1.log| {
          assert t.log[i] == t.log[..|s1.log|][i];
        }
      }
      assert t.log[..|s.log|] == t.log[..|s1.log|][..|s.log|];
    }
  }

  /** A run that has left the loop for good (completed, aborted by an
      exception, or stopped on seeing the cancel flag) stays in that phase
      whatever inputs follow: its iterator is never called again and the
      cleanup the loop recorded, or its absence, never changes. */
  lemma {:induction false} TerminalIsFinal(r: Routine, s: State, ins: seq<Input>)
    requires Finite(r)
    requires s.phase.Completed? || s.phase.Aborted? || s.phase.Stopped?
    ensures var t := Apply(r, s, ins);
      t.phase == s.phase && t.calls == s.calls && t.cleanup == s.cleanup
    decreases |ins|
  {
    if ins != [] {
      TerminalIsFinal(r, Step(r, s, ins[0]), ins[1..]);
    }
  }

  /** Teardown cancels the run for good and then calls the cancel handler in
      effect and the recorded cleanup, in that order, each at most once. A run
      that has not completed has no cleanup to call; a completed run whose
      handlers have not been registered again since calls only its cleanup. */
  lemma TeardownOrder(s: State)
    requires Consistent(s)
    ensures var t := Teardown(s);
      && t.canceled
      && t.(canceled := s.canceled, log := s.log) == s
      && t.log == s.log + CancelCall(s.handlers.onCancel) + CleanupCall(s.cleanup)
      && (!s.phase.Completed? ==> t.log == s.log + CancelCall(s.handlers.onCancel))
      && (s.phase.Completed? && s.handlers == Inert ==> t.log == s.log + CleanupCall(s.cleanup))
  {
  }

  /** Fed to a run in state `s`, the inputs `ins` never register handlers
      once the run has completed. Registrations inside a step, and those
      arriving while an await is pending, are allowed: the settling step
      clears the latter (lines 70-71). */
  predicate NoLateRegistration(r: Routine, s: State, ins: seq<Input>)
    requires Finite(r)
    decreases |ins|
  {
    || ins == []
    || (&& !(ins[0].OnRegister? && s.phase.Completed?)
        && NoLateRegistration(r, Step(r, s, ins[0]), ins[1..]))
  }

  /** A completed run has both handlers back at `noop`, for as long as no
      registration arrives after it completed. */
  lemma {:induction false} CompletedHasNoHandlers(r: Routine, s: State, ins: seq<Input>)
    requires Finite(r)
    requires Consistent(s) && (s.phase.Completed? ==> s.handlers == Inert)
    requires NoLateRegistration(r, s, ins)
    ensures var t := Apply(r, s, ins); t.phase.Completed? ==> t.handlers == Inert
    decreases |ins|
  {
    if ins != [] {
      var s1 := Step(r, s, ins[0]);
      StepConsistent(r, s, ins[0]);
      if ins[0].OnSettle? && s.phase.Waiting? {
        SettleOutcome(r, s, ins[0].o);
        if !s.canceled && !s.phase.done {
          var o := ins[0].o;
          var x := if o.Fulfilled? then Next(o.value) else AfterRejection(o.reason, s.phase.promise);
          var v := if o.Fulfilled? then o.value else Thenable(s.phase.promise);
          PumpOutcome(r, EndStep(s, v, false), x);
        }
      }
      assert s1.phase.Completed? ==> s1.handlers == Inert;
      CompletedHasNoHandlers(r, s1, ins[1..]);
    }
  }

  /** Without the restriction on late registrations, the guarantee below
      fails: a registration that arrives after the run completed with a
      cleanup makes the teardown call the new cancel handler and then the
      cleanup. */
  lemma LateRegistrationCallsBoth(s: State, handler: nat)
    requires s.phase.Completed? && s.cleanup.Some?
    ensures Teardown(Register(s, Registration(Some(handler), None))).log ==
      s.log + [CancelInvoked(handler), CleanupInvoked(s.cleanup.value)]
  {
  }

  /** The cleanup and the cancel handler are never both called for one run:
      whatever settlements, registrations and teardowns a run has seen, as
      long as no registration arrived after it completed, a teardown calls at
      most one of them. */
  lemma CleanupExcludesCancelHandler(r: Routine, ins: seq<Input>)
    requires Finite(r)
    requires NoLateRegistration(r, Start(r), ins)
    ensures var t := Apply(r, Start(r), ins);
      CancelCall(t.handlers.onCancel) == [] || CleanupCall(t.cleanup) == []
  {
    StartConsistent(r);
    PumpOutcome(r, Initial(r), Next(Undefined));
    CompletedHasNoHandlers(r, Start(r), ins);
    ApplyConsistent(r, Start(r), ins);
  }
}
