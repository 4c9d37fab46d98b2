/** The hook of src/use-async-effect.ts in its own imperative form: a `Run`
    object holds the locals the effect closures overwrite in place, its
    `Pump` method is the `do ... while` loop of `run`, and a `Binding` holds
    the ref with the latest factory and the run of the latest effect. Every
    method is proved to follow the state machine of module EffectModel. */
module AsyncEffect {
  import opened EffectModel
  import EffectProperties

  /** The iterator a factory returns. What it does on each call is fixed by
      its routine; its own state is the history of calls it received. */
  class Sequence {
    const routine: Routine
    var history: seq<Resume>

    constructor (routine: Routine)
      ensures this.routine == routine && history == []
    {
      this.routine := routine;
      history := [];
    }

    /** `next(v)` or `throw(e)`. */
    method Resume(x: Resume) returns (reaction: Reaction)
      modifies this
      ensures history == old(history) + [x]
      ensures reaction == routine.react(history)
    {
      history := history + [x];
      reaction := routine.react(history);
    }
  }

  /** One execution of the effect body: the per-run locals (lines 31-33 and
      41), the iterator it drives, and what it has reported. */
  class Run {
    var isCanceled: bool
    var onCancel: Callback
    var onCancelError: Callback
    var cleanupHandler: Option<Value>
    var phase: Phase
    var log: seq<Event>
    const generator: Sequence

    /** The run as a value of the state machine. */
    ghost function Model(): State
      reads this, generator
    {
      State(isCanceled, Handlers(onCancel, onCancelError), cleanupHandler, phase, generator.history, log)
    }

    ghost predicate Valid()
      reads this
    {
      Finite(generator.routine)
    }

    /** The effect body (lines 30-82): fresh locals, the factory's own
        registrations, then the synchronous part of `run()`. */
    constructor (routine: Routine)
      requires Finite(routine)
      ensures Valid() && fresh(generator) && generator.routine == routine
      ensures Model() == Start(routine)
    {
      isCanceled := false;
      onCancel := Noop;
      onCancelError := Noop;
      cleanupHandler := None;
      phase := Running;
      log := [];
      generator := new Sequence(routine);
      new;
      ApplyRegistrations(routine.setup);
      Pump(Next(Undefined));
    }

    /** The registration callback (lines 35-38). */
    method Register(reg: Registration)
      modifies this
      ensures Model() == EffectModel.Register(old(Model()), reg)
    {
      onCancel := HandlerOf(reg.onCancel);
      onCancelError := HandlerOf(reg.onCancelError);
    }

    /** The routine calling the registration callback once per element of
        `regs`, in order, while one of its steps runs. */
    method ApplyRegistrations(regs: seq<Registration>)
      modifies this
      ensures Model() == old(Model()).(handlers := AfterRegistrations(old(Model()).handlers, regs))
    {
      for i := 0 to |regs|
        invariant Model() == old(Model()).(handlers := AfterRegistrations(old(Model()).handlers, regs[..i]))
      {
        Register(regs[i]);
        assert regs[..i + 1][i] == regs[i];
      }
      assert regs[..|regs|] == regs;
    }

    /** The rest of a loop iteration once the step's value is known
        (lines 67-71, and 77-80 when the step was the last); `more` says
        whether the loop goes round again. */
    method EndStep(v: Value, done: bool) returns (more: bool)
      modifies this
      ensures Model() == EffectModel.EndStep(old(Model()), v, done)
      ensures more == Proceeds(old(Model()), done)
    {
      if isCanceled {
        phase := Stopped;
        return false;
      }
      onCancel := Noop;
      onCancelError := Noop;
      if done {
        if IsTruthy(v) {
          cleanupHandler := Some(v);
        }
        phase := Completed;
      }
      more := !done;
    }

    /** The loop of `run` (lines 48-77) from a call of the iterator with `x0`
        until it suspends on an `await`, completes, or stops. */
    method Pump(x0: Resume)
      requires Valid()
      modifies this, generator
      ensures Valid()
      ensures Model() == EffectModel.Pump(generator.routine, old(Model()), x0)
    {
      ghost var goal := EffectModel.Pump(generator.routine, Model(), x0);
      var x := x0;
      var looping := true;
      while looping
        invariant Valid()
        invariant looping ==> EffectModel.Pump(generator.routine, Model(), x) == goal
        invariant !looping ==> Model() == goal
        decreases if looping then generator.routine.rank(generator.history + [x]) + 1 else 0
      {
        ghost var before := Model();
        phase := Running;
        var reaction := generator.Resume(x);
        ApplyRegistrations(reaction.registrations);
        assert Model() == Called(generator.routine, before, x);
        match reaction.outcome
        case Raise(e) =>
          log := log + [LoggedUnhandled(e)];
          phase := Aborted;
          looping := false;
        case Result(v, done) =>
          if IsAwaited(v) {
            phase := Waiting(v.promise, done);
            looping := false;
          } else {
            var more := EndStep(v, done);
            if more {
              x := Next(v);
            } else {
              looping := false;
            }
          }
      }
    }

    /** The pending `await` settling (lines 56-66 and the rest of that
        iteration). */
    method Settle(o: Settlement)
      requires Valid() && phase.Waiting?
      modifies this, generator
      ensures Valid()
      ensures Model() == EffectModel.Settle(generator.routine, old(Model()), o)
    {
      var done := phase.done;
      var promise := phase.promise;
      match o
      case Fulfilled(v) =>
        var more := EndStep(v, done);
        if more {
          Pump(Next(v));
        }
      case Rejected(e) =>
        if isCanceled {
          log := log + CancelErrorCall(onCancelError, e);
          phase := Stopped;
        } else {
          var more := EndStep(Thenable(promise), done);
          if more {
            Pump(AfterRejection(e, promise));
          }
        }
    }

    /** The teardown closure (lines 84-88). */
    method Teardown()
      modifies this
      ensures Model() == EffectModel.Teardown(old(Model()))
    {
      isCanceled := true;
      log := log + CancelCall(onCancel);
      log := log + CleanupCall(cleanupHandler);
    }
  }

  /** One component's use of the hook: the ref that always holds the latest
      factory (lines 24-28) and the run of the latest effect (lines 30-89).
      Whether the dependency list changed is decided by the host and given to
      `Render`. */
  class Binding {
    var latestFactory: Routine
    var current: Run
    var mounted: bool
    ghost var runs: nat

    /** While mounted, the current run has not been torn down, so each run
        is torn down at most once. */
    ghost predicate Valid()
      reads this, current
    {
      mounted ==> !current.isCanceled
    }

    /** The first render: the ref takes the factory and the first run starts. */
    constructor Mount(factory: Routine)
      requires Finite(factory)
      ensures Valid() && mounted && latestFactory == factory && runs == 1
      ensures fresh(current) && fresh(current.generator) && current.Valid()
      ensures current.generator.routine == factory
      ensures current.Model() == Start(factory)
    {
      latestFactory := factory;
      current := new Run(factory);
      mounted := true;
      runs := 1;
      EffectProperties.StartConsistent(factory);
    }

    /** A later render. The ref is updated on every render without a restart;
        only when the dependencies changed is the current run torn down and
        one new run started with the latest factory. */
    method Render(factory: Routine, depsChanged: bool)
      requires Valid() && mounted && Finite(factory)
      modifies this, current
      ensures Valid() && mounted && latestFactory == factory
      ensures !depsChanged ==> current == old(current) && unchanged(current) && runs == old(runs)
      ensures depsChanged ==>
        && old(current).Model() == Teardown(old(current.Model()))
        && fresh(current) && fresh(current.generator) && current.Valid()
        && current.generator.routine == factory
        && current.Model() == Start(factory)
        && runs == old(runs) + 1
    {
      if depsChanged {
        current.Teardown();
      }
      latestFactory := factory;
      if depsChanged {
        current := new Run(latestFactory);
        runs := runs + 1;
        EffectProperties.StartConsistent(factory);
      }
    }

    /** Removal of the component: the current run is torn down for good. */
    method Unmount()
      requires Valid() && mounted
      modifies this, current
      ensures Valid() && !mounted
      ensures current == old(current) && latestFactory == old(latestFactory) && runs == old(runs)
      ensures current.Model() == Teardown(old(current.Model()))
    {
      current.Teardown();
      mounted := false;
    }
  }
}
