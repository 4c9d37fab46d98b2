# useAsyncEffect: the cancellation-aware generator driver, in Dafny

`useAsyncEffect(createGenerator, deps)` is a React hook. It runs a generator
function as an effect. Each dependency change or unmount cancels the run that
is in flight. This project models the hook's core, `src/use-async-effect.ts`,
and proves what it promises.

One run keeps four mutable locals: `isCanceled`, `onCancel`, `onCancelError`
and `cleanupHandler`. Closures overwrite them in place.

- The routine installs a handler pair through the registration callback. A
  new call replaces the whole pair, and a missing handler becomes `noop`.
- The `run` loop calls the iterator with `next(value)`. It hands a yielded
  plain value straight back. It awaits a yielded thenable, then resumes
  with the resolved value. A rejection with a truthy reason is thrown into
  the iterator with `throw`.
- After each step that completes while the run is not canceled, the loop
  clears both handlers.
- When the loop sees `isCanceled`, it stops. A rejection that arrives after
  that goes to `onCancelError` and nowhere else.
- A synchronous exception is reported and stops the loop.
- A truthy final value is recorded as the cleanup.
- Teardown sets `isCanceled`, then calls `onCancel`, then the cleanup.

The model has three layers.

- `effect_model.dfy`, module `EffectModel`: the run as a pure state
  machine. A `State` record holds the cancel flag, the handler pair, the
  cleanup, the loop's phase, the iterator's history of calls and a log of
  everything observable (callbacks invoked, errors reported). Each thing
  that can happen to a run is a function from one state to the next:
  - `Start`: the effect body and the synchronous part of `run()`;
  - `Pump`: the loop up to its next `await`;
  - `Settle`: the pending await settles;
  - `Register`: the registration callback;
  - `Teardown`: the teardown closure.

  The iterator is a `Routine`. It says how the routine reacts to each call,
  given all earlier calls, and which registrations it makes during that
  step.
- `use_async_effect.dfy`, module `AsyncEffect`: the same code in its own
  imperative form.
  - `Sequence` is the iterator. It holds its history of calls.
  - `Run` has the source's locals as fields. `Pump` is the `do … while` loop
    with its invariants, and `Settle`, `Register` and `Teardown` are the
    closures. Every method is proved to leave the object in the state the
    matching `EffectModel` function gives.
  - `Binding` holds the ref with the latest factory (`latestFactory`) and
    the current run. `Render` updates the ref; only a change of dependencies
    tears the run down and starts a new one. `Unmount` tears it down for
    good.
- `effect_properties.dfy`, module `EffectProperties`: the guarantees, proved
  about the state machine. `effect_scenarios.dfy`, module `EffectScenarios`:
  the tests from `src/use-async-effect.spec.tsx`, replayed on concrete
  routines, plus three scenarios of the model's own that show consequences
  of the code no test covers (`FalsyRejectionScenario`,
  `PendingRegistrationScenario`, `LateRegistrationScenario`).
  `DependencyChangeScenario` is a client method that drives a `Binding`
  through a dependency change and an unmount.

A JavaScript value is reduced to what the driver inspects:
`Undefined`, another falsy value, a thenable (truthy with a `then`), or any
other truthy value. A rejection reason or thrown exception is such a value
too, since JavaScript allows falsy ones. Handlers and promises are numbers
that stand for their identity.

Awaiting is not scheduled. A pending `await` is the phase
`Waiting(promise, done)`, and its settlement is an explicit input
(`OnSettle`). So a teardown that races with a pending promise is simply a
`Teardown` input that comes before the `Settle` input.

Consequences of the code that are easy to miss, modelled as written:

- Line 55 checks for a thenable also when `done` is true. A thenable
  returned as the final value is therefore awaited. If it fulfils, its
  value becomes the cleanup if it is truthy. If it rejects on a live run, the reason is
  dropped and the thenable itself is recorded as the cleanup (`Settle`,
  and `SettleOutcome`'s third clause).
- Line 50 tests `!lastError`, so only a truthy rejection reason is thrown
  into the iterator. A live step whose thenable rejects with a falsy reason
  (`Promise.reject()`, or `null`, `0`, `""`) swallows the rejection: line 57
  never assigned, so the next call is `next` with the awaited thenable
  itself (`AfterRejection`, `SettleOutcome`'s second clause,
  `FalsyRejectionScenario`).
- Handlers registered during a step that then throws are not cleared,
  because lines 70-71 are skipped. A teardown after an aborted run still
  calls them.
- The hook is meant never to call both the cleanup and the cancel handler
  for one run (lines 67-80). The code guarantees this only while no
  registration arrives after the run completed. A registration made
  from outside a step while an await is pending is harmless, because the
  settling step clears it (lines 70-71; `PendingRegistrationScenario`).
  A routine that keeps the registration callback and calls it after
  completing gets both called at teardown (`LateRegistrationCallsBoth`,
  `LateRegistrationScenario`). `CleanupExcludesCancelHandler` proves the
  guarantee for every run without such a late registration.

## Model

| member | source | states |
|---|---|---|
| `EffectModel.AfterRegistrations` | src/use-async-effect.ts:35-38 | After several registrations in a row, only the last one decides both handlers; with none, the pair is unchanged. |
| `EffectProperties.RegistrationReplaces` | src/use-async-effect.ts:35-38 | A second registration overrides the first entirely. A registration with no arguments clears both handlers to `noop`, and each handler is `noop` exactly when its argument is missing or null. Nothing but the handler pair changes. |
| `EffectProperties.PumpCalls` | src/use-async-effect.ts:48-77 | In one synchronous pass the first call is the given resume. Every later call is `next(v)`, where `v` is the plain (non-thenable), non-final value the previous call yielded, unchanged. |
| `EffectProperties.PumpOutcome` | src/use-async-effect.ts:48-81 | A pass over a live run ends in one of three ways, and never cancels the run. 1. Suspended on the thenable the last step yielded: handlers are those the last step registered, and the log is unchanged. 2. Completed: the last step was final and not a thenable; the handlers are `noop`; only a truthy final value becomes the cleanup. 3. Aborted by an exception: reported once, no cleanup. |
| `EffectProperties.SynchronousRoutineCompletes` | src/use-async-effect.ts:43-82 | A routine that never yields a thenable and never throws completes inside the synchronous start of the run; its handlers end at `noop` and nothing is logged. |
| `EffectProperties.SettleOutcome` | src/use-async-effect.ts:50-80 | Settling the pending await on a canceled run stops it without calling the iterator: a fulfilment is dropped, and a rejection calls `onCancelError` with the reason. On a live run that was not at its end, the iterator is resumed with `next(value)` on a fulfilment, `throw(reason)` on a rejection with a truthy reason, and `next(<the awaited thenable>)` on one with a falsy reason. At the end, the run completes, and a rejected final thenable becomes the cleanup. The handlers of earlier steps are then gone. |
| `EffectProperties.EarlierHandlerDoesNotFire` | src/use-async-effect.ts:67-71 | After a live run's step settles and the run suspends again, a teardown calls only the cancel handler the latest step registered last, or nothing if that step registered none. |
| `EffectProperties.StartConsistent` | src/use-async-effect.ts:30-82 | A run starts not canceled, no longer in the loop, and with a cleanup only if it completed. |
| `EffectProperties.StepConsistent` | src/use-async-effect.ts:35-88 | Every input keeps a run consistent, and a canceled run stays canceled. |
| `EffectProperties.ApplyConsistent` | src/use-async-effect.ts:35-88 | Any sequence of inputs keeps a run consistent. |
| `EffectProperties.RunConsistent` | src/use-async-effect.ts:67-80 | In every run, whatever happens after it starts, a cleanup is recorded only when the loop reached `done`, and only a truthy final value. |
| `EffectProperties.CanceledRunIsFrozen` | src/use-async-effect.ts:57-69 | Once canceled, a run never calls `next` or `throw` again and stays canceled, whatever later inputs arrive (settlements, registrations, teardowns). Its log only grows, and never by an unhandled-error report. |
| `EffectProperties.TerminalIsFinal` | src/use-async-effect.ts:72-80 | A run that completed, aborted on an exception or stopped on cancellation stays in that phase whatever inputs follow: the iterator is never called again and the recorded cleanup (none, for an aborted run) never changes. |
| `EffectProperties.TeardownOrder` | src/use-async-effect.ts:84-88 | Teardown sets the cancel flag, then calls the cancel handler in effect, then the cleanup, each at most once. Nothing else changes. A run that has not completed calls no cleanup; a completed run whose handlers are both `noop` calls only its cleanup. |
| `EffectProperties.CompletedHasNoHandlers` | src/use-async-effect.ts:67-80 | Whatever settlements, teardowns and registrations follow (registrations inside steps or while an await is pending included), a completed run keeps both handlers at `noop` as long as no registration arrives after it completed. |
| `EffectProperties.LateRegistrationCallsBoth` | src/use-async-effect.ts:35-88 | A registration that arrives after the run completed with a cleanup makes the teardown call the new cancel handler and then the cleanup. |
| `EffectProperties.CleanupExcludesCancelHandler` | src/use-async-effect.ts:67-88 | As long as no registration arrives after the run completed, a teardown never calls both the cleanup and the cancel handler for one run. |
| `AsyncEffect.Sequence.Resume` | src/use-async-effect.ts:50-52 | A call of `next` or `throw` appends the call to the iterator's history and returns the routine's reaction to it. |
| `AsyncEffect.Run.constructor` | src/use-async-effect.ts:30-82 | The effect body. The locals start fresh, the factory's registrations apply, and the synchronous part of `run()` starts with `next(undefined)`; the result is exactly `EffectModel.Start`. |
| `AsyncEffect.Run.Register` | src/use-async-effect.ts:35-38 | The registration callback overwrites both handler fields and nothing else. |
| `AsyncEffect.Run.ApplyRegistrations` | src/use-async-effect.ts:35-38 | The registration callback is called once per registration, in order, while a step runs. |
| `AsyncEffect.Run.EndStep` | src/use-async-effect.ts:67-80 | After a step: stop if canceled. Otherwise reset both handlers. On the final step, record a truthy value as the cleanup and complete. It reports whether the loop goes round again. |
| `AsyncEffect.Run.Pump` | src/use-async-effect.ts:48-77 | The `do … while` loop, up to an `await`, the end, an exception or cancellation, leaves the fields exactly as `EffectModel.Pump` says. |
| `AsyncEffect.Run.Settle` | src/use-async-effect.ts:50-66 | The continuation of the pending `await`, including the next iteration's choice between `next` and `throw`, leaves the fields exactly as `EffectModel.Settle` says. |
| `AsyncEffect.Run.Teardown` | src/use-async-effect.ts:84-88 | The teardown closure leaves the fields exactly as `EffectModel.Teardown` says. |
| `AsyncEffect.Binding.Mount` | src/use-async-effect.ts:24-30 | The first render: the ref holds the factory, and exactly one run starts from it. |
| `AsyncEffect.Binding.Render` | src/use-async-effect.ts:26-30 | Every render stores the latest factory. With unchanged dependencies nothing else happens and no run starts. After a change, the old run is torn down and exactly one new run starts from the latest factory. |
| `AsyncEffect.Binding.Unmount` | src/use-async-effect.ts:84-89 | Unmounting tears the current run down once, for good. |
| `EffectScenarios.PlainValueScenario` | src/use-async-effect.spec.tsx:54-68 | A yielded string comes back unchanged from the next call, within the synchronous start. |
| `EffectScenarios.HandlerPerSuspensionScenario` | src/use-async-effect.spec.tsx:233-251 | The test registers one handler A before the first await and checks that it does not fire at a later unmount. The lemma extends the test with a second handler B, its own addition, registered before the second await: a teardown during the second await calls B only, never A. The later resolution does not resume the routine. |
| `EffectScenarios.OverrideScenario` | src/use-async-effect.spec.tsx:136-183 | An empty registration clears the earlier handler; a second registration overrides the first. |
| `EffectScenarios.CancelErrorScenario` | src/use-async-effect.spec.tsx:280-304 | A rejection after unmount reaches the error handler with its reason, and the routine is not resumed. |
| `EffectScenarios.RejectionScenario` | src/use-async-effect.spec.tsx:201-231 | A rejection is thrown into the routine. Caught, the run completes silently; uncaught, it is reported as one `LoggedUnhandled` entry (the source makes two `console.error` calls for it, lines 73-74, where the test expects one) and no cleanup is recorded. |
| `EffectScenarios.FalsyRejectionScenario` | src/use-async-effect.ts:50-66 | A live step whose thenable rejects with `undefined` is resumed with `next` of that thenable, not `throw`; a routine that would let a thrown error escape completes normally, with its cleanup and no report. |
| `EffectScenarios.PendingRegistrationScenario` | src/use-async-effect.ts:35-88 | A cancel handler registered from outside a step while an await is pending is cleared when that step settles; the teardown of the completed run calls only the cleanup. |
| `EffectScenarios.LateRegistrationScenario` | src/use-async-effect.ts:35-88 | A routine that registers a cancel handler after completing gets that handler and its cleanup both called at teardown. |
| `EffectScenarios.CleanupScenario` | src/use-async-effect.spec.tsx:306-327 | The returned cleanup is not called before unmount, and is called once by it. |
| `EffectScenarios.DependencyChangeScenario` | src/use-async-effect.spec.tsx:28-52 | The dependency-change tests (this one and lines 329-361), driven through the binding: a render with unchanged dependencies keeps the run, a change tears the completed run down (its cleanup called once) and starts exactly one new run, and unmounting calls the new run's cleanup once. |

## Left out

- React: `useEffect`, `useRef` and the shallow comparison of the dependency list (lines 1, 24-30, 89) are the host's. `Binding.Render` takes "the dependencies changed" as a flag from the host. The order in which React runs effect cleanups and bodies across components is not modelled.
- Promise and microtask scheduling: a pending `await` is a phase, and its settlement is an input. A promise that never settles is a run that stays `Waiting`.
- `console.error` (lines 73-74): the two calls are one `LoggedUnhandled(reason)` entry in the run's log. The log belongs to one run, so the order of events between two runs is not recorded. The test at src/use-async-effect.spec.tsx:228 expects `console.error` to be called once, while lines 73-74 call it twice; the single entry does not show that disagreement.
- The `cast` helper (lines 8-12): it only re-yields its promise and has no logic of its own.
- `scripts/prepare-deploy-package-json.js`, packaging scaffolding, is not part of this model.
- Exceptions thrown by callbacks are not modelled: every callback returns normally. In the source, an exception from `onCancelError` at line 60 is caught by the outer `try` and logged; an exception from `onCancel` or the cleanup escapes the teardown.
- A factory that throws synchronously (line 34) is not modelled, since the exception happens outside the loop.
- Re-entrancy is not modelled: a teardown that runs synchronously inside a step of the routine. So the cancel checks after a plain step are in the model but always see a live run.
- Infinite synchronous loops: `Finite` requires a routine to stop yielding plain values eventually (a rank that every synchronous step lowers). A routine that yields plain values forever would hang the source. Awaiting forever is allowed.
- JavaScript values are identities only. Equality and the contents of values are not modelled, beyond falsy, thenable and other truthy.
- Calling a non-function truthy cleanup would throw at teardown; the model records the call only.
- CleanupExcludesCancelHandler: stated only for runs that receive no registration after they completed, because such a late registration makes the source call both (`LateRegistrationCallsBoth`); registrations inside steps and while an await is pending are covered.
- CompletedHasNoHandlers: stated for the same runs, for the same reason.
