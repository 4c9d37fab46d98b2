/** One run of `useAsyncEffect` as a pure state machine.

    The effect in src/use-async-effect.ts keeps four mutable locals per run
    (`isCanceled`, `onCancel`, `onCancelError`, `cleanupHandler`), drives one
    iterator with the `run` loop, and returns a teardown closure. Here a run is
    a `State` value and every thing that can happen to it (the synchronous part
    of the loop, an awaited value settling, a registration, the teardown) is a
    function from the old state to the new one. The classes in
    use_async_effect.dfy are proved to follow these functions.
 */
module EffectModel {

  datatype Option<T> = None | Some(value: T)

  /** A JavaScript value, as far as the driver inspects it. */
  datatype Value =
    | Undefined              // the value of `result.value` before the first step
    | Falsy(id: nat)         // null, false, 0, "" and the other falsy values
    | Thenable(promise: nat) // a truthy value with a truthy `then` member
    | Other(id: nat)         // every other truthy value, functions included

  /** A rejection reason or a thrown exception. JavaScript lets any value be
      thrown or rejected with, falsy ones included. */
  type Reason = Value

  predicate IsTruthy(v: Value) {
    v.Thenable? || v.Other?
  }

  /** `result.value && result.value.then` (line 55): only a truthy thenable is
      awaited; falsy values are always passed back as plain values. */
  predicate IsAwaited(v: Value) {
    IsTruthy(v) && v.Thenable?
  }

  /** A callback slot: the shared `noop`, or a caller-supplied function. */
  datatype Callback = Noop | Fn(id: nat)

  /** The pair of cancellation callbacks in effect for a run. */
  datatype Handlers = Handlers(onCancel: Callback, onCancelError: Callback)

  const Inert := Handlers(Noop, Noop)

  /** The arguments of one call of the registration callback; `None` stands for
      an argument that is missing, `undefined` or `null`. */
  datatype Registration = Registration(onCancel: Option<nat>, onCancelError: Option<nat>)

  /** How the driver resumes the iterator: `generator.next(v)` or `generator.throw(e)`. */
  datatype Resume = Next(value: Value) | Throw(reason: Reason)

  /** What one call of `next` or `throw` gives back: an iterator result, or an
      exception raised synchronously. */
  datatype Outcome = Result(value: Value, done: bool) | Raise(reason: Reason)

  /** One step of the routine: the registrations it made while running, in
      order, and how the step ended. */
  datatype Reaction = Reaction(registrations: seq<Registration>, outcome: Outcome)

  /** The sequence instance the factory returns. `setup` are the registrations
      the factory itself makes before returning the iterator (none for a
      generator function). `react(h)` is the iterator's reaction to the last
      call in `h`, given every call `h` it has received so far. `rank` bounds
      the number of synchronous steps the routine can still take. */
  datatype Routine = Routine(
    setup: seq<Registration>,
    react: seq<Resume> -> Reaction,
    rank: seq<Resume> -> nat)

  /** True when the loop goes on with `next` without suspending: a plain value
      that is not the final one. */
  predicate Continues(o: Outcome) {
    o.Result? && !o.done && !IsAwaited(o.value)
  }

  /** The routine cannot yield plain values forever: each step that continues
      synchronously lowers the rank. Awaiting forever is allowed. */
  ghost predicate Finite(r: Routine) {
    forall h: seq<Resume> ::
      Continues(r.react(h).outcome) ==> r.rank(h + [Next(r.react(h).outcome.value)]) < r.rank(h)
  }

  /** Where the run is. `Running` only exists inside the synchronous loop. */
  datatype Phase =
    | Running
    | Waiting(promise: nat, done: bool) // an `await` on this thenable is pending
    | Completed                         // the loop left with `done === true`
    | Aborted                           // an exception stopped the loop (lines 72-76)
    | Stopped                           // the loop returned on seeing `isCanceled`

  /** What the outside world observes of a run. */
  datatype Event =
    | CancelInvoked(handler: nat)
    | CancelErrorInvoked(handler: nat, reason: Reason)
    | CleanupInvoked(cleanup: Value)
    | LoggedUnhandled(reason: Reason)  // the two `console.error` calls of lines 73-74

  /** The per-run record. `cleanup == None` is the initial `noop`; `calls` is
      every call the iterator has received; `log` is every callback invoked and
      every error reported. */
  datatype State = State(
    canceled: bool,
    handlers: Handlers,
    cleanup: Option<Value>,
    phase: Phase,
    calls: seq<Resume>,
    log: seq<Event>)

  /** How a pending awaited value settles. */
  datatype Settlement = Fulfilled(value: Value) | Rejected(reason: Reason)

  /** `handler || noop` (lines 36-37). */
  function HandlerOf(arg: Option<nat>): Callback {
    match arg
    case None => Noop
    case Some(id) => Fn(id)
  }

  /** The pair one registration installs; the previous pair plays no part. */
  function HandlersOf(reg: Registration): Handlers {
    Handlers(HandlerOf(reg.onCancel), HandlerOf(reg.onCancelError))
  }

  /** The registration callback (lines 35-38). */
  function Register(s: State, reg: Registration): State {
    s.(handlers := HandlersOf(reg))
  }

  /** The pair in effect after the given registrations, made in order,
      starting from the pair `h`: the last registration alone decides. */
  function AfterRegistrations(h: Handlers, regs: seq<Registration>): (r: Handlers)
    ensures regs == [] ==> r == h
    ensures regs != [] ==> r == HandlersOf(regs[|regs| - 1])
    decreases |regs|
  {
    if regs == [] then h else AfterRegistrations(HandlersOf(regs[0]), regs[1..])
  }

  /** The state the effect sets up before `run()` (lines 31-41): not
      canceled, both handlers `noop` unless the factory registered some, no
      cleanup. */
  function Initial(r: Routine): State {
    State(false, AfterRegistrations(Inert, r.setup), None, Running, [], [])
  }

  /** The end of a loop iteration once the step's value is known
      (lines 67-71 and, on the last iteration, 77-80). */
  function EndStep(s: State, v: Value, done: bool): State {
    if s.canceled then s.(phase := Stopped)
    else
      var cleared := s.(handlers := Inert);
      if !done then cleared
      else if IsTruthy(v) then cleared.(phase := Completed, cleanup := Some(v))
      else cleared.(phase := Completed)
  }

  /** Whether the loop runs another iteration after `EndStep`. */
  predicate Proceeds(s: State, done: bool) {
    !s.canceled && !done
  }

  /** The record right after the iterator returned from the call with `x`
      (line 51 or 52): the call is appended to the iterator's history and the
      registrations the step made are in effect. */
  function Called(r: Routine, s: State, x: Resume): State {
    var h := s.calls + [x];
    s.(phase := Running, calls := h,
       handlers := AfterRegistrations(s.handlers, r.react(h).registrations))
  }

  /** The synchronous part of the loop, from a call of the iterator with `x`
      up to the next `await`, the end, or an exception (lines 48-81). */
  function Pump(r: Routine, s: State, x: Resume): State
    requires Finite(r)
    decreases r.rank(s.calls + [x])
  {
    var s1 := Called(r, s, x);
    match r.react(s1.calls).outcome
    case Raise(e) =>
      s1.(phase := Aborted, log := s1.log + [LoggedUnhandled(e)])
    case Result(v, done) =>
      if IsAwaited(v) then s1.(phase := Waiting(v.promise, done))
      else
        var s2 := EndStep(s1, v, done);
        if Proceeds(s1, done) then Pump(r, s2, Next(v)) else s2
  }

  /** The effect body (lines 30-82): set up the record and run the loop
      synchronously up to its first suspension, starting with `next(undefined)`. */
  function Start(r: Routine): State
    requires Finite(r)
  {
    Pump(r, Initial(r), Next(Undefined))
  }

  function CancelCall(c: Callback): seq<Event> {
    if c.Fn? then [CancelInvoked(c.id)] else []
  }

  function CancelErrorCall(c: Callback, e: Reason): seq<Event> {
    if c.Fn? then [CancelErrorInvoked(c.id, e)] else []
  }

  function CleanupCall(cleanup: Option<Value>): seq<Event> {
    if cleanup.Some? then [CleanupInvoked(cleanup.value)] else []
  }

  /** The continuation of the pending `await` (lines 56-66, then the rest of
      the iteration). A fulfilment replaces `result.value`; a rejection goes
      to `onCancelError` after cancellation, and is otherwise kept in
      `lastError` for the next iteration, which resumes as `AfterRejection`
      says. */
  function Settle(r: Routine, s: State, o: Settlement): State
    requires Finite(r)
    requires s.phase.Waiting?
  {
    var done := s.phase.done;
    match o
    case Fulfilled(v) =>
      var t := EndStep(s, v, done);
      if Proceeds(s, done) then Pump(r, t, Next(v)) else t
    case Rejected(e) =>
      if s.canceled then
        s.(phase := Stopped, log := s.log + CancelErrorCall(s.handlers.onCancelError, e))
      else
        var t := EndStep(s, Thenable(s.phase.promise), done);
        if Proceeds(s, done) then Pump(r, t, AfterRejection(e, s.phase.promise)) else t
  }

  /** How the next iteration resumes the iterator after the awaited
      `promise` rejected with `e` on a live run (lines 50-52 and 64). A truthy
      `e` is thrown in. A falsy reason leaves `lastError` falsy, so the
      iterator gets `next(result.value)`, and `result.value` is still the
      awaited thenable: the rejection is swallowed. */
  function AfterRejection(e: Reason, promise: nat): Resume {
    if IsTruthy(e) then Throw(e) else Next(Thenable(promise))
  }

  /** The teardown closure (lines 84-88): mark the run canceled, call the
      cancel handler in effect, then the recorded cleanup. */
  function Teardown(s: State): State {
    var t := s.(canceled := true);
    t.(log := t.log + CancelCall(t.handlers.onCancel) + CleanupCall(t.cleanup))
  }

  /** Everything that can happen to a run after it started. */
  datatype Input =
    | OnRegister(reg: Registration) // the routine calls the registration callback later on
    | OnSettle(o: Settlement)       // the pending awaited value settles
    | OnTeardown                    // the dependencies changed or the component unmounted

  /** One input; a settlement arrives only while an `await` is pending. */
  function Step(r: Routine, s: State, i: Input): State
    requires Finite(r)
  {
    match i
    case OnRegister(reg) => Register(s, reg)
    case OnSettle(o) => if s.phase.Waiting? then Settle(r, s, o) else s
    case OnTeardown => Teardown(s)
  }

  function Apply(r: Routine, s: State, ins: seq<Input>): State
    requires Finite(r)
    decreases |ins|
  {
    if ins == [] then s else Apply(r, Step(r, s, ins[0]), ins[1..])
  }
}
