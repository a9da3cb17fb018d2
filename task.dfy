/**
 * Pigeon::Task: a step-driven state machine. `run!` runs the first step at
 * once; every `transition_to_state` sets the state and schedules one more
 * step on the engine's executor, which is modelled here as a FIFO queue of
 * pending work that `Step` drains one item at a time. Calls of the hooks
 * (`after_initialized`, `before_state`, ...) and of the run callback are
 * recorded, in order, in a trace of events.
 */
module Tasks {
  import opened Wrappers
  import SortedArrays
  import TaskQueue

  /** A task state; `Unset` is the nil state before `run!`, `Named` any other symbol. */
  datatype State = Unset | Initialized | Finished | Failed | Named(symbol: string)

  /** `Task.initial_state`: a real state, and not a terminal one. */
  function InitialState(): (r: State)
    ensures r != Unset && !IsTerminal(r)
  {
    Initialized
  }

  /** Membership in `Task.terminal_states`, which is `[:failed, :finished]`. */
  predicate IsTerminal(s: State)
  {
    s in {Failed, Finished}
  }

  /** One statement of a `state_<name>!` handler. */
  datatype Action =
    | TransitionTo(target: State)   // transition_to_state(target)
    | Dispatch(target: State)       // dispatch { transition_to_state(target) }
    | Raise(error: string)          // an exception escapes the handler

  /** Work queued on the executor. */
  datatype Pending =
    | RunStep                       // the block scheduled by transition_to_state
    | Deferred(target: State)       // a dispatched block that transitions to target

  /** A call of a hook, or of the run callback, in the order it happened. */
  datatype Event =
    | AfterInitialized
    | BeforeState(state: State)
    | Callback(state: State)
    | HandleException(error: string)
    | AfterFailed
    | AfterState(state: State)
    | AfterFinished

  /** The fields of a task: `@state`, `@exception`, whether `@callback` is set, the executor queue and the trace. */
  datatype Snapshot = Snapshot(state: State, exception: Option<string>, hasCallback: bool,
                               pending: seq<Pending>, trace: seq<Event>)

  /** The state handlers a task class defines, by state; a state without an entry has none. */
  type Handlers = map<State, seq<Action>>

  /** A freshly constructed task (task.rb:25-29): no state yet, `after_initialized` called. */
  function Created(): (r: Snapshot)
    ensures r.state == Unset && r.exception.None? && !r.hasCallback
    ensures r.pending == [] && r.trace == [AfterInitialized]
  {
    Snapshot(Unset, None, false, [], [AfterInitialized])
  }

  /** `transition_to_state(target)`: the state changes now and exactly one step is scheduled. */
  function Transition(s: Snapshot, target: State): (r: Snapshot)
    ensures r.state == target && r.pending == s.pending + [RunStep]
    ensures r.exception == s.exception && r.hasCallback == s.hasCallback && r.trace == s.trace
  {
    s.(state := target, pending := s.pending + [RunStep])
  }

  /**
   * Runs a handler's statements in order: each transition and dispatch
   * queues its work; the first `Raise` stops the handler and is answered.
   */
  function Perform(s: Snapshot, actions: seq<Action>): (r: (Snapshot, Option<string>))
    ensures r.0.exception == s.exception && r.0.hasCallback == s.hasCallback && r.0.trace == s.trace
    decreases |actions|
  {
    if actions == [] then (s, None)
    else
      match actions[0]
      case TransitionTo(t) => Perform(Transition(s, t), actions[1..])
      case Dispatch(t) => Perform(s.(pending := s.pending + [Deferred(t)]), actions[1..])
      case Raise(e) => (s, Some(e))
  }

  /**
   * What a handler's run answers: nothing exactly when no statement
   * raises, else the first raise.
   */
  lemma {:induction false} PerformOutcome(s: Snapshot, actions: seq<Action>)
    ensures var r := Perform(s, actions);
      && (r.1.None? <==> forall i :: 0 <= i < |actions| ==> !actions[i].Raise?)
      && (r.1.Some? ==> exists i :: 0 <= i < |actions| && actions[i] == Raise(r.1.value) &&
                                    forall j :: 0 <= j < i ==> !actions[j].Raise?)
    decreases |actions|
  {
    if actions != [] {
      var rest := actions[1..];
      assert forall i :: 1 <= i < |actions| ==> actions[i] == rest[i - 1];
      var next := match actions[0]
        case TransitionTo(t) => Transition(s, t)
        case Dispatch(t) => s.(pending := s.pending + [Deferred(t)])
        case Raise(_) => s;
      if !actions[0].Raise? {
        assert Perform(s, actions) == Perform(next, rest);
        PerformOutcome(next, rest);
        var r := Perform(next, rest);
        if r.1.Some? {
          var i :| 0 <= i < |rest| && rest[i] == Raise(r.1.value) && forall j :: 0 <= j < i ==> !rest[j].Raise?;
          assert actions[i + 1] == Raise(r.1.value);
        }
      }
    }
  }

  /** A handler's run only adds pending work, and a changed state is one the handler transitioned to. */
  lemma {:induction false} PerformKeeps(s: Snapshot, actions: seq<Action>)
    ensures var r := Perform(s, actions);
      && |s.pending| <= |r.0.pending| && r.0.pending[..|s.pending|] == s.pending
      && (r.0.state == s.state || exists i :: 0 <= i < |actions| && actions[i] == TransitionTo(r.0.state))
    decreases |actions|
  {
    if actions != [] {
      var rest := actions[1..];
      var next := match actions[0]
        case TransitionTo(t) => Transition(s, t)
        case Dispatch(t) => s.(pending := s.pending + [Deferred(t)])
        case Raise(_) => s;
      if !actions[0].Raise? {
        assert Perform(s, actions) == Perform(next, rest);
        PerformKeeps(next, rest);
        var r := Perform(next, rest);
        assert next.pending[..|s.pending|] == s.pending;
        assert r.0.pending[..|s.pending|] == r.0.pending[..|next.pending|][..|s.pending|];
        if r.0.state != next.state {
          var i :| 0 <= i < |rest| && rest[i] == TransitionTo(r.0.state);
          assert actions[i + 1] == TransitionTo(r.0.state);
        }
      }
    }
  }

  /**
   * The `rescue` clause of `run_state!` (task.rb:105-112): record the
   * exception, call `handle_exception` (whose own errors are ignored),
   * transition to `:failed` unless already failed, call `after_failed`.
   */
  function Rescue(s: Snapshot, e: string): (r: Snapshot)
    ensures r.exception == Some(e) && r.state == Failed && r.hasCallback == s.hasCallback
    ensures r.trace == s.trace + [HandleException(e), AfterFailed]
    ensures r.pending == if s.state == Failed then s.pending else s.pending + [RunStep]
  {
    var recorded := s.(exception := Some(e), trace := s.trace + [HandleException(e)]);
    var failed := if recorded.state == Failed then recorded else Transition(recorded, Failed);
    failed.(trace := failed.trace + [AfterFailed])
  }

  /** The handler run by a step in `s`: none in a terminal state, none if undefined (task.rb:94-103). */
  function HandlerFor(h: Handlers, s: State): (r: seq<Action>)
    ensures IsTerminal(s) || s !in h ==> r == []
    ensures !IsTerminal(s) && s in h ==> r == h[s]
  {
    if !IsTerminal(s) && s in h then h[s] else []
  }

  /** The hook and callback calls a step makes before its handler. */
  function Opening(s: Snapshot): seq<Event>
  {
    [BeforeState(s.state)] + if s.hasCallback then [Callback(s.state)] else []
  }

  /** The hook calls of the `ensure` clause of a step that started in `current` (task.rb:113-118). */
  function Closing(current: State): seq<Event>
  {
    [AfterState(current)] + if IsTerminal(current) then [AfterFinished] else []
  }

  /** `run_state!` (task.rb:78-119), one step of the task in its current state. */
  function AfterRunState(h: Handlers, s: Snapshot): (r: Snapshot)
    ensures r.hasCallback == s.hasCallback
  {
    var begun := s.(trace := s.trace + Opening(s));
    var (ran, raised) := Perform(begun, HandlerFor(h, s.state));
    var rescued := if raised.Some? then Rescue(ran, raised.value) else ran;
    rescued.(trace := rescued.trace + Closing(s.state))
  }

  /**
   * A step extends the trace, starting with `before_state` of the state it
   * began in and ending with `after_finished` (terminal) or `after_state`;
   * pending work only grows.
   */
  lemma StepBrackets(h: Handlers, s: Snapshot)
    ensures var r := AfterRunState(h, s);
      && |s.trace| + 2 <= |r.trace| && r.trace[..|s.trace|] == s.trace
      && r.trace[|s.trace|] == BeforeState(s.state)
      && r.trace[|r.trace| - 1] == (if IsTerminal(s.state) then AfterFinished else AfterState(s.state))
      && |s.pending| <= |r.pending| && r.pending[..|s.pending|] == s.pending
  {
    var begun := s.(trace := s.trace + Opening(s));
    PerformKeeps(begun, HandlerFor(h, s.state));
  }

  /** `run!` (task.rb:33-39): keep the callback if one is given, enter the initial state, run one step. */
  function AfterRun(h: Handlers, s: Snapshot, withCallback: bool): (r: Snapshot)
    ensures r.hasCallback == (s.hasCallback || withCallback)
  {
    AfterRunState(h, s.(hasCallback := s.hasCallback || withCallback, state := InitialState()))
  }

  /** The step `run!` runs begins with `before_state(:initialized)`, whatever the task's state was. */
  lemma RunEntersInitialState(h: Handlers, s: Snapshot, withCallback: bool)
    ensures var r := AfterRun(h, s, withCallback);
      |r.trace| > |s.trace| && r.trace[|s.trace|] == BeforeState(InitialState())
  {
    StepBrackets(h, s.(hasCallback := s.hasCallback || withCallback, state := InitialState()));
  }

  /** The executor runs the oldest pending item: a scheduled step, or a dispatched transition. */
  function AfterStep(h: Handlers, s: Snapshot): (r: Snapshot)
    ensures s.pending == [] ==> r == s
  {
    if s.pending == [] then s
    else
      var rest := s.(pending := s.pending[1..]);
      match s.pending[0]
      case RunStep => AfterRunState(h, rest)
      case Deferred(t) => Transition(rest, t)
  }

  /** Runs the executor until its queue is empty, for at most `fuel` items. */
  function Drain(h: Handlers, s: Snapshot, fuel: nat): (r: Snapshot)
    ensures fuel == 0 || s.pending == [] ==> r == s
    decreases fuel
  {
    if fuel == 0 || s.pending == [] then s else Drain(h, AfterStep(h, s), fuel - 1)
  }

  // ---------------------------------------------------------------------
  // Properties of a step
  // ---------------------------------------------------------------------

  /** `terminal_state?` holds exactly of `:failed` and `:finished` (task.rb:19-21, 57-59). */
  lemma TerminalIsFinishedOrFailed(s: State)
    ensures IsTerminal(s) <==> s == Finished || s == Failed
    ensures !IsTerminal(Unset) && !IsTerminal(InitialState()) && !IsTerminal(Named("finished"))
  {
  }

  /**
   * The events a step adds: `before_state(s)`, the callback with `s` when
   * there is one, whatever the handler and the rescue do, then
   * `after_state(s)`, and `after_finished` exactly when `s` was terminal.
   */
  lemma StepEvents(h: Handlers, s: Snapshot)
    ensures var r := AfterRunState(h, s);
      exists middle :: r.trace == s.trace + Opening(s) + middle + Closing(s.state)
    ensures var r := AfterRunState(h, s);
      AfterFinished in r.trace[|s.trace|..] <==> IsTerminal(s.state)
  {
    var begun := s.(trace := s.trace + Opening(s));
    var (ran, raised) := Perform(begun, HandlerFor(h, s.state));
    var rescued := if raised.Some? then Rescue(ran, raised.value) else ran;
    var middle := if raised.Some? then [HandleException(raised.value), AfterFailed] else [];
    assert rescued.trace == s.trace + Opening(s) + middle;
    var added := AfterRunState(h, s).trace[|s.trace|..];
    assert added == Opening(s) + middle + Closing(s.state);
    assert AfterFinished !in Opening(s) + middle;
  }

  /** A step in a terminal state runs no handler: only the hooks and callback are called. */
  lemma TerminalStepRunsNoHandler(h: Handlers, s: Snapshot)
    requires IsTerminal(s.state)
    ensures AfterRunState(h, s) == s.(trace := s.trace + Opening(s) + [AfterState(s.state), AfterFinished])
  {
  }

  /** A non-terminal state without a handler is a no-op apart from the hooks and callback. */
  lemma MissingHandlerIsNoOp(h: Handlers, s: Snapshot)
    requires !IsTerminal(s.state) && s.state !in h
    ensures AfterRunState(h, s) == s.(trace := s.trace + Opening(s) + [AfterState(s.state)])
  {
  }

  /**
   * A handler that only transitions leaves the task in the target state
   * with exactly one more step scheduled; the scheduled step reads the
   * state when it runs.
   */
  lemma TransitionSchedulesOneStep(h: Handlers, s: Snapshot, target: State)
    requires !IsTerminal(s.state) && s.state in h && h[s.state] == [TransitionTo(target)]
    ensures AfterRunState(h, s) == s.(state := target, pending := s.pending + [RunStep],
                                 trace := s.trace + Opening(s) + [AfterState(s.state)])
  {
    var begun := s.(trace := s.trace + Opening(s));
    assert [TransitionTo(target)][1..] == [];
    assert Perform(begun, [TransitionTo(target)]) == (Transition(begun, target), None);
  }

  /**
   * A handler that raises: the exception is recorded, `handle_exception`
   * and `after_failed` are each called once, and the task ends the step
   * failed, with a step scheduled unless it had already failed.
   */
  lemma RaiseFailsTheTask(h: Handlers, s: Snapshot, e: string)
    requires !IsTerminal(s.state) && s.state in h && h[s.state] == [Raise(e)]
    ensures var r := AfterRunState(h, s);
      r.state == Failed && r.exception == Some(e) &&
      r.pending == s.pending + [RunStep] &&
      r.trace == s.trace + Opening(s) + [HandleException(e), AfterFailed, AfterState(s.state)]
  {
    PerformOutcome(s.(trace := s.trace + Opening(s)), [Raise(e)]);
  }

  /** A step whose handler does not raise leaves `@exception` as it was. */
  lemma NoRaiseKeepsException(h: Handlers, s: Snapshot)
    requires forall i :: 0 <= i < |HandlerFor(h, s.state)| ==> !HandlerFor(h, s.state)[i].Raise?
    ensures AfterRunState(h, s).exception == s.exception
  {
    PerformOutcome(s.(trace := s.trace + Opening(s)), HandlerFor(h, s.state));
  }

  // ---------------------------------------------------------------------
  // The tasks of the unit tests, run until the executor is idle
  // ---------------------------------------------------------------------

  /** The states the run callback was called with, in order. */
  function Callbacks(trace: seq<Event>): (r: seq<State>)
    ensures |r| <= |trace|
  {
    if trace == [] then []
    else (if trace[0].Callback? then [trace[0].state] else []) + Callbacks(trace[1..])
  }

  /** The hook calls a task records when it logs `after_initialized`, `before_state` and `after_finished`. */
  function Triggers(trace: seq<Event>): (r: seq<Event>)
    ensures |r| <= |trace|
  {
    if trace == [] then [] else TriggerOf(trace[0]) + Triggers(trace[1..])
  }

  /** The event itself when it is `after_initialized`, `before_state` or `after_finished`; else nothing. */
  function TriggerOf(e: Event): (r: seq<Event>)
    ensures |r| <= 1
  {
    if e.AfterInitialized? || e.BeforeState? || e.AfterFinished? then [e] else []
  }

  lemma {:induction false} CallbacksDistribute(a: seq<Event>, b: seq<Event>)
    ensures Callbacks(a + b) == Callbacks(a) + Callbacks(b)
  {
    if a == [] {
      assert a + b == b;
    } else {
      assert (a + b)[0] == a[0] && (a + b)[1..] == a[1..] + b;
      CallbacksDistribute(a[1..], b);
    }
  }

  lemma {:induction false} TriggersDistribute(a: seq<Event>, b: seq<Event>)
    ensures Triggers(a + b) == Triggers(a) + Triggers(b)
  {
    if a == [] {
      assert a + b == b;
    } else {
      assert (a + b)[0] == a[0] && (a + b)[1..] == a[1..] + b;
      TriggersDistribute(a[1..], b);
      calc {
        Triggers(a + b);
        TriggerOf(a[0]) + Triggers(a[1..] + b);
        TriggerOf(a[0]) + (Triggers(a[1..]) + Triggers(b));
        (TriggerOf(a[0]) + Triggers(a[1..])) + Triggers(b);
      }
    }
  }

  /** The callback states and hook calls of a concatenated trace come part by part. */
  lemma ProjectionsDistribute(a: seq<Event>, b: seq<Event>)
    ensures Callbacks(a + b) == Callbacks(a) + Callbacks(b)
    ensures Triggers(a + b) == Triggers(a) + Triggers(b)
  {
    CallbacksDistribute(a, b);
    TriggersDistribute(a, b);
  }

  /** Without a raise, a step only adds its opening and closing hook calls. */
  lemma NoRaiseTrace(h: Handlers, s: Snapshot)
    requires forall i :: 0 <= i < |HandlerFor(h, s.state)| ==> !HandlerFor(h, s.state)[i].Raise?
    ensures AfterRunState(h, s).trace == s.trace + Opening(s) + Closing(s.state)
  {
    PerformOutcome(s.(trace := s.trace + Opening(s)), HandlerFor(h, s.state));
  }

  lemma OpeningProjections(s: Snapshot)
    ensures Callbacks(Opening(s)) == if s.hasCallback then [s.state] else []
    ensures Triggers(Opening(s)) == [BeforeState(s.state)]
  {
    var o := Opening(s);
    assert o[1..] == if s.hasCallback then [Callback(s.state)] else [];
    if s.hasCallback {
      assert o[1..][1..] == [];
    }
  }

  lemma ClosingProjections(c: State)
    ensures Callbacks(Closing(c)) == []
    ensures Triggers(Closing(c)) == if IsTerminal(c) then [AfterFinished] else []
  {
    var e := Closing(c);
    assert e[1..] == if IsTerminal(c) then [AfterFinished] else [];
    if IsTerminal(c) {
      assert e[1..][1..] == [];
    }
  }

  /**
   * A step whose handler does not raise calls the callback once with the
   * state it started in (when a callback is set), `before_state` once, and
   * `after_finished` once exactly when that state is terminal.
   */
  lemma StepProjections(h: Handlers, s: Snapshot)
    requires forall i :: 0 <= i < |HandlerFor(h, s.state)| ==> !HandlerFor(h, s.state)[i].Raise?
    ensures Callbacks(AfterRunState(h, s).trace) == Callbacks(s.trace) + if s.hasCallback then [s.state] else []
    ensures Triggers(AfterRunState(h, s).trace) ==
      Triggers(s.trace) + [BeforeState(s.state)] + if IsTerminal(s.state) then [AfterFinished] else []
  {
    NoRaiseTrace(h, s);
    ProjectionsDistribute(s.trace, Opening(s));
    ProjectionsDistribute(s.trace + Opening(s), Closing(s.state));
    OpeningProjections(s);
    ClosingProjections(s.state);
  }

  /** The base task: its one handler, `state_initialized!`, transitions to `:finished` (task.rb:162-164). */
  function BaseHandlers(): Handlers
  {
    map[Initialized := [TransitionTo(Finished)]]
  }

  /**
   * A base task run with a callback finishes without an exception, and the
   * callback sees `:initialized` then `:finished`.
   */
  lemma BaseTaskFinishes()
    ensures var r := Drain(BaseHandlers(), AfterRun(BaseHandlers(), Created(), true), 1);
      r.state == Finished && r.exception == None && r.pending == [] &&
      Callbacks(r.trace) == [Initialized, Finished]
  {
    var h := BaseHandlers();
    var c := Created().(hasCallback := true, state := Initialized);
    assert Callbacks(c.trace) == [];
    TransitionSchedulesOneStep(h, c, Finished);
    StepProjections(h, c);
    var s0 := AfterRun(h, Created(), true);
    var s1 := s0.(pending := []);
    assert AfterStep(h, s0) == AfterRunState(h, s1);
    StepProjections(h, s1);
  }

  /**
   * The example task of the unit tests: `initialized` goes to `state1`,
   * `state1` to `state2`; `state2` goes to `state3` and dispatches a later
   * transition to `state4`; `state3` has no handler; `state4` finishes.
   */
  function ExampleHandlers(): Handlers
  {
    map[Initialized := [TransitionTo(Named("state1"))],
        Named("state1") := [TransitionTo(Named("state2"))],
        Named("state2") := [TransitionTo(Named("state3")), Dispatch(Named("state4"))],
        Named("state4") := [TransitionTo(Finished)]]
  }

  /** A step whose handler only transitions, with what the callback and the hooks see. */
  lemma TransitionStep(h: Handlers, s: Snapshot, target: State)
    requires !IsTerminal(s.state) && s.state in h && h[s.state] == [TransitionTo(target)]
    ensures var r := AfterRunState(h, s);
      r.state == target && r.pending == s.pending + [RunStep] &&
      r.exception == s.exception && r.hasCallback == s.hasCallback &&
      Callbacks(r.trace) == Callbacks(s.trace) + (if s.hasCallback then [s.state] else []) &&
      Triggers(r.trace) == Triggers(s.trace) + [BeforeState(s.state)]
  {
    TransitionSchedulesOneStep(h, s, target);
    StepProjections(h, s);
  }

  /** What the example task's handlers are, entry by entry. */
  ghost predicate ExampleShape(h: Handlers)
  {
    Initialized in h && h[Initialized] == [TransitionTo(Named("state1"))] &&
    Named("state1") in h && h[Named("state1")] == [TransitionTo(Named("state2"))] &&
    Named("state2") in h && h[Named("state2")] == [TransitionTo(Named("state3")), Dispatch(Named("state4"))] &&
    Named("state3") !in h &&
    Named("state4") in h && h[Named("state4")] == [TransitionTo(Finished)]
  }

  lemma ExampleHandlersShape()
    ensures ExampleShape(ExampleHandlers())
  {
  }

  /** The oldest pending item is a scheduled step: the executor runs `run_state!`. */
  lemma StepRunsState(h: Handlers, s: Snapshot)
    requires s.pending != [] && s.pending[0] == RunStep
    ensures AfterStep(h, s) == AfterRunState(h, s.(pending := s.pending[1..]))
  {
  }

  /** The example task's first step, `initialized`, then `state1`. */
  lemma ExampleFirstSteps(h: Handlers, s: Snapshot)
    requires ExampleShape(h) && s.state == Initialized && s.pending == [] && s.exception == None
    ensures AfterRunState(h, s).pending == [RunStep]
    ensures var r := AfterStep(h, AfterRunState(h, s));
      r.state == Named("state2") && r.exception == None && r.hasCallback == s.hasCallback &&
      r.pending == [RunStep] &&
      Callbacks(r.trace) == Callbacks(s.trace) + (if s.hasCallback then [Initialized, Named("state1")] else []) &&
      Triggers(r.trace) == Triggers(s.trace) + [BeforeState(Initialized), BeforeState(Named("state1"))]
  {
    TransitionStep(h, s, Named("state1"));
    var x1 := AfterRunState(h, s);
    StepRunsState(h, x1);
    var s1 := x1.(pending := []);
    TransitionStep(h, s1, Named("state2"));
    var x2 := AfterStep(h, x1);
    assert x2 == AfterRunState(h, s1);
    if s.hasCallback {
      assert Callbacks(x2.trace) == Callbacks(s.trace) + [Initialized] + [Named("state1")];
    }
    assert Triggers(x2.trace) == Triggers(s.trace) + [BeforeState(Initialized)] + [BeforeState(Named("state1"))];
  }

  /** The example task's `state2` step: on to `state3`, with a transition to `state4` dispatched. */
  lemma ExampleDispatchStep(h: Handlers, s: Snapshot)
    requires ExampleShape(h) && s.state == Named("state2") && s.pending == [RunStep] && s.exception == None
    ensures var r := AfterStep(h, s);
      r.state == Named("state3") && r.exception == None && r.hasCallback == s.hasCallback &&
      r.pending == [RunStep, Deferred(Named("state4"))] &&
      Callbacks(r.trace) == Callbacks(s.trace) + (if s.hasCallback then [Named("state2")] else []) &&
      Triggers(r.trace) == Triggers(s.trace) + [BeforeState(Named("state2"))]
  {
    StepRunsState(h, s);
    var s2 := s.(pending := []);
    var acts := [TransitionTo(Named("state3")), Dispatch(Named("state4"))];
    var begun := s2.(trace := s2.trace + Opening(s2));
    assert HandlerFor(h, s2.state) == acts;
    assert acts[1..] == [Dispatch(Named("state4"))] && acts[1..][1..] == [];
    var moved := Transition(begun, Named("state3"));
    assert Perform(begun, acts) == Perform(moved, [Dispatch(Named("state4"))]);
    assert Perform(moved, [Dispatch(Named("state4"))]) == Perform(moved.(pending := moved.pending + [Deferred(Named("state4"))]), []);
    assert moved.pending + [Deferred(Named("state4"))] == [RunStep, Deferred(Named("state4"))];
    assert Perform(begun, acts) == (begun.(state := Named("state3"), pending := [RunStep, Deferred(Named("state4"))]), None);
    StepProjections(h, s2);
  }

  /** The example task's `state3` step, a no-op, then the dispatched transition to `state4`. */
  lemma ExampleDeferredStep(h: Handlers, s: Snapshot)
    requires ExampleShape(h) && s.state == Named("state3") && s.exception == None
    requires s.pending == [RunStep, Deferred(Named("state4"))]
    ensures AfterStep(h, s).pending == [Deferred(Named("state4"))]
    ensures var r := AfterStep(h, AfterStep(h, s));
      r.state == Named("state4") && r.exception == None && r.hasCallback == s.hasCallback &&
      r.pending == [RunStep] &&
      Callbacks(r.trace) == Callbacks(s.trace) + (if s.hasCallback then [Named("state3")] else []) &&
      Triggers(r.trace) == Triggers(s.trace) + [BeforeState(Named("state3"))]
  {
    StepRunsState(h, s);
    var s3 := s.(pending := [Deferred(Named("state4"))]);
    MissingHandlerIsNoOp(h, s3);
    StepProjections(h, s3);
  }

  /** A step in a terminal state, with what the callback and the hooks see. */
  lemma TerminalStep(h: Handlers, s: Snapshot)
    requires IsTerminal(s.state)
    ensures var r := AfterRunState(h, s);
      r.state == s.state && r.pending == s.pending &&
      r.exception == s.exception && r.hasCallback == s.hasCallback &&
      Callbacks(r.trace) == Callbacks(s.trace) + (if s.hasCallback then [s.state] else []) &&
      Triggers(r.trace) == Triggers(s.trace) + [BeforeState(s.state), AfterFinished]
  {
    TerminalStepRunsNoHandler(h, s);
    StepProjections(h, s);
  }

  /** The example task's `state4` step, then the `finished` step, after which the executor is idle. */
  lemma ExampleFinalSteps(h: Handlers, s: Snapshot)
    requires ExampleShape(h) && s.state == Named("state4") && s.exception == None && s.pending == [RunStep]
    ensures AfterStep(h, s).pending == [RunStep]
    ensures var r := AfterStep(h, AfterStep(h, s));
      r.state == Finished && r.exception == None && r.pending == [] &&
      Callbacks(r.trace) == Callbacks(s.trace) + (if s.hasCallback then [Named("state4"), Finished] else []) &&
      Triggers(r.trace) == Triggers(s.trace) + [BeforeState(Named("state4")), BeforeState(Finished), AfterFinished]
  {
    StepRunsState(h, s);
    var s4 := s.(pending := []);
    TransitionStep(h, s4, Finished);
    var x5 := AfterStep(h, s);
    assert x5 == AfterRunState(h, s4);
    StepRunsState(h, x5);
    var s5 := x5.(pending := []);
    TerminalStep(h, s5);
    var x6 := AfterStep(h, x5);
    assert x6 == AfterRunState(h, s5);
    if s.hasCallback {
      assert Callbacks(x6.trace) == Callbacks(s.trace) + [Named("state4")] + [Finished];
    }
    assert Triggers(x6.trace) == Triggers(s.trace) + [BeforeState(Named("state4"))] + [BeforeState(Finished), AfterFinished];
  }

  /** The hooks the example task's unit test expects after `after_initialized`. */
  function ExampleTriggers(): seq<Event>
  {
    [BeforeState(Initialized), BeforeState(Named("state1")), BeforeState(Named("state2")),
     BeforeState(Named("state3")), BeforeState(Named("state4")), BeforeState(Finished), AfterFinished]
  }

  /** The states the example task's unit test expects its callback to see. */
  function ExampleCallbacks(): seq<State>
  {
    [Initialized, Named("state1"), Named("state2"), Named("state3"), Named("state4"), Finished]
  }

  lemma ExampleListsSplit()
    ensures ExampleTriggers() == [BeforeState(Initialized), BeforeState(Named("state1"))] +
      [BeforeState(Named("state2"))] + [BeforeState(Named("state3"))] +
      [BeforeState(Named("state4")), BeforeState(Finished), AfterFinished]
    ensures ExampleCallbacks() == [Initialized, Named("state1")] + [Named("state2")] + [Named("state3")] +
      [Named("state4"), Finished]
  {
  }

  /** Any task with the example task's handlers, run from an idle executor: seven items in all. */
  lemma ExampleRun(h: Handlers, c: Snapshot)
    requires ExampleShape(h) && c.pending == [] && c.exception == None
    ensures var r := Drain(h, AfterRun(h, c, true), 6);
      r.state == Finished && r.exception == None && r.pending == [] &&
      Triggers(r.trace) == Triggers(c.trace) + ExampleTriggers() &&
      Callbacks(r.trace) == Callbacks(c.trace) + ExampleCallbacks()
  {
    ExampleListsSplit();
    var s0 := c.(hasCallback := true, state := Initialized);
    ExampleFirstSteps(h, s0);
    var x1 := AfterRun(h, c, true);
    assert x1 == AfterRunState(h, s0);
    var x2 := AfterStep(h, x1);
    ExampleDispatchStep(h, x2);
    var x3 := AfterStep(h, x2);
    ExampleDeferredStep(h, x3);
    var x4 := AfterStep(h, x3);
    var x5 := AfterStep(h, x4);
    ExampleFinalSteps(h, x5);
    var x6 := AfterStep(h, x5);
    var x7 := AfterStep(h, x6);
    assert x1.pending != [] && x2.pending != [] && x3.pending != [];
    assert x4.pending != [] && x5.pending != [] && x6.pending != [];
    assert Drain(h, x6, 1) == x7;
    assert Drain(h, x5, 2) == x7;
    assert Drain(h, x4, 3) == x7;
    assert Drain(h, x3, 4) == x7;
    assert Drain(h, x2, 5) == x7;
    assert Drain(h, x1, 6) == x7;
    Assemble(Triggers(c.trace), Triggers(x2.trace), Triggers(x3.trace), Triggers(x5.trace), Triggers(x7.trace),
             [BeforeState(Initialized), BeforeState(Named("state1"))], [BeforeState(Named("state2"))],
             [BeforeState(Named("state3"))], [BeforeState(Named("state4")), BeforeState(Finished), AfterFinished]);
    Assemble(Callbacks(c.trace), Callbacks(x2.trace), Callbacks(x3.trace), Callbacks(x5.trace), Callbacks(x7.trace),
             [Initialized, Named("state1")], [Named("state2")], [Named("state3")], [Named("state4"), Finished]);
  }

  lemma Assemble<T>(t0: seq<T>, t1: seq<T>, t2: seq<T>, t3: seq<T>, t4: seq<T>,
                    a: seq<T>, b: seq<T>, c: seq<T>, d: seq<T>)
    requires t1 == t0 + a && t2 == t1 + b && t3 == t2 + c && t4 == t3 + d
    ensures t4 == t0 + (a + b + c + d)
  {
  }

  /**
   * The example task run with a callback finishes without an exception;
   * the hooks it records and the states the callback sees are exactly the
   * ones the unit test lists.
   */
  lemma ExampleTaskTriggers(h: Handlers, c: Snapshot)
    requires h == ExampleHandlers() && c == Created()
    ensures var r := Drain(h, AfterRun(h, c, true), 6);
      r.state == Finished && r.exception == None && r.pending == [] &&
      Triggers(r.trace) == [AfterInitialized] + ExampleTriggers() &&
      Callbacks(r.trace) == ExampleCallbacks()
  {
    ExampleHandlersShape();
    assert Callbacks(c.trace) == [] && Triggers(c.trace) == [AfterInitialized];
    ExampleRun(h, c);
  }

  /** The failing task of the unit tests: `state_initialized!` calls an undefined method. */
  function FailingHandlers(): Handlers
  {
    map[Initialized := [Raise("NoMethodError")]]
  }

  /**
   * The failing task ends failed with its exception recorded;
   * `after_failed` is called once and the callback is still called on
   * every step.
   */
  lemma FailingTaskFails(h: Handlers, c: Snapshot)
    requires h == FailingHandlers() && c == Created()
    ensures var r := Drain(h, AfterRun(h, c, true), 1);
      r.state == Failed && r.exception == Some("NoMethodError") && r.pending == [] &&
      r.trace == [AfterInitialized, BeforeState(Initialized), Callback(Initialized),
                  HandleException("NoMethodError"), AfterFailed, AfterState(Initialized),
                  BeforeState(Failed), Callback(Failed), AfterState(Failed), AfterFinished]
  {
    var s0 := c.(hasCallback := true, state := Initialized);
    RaiseFailsTheTask(h, s0, "NoMethodError");
    var x0 := AfterRun(h, c, true);
    var s1 := x0.(pending := []);
    TerminalStepRunsNoHandler(h, s1);
  }

  // ---------------------------------------------------------------------
  // Priority and ordering
  // ---------------------------------------------------------------------

  /** Both arrangements start with the earliest-created task. */
  lemma SameFirst(created: seq<TaskQueue.QueuedTask>, sorted: seq<TaskQueue.QueuedTask>)
    requires created != []
    requires forall i, j :: 0 <= i < j < |created| ==> created[i].priority < created[j].priority
    requires forall i, j :: 0 <= i < j < |sorted| ==> sorted[i].priority <= sorted[j].priority
    requires multiset(sorted) == multiset(created)
    ensures sorted != [] && sorted[0] == created[0]
    ensures multiset(sorted[1..]) == multiset(created[1..])
  {
    assert created[0] in multiset(sorted);
    var k :| 0 <= k < |sorted| && sorted[k] == created[0];
    assert sorted[0] in multiset(created);
    var m :| 0 <= m < |created| && created[m] == sorted[0];
    assert sorted[0].priority <= sorted[k].priority == created[0].priority;
    assert created[0].priority <= created[m].priority == sorted[0].priority;
    assert m == 0;
    assert created == [created[0]] + created[1..];
    assert sorted == [sorted[0]] + sorted[1..];
    assert multiset(sorted[1..]) == multiset(sorted) - multiset{sorted[0]};
    assert multiset(created[1..]) == multiset(created) - multiset{created[0]};
  }

  /**
   * Tasks whose priorities were fixed in creation order by a clock that
   * only moves forward: any arrangement of them sorted by priority (as
   * `<=>` ranks them) is the creation order itself.
   */
  lemma {:induction false} CreationOrderIsSortOrder(created: seq<TaskQueue.QueuedTask>, sorted: seq<TaskQueue.QueuedTask>)
    requires forall i, j :: 0 <= i < j < |created| ==> created[i].priority < created[j].priority
    requires forall i, j :: 0 <= i < j < |sorted| ==> sorted[i].priority <= sorted[j].priority
    requires multiset(sorted) == multiset(created)
    ensures sorted == created
  {
    if created == [] {
      assert |sorted| == |multiset(sorted)| == 0;
    } else {
      SameFirst(created, sorted);
      var rest, tail := created[1..], sorted[1..];
      forall i, j | 0 <= i < j < |rest|
        ensures rest[i].priority < rest[j].priority
      {
        assert rest[i] == created[i + 1] && rest[j] == created[j + 1];
      }
      forall i, j | 0 <= i < j < |tail|
        ensures tail[i].priority <= tail[j].priority
      {
        assert tail[i] == sorted[i + 1] && tail[j] == sorted[j + 1];
      }
      CreationOrderIsSortOrder(rest, tail);
      assert created == [created[0]] + rest && sorted == [sorted[0]] + tail;
    }
  }

  // ---------------------------------------------------------------------
  // The task object
  // ---------------------------------------------------------------------

  class Task {
    /** The `state_<name>!` methods of the task's class. */
    const handlers: Handlers
    var state: State
    var exception: Option<string>
    var hasCallback: bool
    var priority: Option<int>
    var pending: seq<Pending>
    var trace: seq<Event>

    function Snap(): Snapshot
      reads this
    {
      Snapshot(state, exception, hasCallback, pending, trace)
    }

    /** `Task.new(engine)`: calls `after_initialized`; no state, no priority yet. */
    constructor (handlers: Handlers)
      ensures this.handlers == handlers && Snap() == Created() && priority == None
    {
      this.handlers := handlers;
      state := Unset;
      exception := None;
      hasCallback := false;
      priority := None;
      pending := [];
      trace := [AfterInitialized];
    }

    /** `finished?`: a finished task is in a terminal state and has not failed. */
    function IsFinished(): (r: bool)
      reads this
      ensures r <==> Snap().state == Finished
      ensures r ==> IsTerminal(Snap().state) && !IsFailed()
    {
      state == Finished
    }

    /** `failed?`: a failed task is in a terminal state. */
    function IsFailed(): (r: bool)
      reads this
      ensures r <==> Snap().state == Failed
      ensures r ==> IsTerminal(Snap().state)
    {
      state == Failed
    }

    /** `exception?`: an exception has been recorded. */
    function HasException(): (r: bool)
      reads this
      ensures r <==> Snap().exception.Some?
    {
      exception.Some?
    }

    /** `terminal_state?`: exactly `finished?` or `failed?`. */
    function InTerminalState(): (r: bool)
      reads this
      ensures r <==> IsFinished() || IsFailed()
    {
      IsTerminal(state)
    }

    /** `run!`: keeps the callback when one is given, enters the initial state, runs one step now. */
    method Run(withCallback: bool)
      modifies this
      ensures Snap() == AfterRun(handlers, old(Snap()), withCallback) && priority == old(priority)
    {
      if withCallback {
        hasCallback := true;
      }
      state := InitialState();
      RunState();
    }

    /** `transition_to_state(target)`: the state changes now, one step is scheduled, the target is answered. */
    method TransitionToState(target: State) returns (r: State)
      modifies this
      ensures r == target && Snap() == Transition(old(Snap()), target) && priority == old(priority)
    {
      state := target;
      pending := pending + [RunStep];
      r := state;
    }

    /** `dispatch { transition_to_state(target) }`: the block is queued on the executor. */
    method Dispatch(target: State)
      modifies this
      ensures Snap() == old(Snap()).(pending := old(pending) + [Deferred(target)]) && priority == old(priority)
    {
      pending := pending + [Deferred(target)];
    }

    /** Runs a handler's statements until one raises; answers what it raised. */
    method PerformHandler(actions: seq<Action>) returns (raised: Option<string>)
      modifies this
      ensures (Snap(), raised) == Perform(old(Snap()), actions) && priority == old(priority)
    {
      var i := 0;
      while i < |actions|
        invariant 0 <= i <= |actions| && priority == old(priority)
        invariant Perform(old(Snap()), actions) == Perform(Snap(), actions[i..])
      {
        assert actions[i..][0] == actions[i] && actions[i..][1..] == actions[i + 1..];
        match actions[i] {
          case TransitionTo(t) =>
            var _ := TransitionToState(t);
          case Dispatch(t) =>
            Dispatch(t);
          case Raise(e) =>
            return Some(e);
        }
        i := i + 1;
      }
      return None;
    }

    /** `run_state!`: one step in the current state, with its `rescue` and `ensure` clauses. */
    method RunState()
      modifies this
      ensures Snap() == AfterRunState(handlers, old(Snap())) && priority == old(priority)
    {
      var current := state;
      ghost var begun := old(Snap()).(trace := old(trace) + Opening(old(Snap())));
      BeginStep();
      var raised: Option<string> := None;
      if !IsTerminal(state) && state in handlers {
        raised := PerformHandler(handlers[state]);
      }
      assert (Snap(), raised) == Perform(begun, HandlerFor(handlers, current));
      if raised.Some? {
        RescueFrom(raised.value);
      }
      EndStep(current);
    }

    /** The start of `run_state!` (task.rb:81-92): `before_state`, then the callback when one is set. */
    method BeginStep()
      modifies this
      ensures Snap() == old(Snap()).(trace := old(trace) + Opening(old(Snap()))) && priority == old(priority)
    {
      trace := trace + [BeforeState(state)];
      if hasCallback {
        trace := trace + [Callback(state)];
      }
    }

    /** The `rescue` clause of `run_state!`. */
    method RescueFrom(e: string)
      modifies this
      ensures Snap() == Rescue(old(Snap()), e) && priority == old(priority)
    {
      exception := Some(e);
      trace := trace + [HandleException(e)];
      if state != Failed {
        var _ := TransitionToState(Failed);
      }
      trace := trace + [AfterFailed];
    }

    /** The `ensure` clause of `run_state!` for a step that started in `current`. */
    method EndStep(current: State)
      modifies this
      ensures Snap() == old(Snap()).(trace := old(trace) + Closing(current)) && priority == old(priority)
    {
      trace := trace + [AfterState(current)];
      if IsTerminal(current) {
        trace := trace + [AfterFinished];
      }
    }

    /** The executor runs this task's oldest pending item, if any. */
    method Step()
      modifies this
      ensures Snap() == AfterStep(handlers, old(Snap())) && priority == old(priority)
    {
      if pending == [] {
        return;
      }
      var item := pending[0];
      pending := pending[1..];
      match item
      case RunStep =>
        RunState();
      case Deferred(t) =>
        var _ := TransitionToState(t);
    }

    /** `priority`: fixed by the clock reading `now` on first use, the same value afterwards. */
    method Priority(now: int) returns (p: int)
      modifies this
      ensures p == if old(priority).Some? then old(priority).value else now
      ensures priority == Some(p) && Snap() == old(Snap())
    {
      if priority.None? {
        priority := Some(now);
      }
      p := priority.value;
    }

    /** `task <=> other`: their priorities compared, each fixed on first use. */
    method CompareTo(other: Task, nowSelf: int, nowOther: int) returns (c: int)
      modifies this, other
      ensures priority.Some? && other.priority.Some?
      ensures c == SortedArrays.Spaceship(priority.value, other.priority.value)
      ensures old(priority).Some? ==> priority == old(priority)
      ensures old(other.priority).Some? ==> other.priority == old(other.priority)
      ensures other == this ==> c == 0
      ensures Snap() == old(Snap()) && other.Snap() == old(other.Snap())
    {
      var mine := Priority(nowSelf);
      var theirs := other.Priority(nowOther);
      c := SortedArrays.Spaceship(mine, theirs);
    }
  }
}
