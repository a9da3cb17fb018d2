/**
 * The sequential helpers of Pigeon::Engine: the `options_with_defaults`
 * merge, the `task_lock`/`trigger_task` guard against overlapping runs of
 * the same task, and the per-class hook chains run by `initialize` and
 * `run`.
 *
 * Ruby blocks and the engine's own methods are modelled as scripts of
 * actions: a note appended to a trace, a raised error, or a nested
 * `trigger_task`. A block's identity (the Proc object a key can be) is the
 * `id` of its `Block`.
 */
module Engines {
  import opened Wrappers

  // ---------------------------------------------------------------------
  // options_with_defaults
  // ---------------------------------------------------------------------

  /** An option value: a path, a flag, or some other object (a logger, say). */
  datatype Setting = Path(path: string) | Flag(on: bool) | Handle(id: nat)

  type Options = map<string, Setting>

  /** The directory's name ends in a slash, as the root `/` does. */
  predicate EndsInSlash(dir: string)
  {
    |dir| > 0 && dir[|dir| - 1] == '/'
  }

  /**
   * `File.expand_path(file, dir)` for a relative file name without `.` or
   * `..` segments and an absolute, already normalised directory: the
   * directory and the file name joined by exactly one slash.
   */
  function ExpandPath(file: string, dir: string): (r: string)
    ensures |r| == |dir| + |file| + (if EndsInSlash(dir) then 0 else 1)
    ensures r[..|dir|] == dir && r[|r| - |file|..] == file
    ensures !EndsInSlash(dir) ==> r[|dir|] == '/'
  {
    if EndsInSlash(dir) then dir + file else dir + "/" + file
  }

  /**
   * `DEFAULT_OPTIONS` (engine.rb:36-38): the pid file `pigeon-engine.pid`
   * in the first usable run directory, which depends on the file system and
   * is therefore a parameter.
   */
  function DefaultOptions(pidDir: string): (r: Options)
    ensures r.Keys == {"pid_file"} && r["pid_file"] == Path(ExpandPath("pigeon-engine.pid", pidDir))
  {
    map["pid_file" := Path(ExpandPath("pigeon-engine.pid", pidDir))]
  }

  /**
   * `options_with_defaults(options)` (engine.rb:42-44): the defaults when
   * no options are given, else the defaults merged with them, the caller's
   * keys winning.
   */
  function OptionsWithDefaults(pidDir: string, options: Option<Options>): (r: Options)
    ensures options.None? ==> r == DefaultOptions(pidDir)
    ensures options.Some? ==> r.Keys == DefaultOptions(pidDir).Keys + options.value.Keys
    ensures options.Some? ==> forall k :: k in options.value ==> r[k] == options.value[k]
    ensures options.Some? ==> forall k :: k in DefaultOptions(pidDir) && k !in options.value ==>
                                           r[k] == DefaultOptions(pidDir)[k]
  {
    if options.None? then DefaultOptions(pidDir) else DefaultOptions(pidDir) + options.value
  }

  /** Merging is idempotent, and an empty map of options gives the defaults. */
  lemma DefaultsMergeIdempotent(pidDir: string, options: Option<Options>)
    ensures OptionsWithDefaults(pidDir, Some(OptionsWithDefaults(pidDir, options))) ==
            OptionsWithDefaults(pidDir, options)
    ensures OptionsWithDefaults(pidDir, Some(map[])) == OptionsWithDefaults(pidDir, None)
  {
    var once := OptionsWithDefaults(pidDir, options);
    var twice := OptionsWithDefaults(pidDir, Some(once));
    assert twice.Keys == once.Keys;
    assert OptionsWithDefaults(pidDir, Some(map[])) == DefaultOptions(pidDir);
  }

  // ---------------------------------------------------------------------
  // Scripts, lock keys and the lock table
  // ---------------------------------------------------------------------

  /** What a `task_lock` key can be: a task name, a block, or nil. */
  datatype LockKey = NameKey(name: string) | BlockKey(id: nat) | NilKey

  /** A Ruby block: its identity and what it does. */
  datatype Block = Block(id: nat, body: seq<Act>)

  /** One action of a block or method body. */
  datatype Act =
    | Note(text: string)
    | Fail(error: string)
    | Trigger(name: Option<string>, block: Option<Block>)

  /** The engine's methods `send` can call, by name. */
  type Methods = map<string, seq<Act>>

  /** The lock table `@task_lock` and the trace of notes. */
  datatype LockState = LockState(lock: map<LockKey, bool>, trace: seq<string>)

  /** The state after running some actions, and the error they raised, if any. */
  datatype Outcome = Outcome(st: LockState, raised: Option<string>)

  function ActSize(a: Act): (r: nat)
    ensures r >= 1
    decreases a
  {
    match a
    case Trigger(_, Some(b)) => 1 + BodySize(b.body)
    case _ => 1
  }

  function BodySize(s: seq<Act>): nat
    decreases s
  {
    if s == [] then 0 else ActSize(s[0]) + BodySize(s[1..])
  }

  /** The size of the work a trigger hands to its lock. */
  function WorkSize(block: Option<Block>): nat
  {
    if block.Some? then BodySize(block.value.body) else 0
  }

  /** The keys currently marked as running. */
  function Marked(lock: map<LockKey, bool>): set<LockKey>
  {
    set k | k in lock && lock[k]
  }

  /** The names of methods not currently running: a bound on how deep `send` can nest. */
  function Unmarked(m: Methods, lock: map<LockKey, bool>): set<LockKey>
  {
    (set n | n in m :: NameKey(n)) - Marked(lock)
  }

  lemma MarkedUpdate(lock: map<LockKey, bool>, k: LockKey, b: bool)
    ensures Marked(lock[k := b]) == if b then Marked(lock) + {k} else Marked(lock) - {k}
  {
  }

  lemma UnmarkedShrinks(m: Methods, a: map<LockKey, bool>, b: map<LockKey, bool>)
    requires Marked(a) <= Marked(b)
    ensures Unmarked(m, b) <= Unmarked(m, a) && |Unmarked(m, b)| <= |Unmarked(m, a)|
  {
    SubsetCard(Unmarked(m, b), Unmarked(m, a));
  }

  lemma {:induction false} SubsetCard<T>(a: set<T>, b: set<T>)
    requires a <= b
    ensures |a| <= |b|
    decreases |b|
  {
    if a != {} {
      var x :| x in a;
      SubsetCard(a - {x}, b - {x});
    }
  }

  lemma {:induction false} ProperSubsetCard<T>(a: set<T>, b: set<T>, x: T)
    requires a <= b && x in b && x !in a
    ensures |a| < |b|
  {
    SubsetCard(a, b - {x});
  }

  /** `trigger_task(name, &block)` locks on the name, or on the block when no name is given. */
  function KeyFor(name: Option<string>, block: Option<Block>): (k: LockKey)
    ensures name.Some? ==> k == NameKey(name.value)
    ensures name.None? && block.Some? ==> k == BlockKey(block.value.id)
    ensures name.None? && block.None? ==> k == NilKey
  {
    if name.Some? then NameKey(name.value) else if block.Some? then BlockKey(block.value.id) else NilKey
  }

  /** Continue with `acts` unless an error was raised. */
  function Then(m: Methods, o: Outcome, acts: seq<Act>): Outcome
  {
    if o.raised.Some? then o else Execute(m, o.st, acts)
  }

  /**
   * Running a script: notes append to the trace, an error stops it, and
   * a trigger runs under the lock. A run that raises nothing leaves the
   * same keys marked as it found; any run only ever adds marks.
   */
  function Execute(m: Methods, st: LockState, acts: seq<Act>): (r: Outcome)
    ensures Marked(st.lock) <= Marked(r.st.lock)
    ensures r.raised.None? ==> Marked(r.st.lock) == Marked(st.lock)
    ensures st.trace <= r.st.trace
    decreases |Unmarked(m, st.lock)|, BodySize(acts), 0
  {
    if acts == [] then Outcome(st, None)
    else
      match acts[0]
      case Note(text) => Execute(m, st.(trace := st.trace + [text]), acts[1..])
      case Fail(error) => Outcome(st, Some(error))
      case Trigger(name, block) =>
        assert WorkSize(block) < BodySize(acts);
        var o := AfterTrigger(m, st, name, block);
        if o.raised.Some? then o
        else
          UnmarkedShrinks(m, st.lock, o.st.lock);
          Execute(m, o.st, acts[1..])
  }

  /**
   * `trigger_task(name, &block)` (engine.rb:156-160): under the lock for
   * the name or the block, run the block if one is given, else call the
   * method with that name.
   */
  function AfterTrigger(m: Methods, st: LockState, name: Option<string>, block: Option<Block>): (r: Outcome)
    ensures Marked(st.lock) <= Marked(r.st.lock)
    ensures r.raised.None? ==> Marked(r.st.lock) == Marked(st.lock)
    ensures st.trace <= r.st.trace
    decreases |Unmarked(m, st.lock)|, WorkSize(block), 3
  {
    AfterLock(m, st, KeyFor(name, block), name, block)
  }

  /**
   * `task_lock(key) { ... }` (engine.rb:162-175): a marked key returns at
   * once and runs nothing; otherwise the key is marked, the work runs, and
   * the key is unmarked only if the work raised nothing (there is no
   * `ensure`).
   */
  function AfterLock(m: Methods, st: LockState, key: LockKey, name: Option<string>, block: Option<Block>): (r: Outcome)
    requires key == KeyFor(name, block)
    ensures key in Marked(st.lock) ==> r == Outcome(st, None)
    ensures key !in Marked(st.lock) && r.raised.Some? ==> key in Marked(r.st.lock)
    ensures key !in Marked(st.lock) && r.raised.None? ==> key in r.st.lock && !r.st.lock[key]
    ensures Marked(st.lock) <= Marked(r.st.lock)
    ensures r.raised.None? ==> Marked(r.st.lock) == Marked(st.lock)
    ensures st.trace <= r.st.trace
    decreases |Unmarked(m, st.lock)|, WorkSize(block), 2
  {
    if key in st.lock && st.lock[key] then Outcome(st, None)
    else Release(key, Work(m, st, key, name, block))
  }

  /**
   * The body of `task_lock` once the key is free: mark it, then run the
   * block if one is given, else `send(name)`, which raises TypeError for
   * no name and NoMethodError for an undefined one.
   */
  function Work(m: Methods, st: LockState, key: LockKey, name: Option<string>, block: Option<Block>): (r: Outcome)
    requires key == KeyFor(name, block) && key !in Marked(st.lock)
    ensures Marked(st.lock) + {key} <= Marked(r.st.lock)
    ensures r.raised.None? ==> Marked(r.st.lock) == Marked(st.lock) + {key}
    ensures st.trace <= r.st.trace
    decreases |Unmarked(m, st.lock)|, WorkSize(block), 1
  {
    var marked := st.(lock := st.lock[key := true]);
    MarkedUpdate(st.lock, key, true);
    UnmarkedShrinks(m, st.lock, marked.lock);
    if block.Some? then Execute(m, marked, block.value.body)
    else if name.None? then Outcome(marked, Some("TypeError"))
    else if name.value !in m then Outcome(marked, Some("NoMethodError"))
    else
      ProperSubsetCard(Unmarked(m, marked.lock), Unmarked(m, st.lock), key);
      Execute(m, marked, m[name.value])
  }

  /** The end of `task_lock`: unmark the key, unless the work raised. */
  function Release(key: LockKey, inner: Outcome): (r: Outcome)
    ensures inner.raised.Some? ==> r == inner
    ensures inner.raised.None? ==> r.raised.None? && r.st.trace == inner.st.trace &&
                                   Marked(r.st.lock) == Marked(inner.st.lock) - {key} &&
                                   key in r.st.lock && !r.st.lock[key]
  {
    if inner.raised.Some? then inner
    else
      MarkedUpdate(inner.st.lock, key, false);
      Outcome(inner.st.(lock := inner.st.lock[key := false]), None)
  }

  // ---------------------------------------------------------------------
  // Properties of the lock
  // ---------------------------------------------------------------------

  /** Running `a + b` is running `a`, then `b` unless `a` raised. */
  lemma {:induction false} ExecuteAppend(m: Methods, st: LockState, a: seq<Act>, b: seq<Act>)
    ensures Execute(m, st, a + b) == Then(m, Execute(m, st, a), b)
    decreases |a|
  {
    if a == [] {
      assert a + b == b;
    } else {
      assert (a + b)[0] == a[0];
      assert (a + b)[1..] == a[1..] + b;
      match a[0]
      case Note(text) =>
        ExecuteAppend(m, st.(trace := st.trace + [text]), a[1..], b);
      case Fail(error) =>
      case Trigger(name, block) =>
        var o := AfterTrigger(m, st, name, block);
        if o.raised.None? {
          ExecuteAppend(m, o.st, a[1..], b);
        }
    }
  }

  /**
   * A trigger while the same key is held does nothing, however deep: once
   * a run raises, its key stays marked and every later trigger of it is
   * ignored.
   */
  lemma HeldKeyIgnoresTriggers(m: Methods, st: LockState, name: Option<string>, block: Option<Block>, rest: seq<Act>)
    requires KeyFor(name, block) in Marked(st.lock)
    ensures AfterTrigger(m, st, name, block) == Outcome(st, None)
    ensures Execute(m, st, [Trigger(name, block)] + rest) == Execute(m, st, rest)
  {
    assert ([Trigger(name, block)] + rest)[1..] == rest;
  }

  /** After a run that raised, the same trigger is ignored from then on. */
  lemma RaisedRunStaysLocked(m: Methods, st: LockState, name: Option<string>, block: Option<Block>)
    requires KeyFor(name, block) !in Marked(st.lock)
    ensures var o := AfterTrigger(m, st, name, block);
      o.raised.Some? ==> AfterTrigger(m, o.st, name, block) == Outcome(o.st, None)
  {
  }

  /**
   * Distinct keys are independent: a run that raises nothing leaves every
   * other key marked exactly when it was, so whether a later trigger of
   * another key runs is not affected.
   */
  lemma DistinctKeysIndependent(m: Methods, st: LockState, name: Option<string>, block: Option<Block>, other: LockKey)
    requires other != KeyFor(name, block)
    ensures var o := AfterTrigger(m, st, name, block);
      o.raised.None? ==> (other in Marked(o.st.lock) <==> other in Marked(st.lock))
  {
  }

  // ---------------------------------------------------------------------
  // Hook chains
  // ---------------------------------------------------------------------

  /** `Pigeon::Engine::CHAINS` (engine.rb:16-22). */
  datatype ChainName = AfterInitialize | BeforeStart | AfterStart | BeforeStop | AfterStop

  /** The blocks registered on a chain, in registration order; none if the class registered none. */
  function Registered(chains: map<ChainName, seq<seq<Act>>>, c: ChainName): (r: seq<seq<Act>>)
    ensures c !in chains ==> r == []
    ensures c in chains ==> r == chains[c]
  {
    if c in chains then chains[c] else []
  }

  /** All the blocks' actions, in order. */
  function Flatten(blocks: seq<seq<Act>>): (r: seq<Act>)
    ensures blocks == [] ==> r == []
    ensures forall b, a :: b in blocks && a in b ==> a in r
    ensures forall a :: a in r ==> exists b :: b in blocks && a in b
  {
    if blocks == [] then [] else blocks[0] + Flatten(blocks[1..])
  }

  /** Flattening distributes over concatenation: registering more blocks appends their actions. */
  lemma {:induction false} FlattenAppend(a: seq<seq<Act>>, b: seq<seq<Act>>)
    ensures Flatten(a + b) == Flatten(a) + Flatten(b)
    decreases |a|
  {
    if a == [] {
      assert a + b == b;
    } else {
      assert (a + b)[0] == a[0] && (a + b)[1..] == a[1..] + b;
      FlattenAppend(a[1..], b);
    }
  }

  /** `run_chain` (engine.rb:223-231): each block in turn, stopping at the first error. */
  function AfterChain(m: Methods, st: LockState, blocks: seq<seq<Act>>): (r: Outcome)
    ensures st.trace <= r.st.trace
    decreases blocks
  {
    if blocks == [] then Outcome(st, None)
    else
      var o := Execute(m, st, blocks[0]);
      if o.raised.Some? then o else AfterChain(m, o.st, blocks[1..])
  }

  /** Running a chain is running its blocks' actions one after another, in registration order. */
  lemma {:induction false} ChainRunsInOrder(m: Methods, st: LockState, blocks: seq<seq<Act>>)
    ensures AfterChain(m, st, blocks) == Execute(m, st, Flatten(blocks))
    decreases |blocks|
  {
    if blocks != [] {
      ExecuteAppend(m, st, blocks[0], Flatten(blocks[1..]));
      var o := Execute(m, st, blocks[0]);
      if o.raised.None? {
        ChainRunsInOrder(m, o.st, blocks[1..]);
      }
    }
  }

  /** The class-level chains of one engine class: its own, not its superclass's. */
  class EngineClass {
    const methods: Methods
    var chains: map<ChainName, seq<seq<Act>>>

    constructor (methods: Methods)
      ensures this.methods == methods && chains == map[]
    {
      this.methods := methods;
      chains := map[];
    }

    /** `after_initialize { ... }` and the other chain methods (engine.rb:207-221): append the block. */
    method Define(c: ChainName, block: seq<Act>)
      modifies this
      ensures chains == old(chains)[c := Registered(old(chains), c) + [block]]
    {
      chains := chains[c := Registered(chains, c) + [block]];
    }
  }

  /** An engine instance: its options and its lock table; the trace records what its blocks did. */
  class Engine {
    const methods: Methods
    var options: Options
    var taskLock: map<LockKey, bool>
    var trace: seq<string>

    function State(): LockState
      reads this
    {
      LockState(taskLock, trace)
    }

    /** `@options = options || { }` and `@task_lock = { }` (engine.rb:113-116). */
    constructor (methods: Methods, options: Option<Options>)
      ensures this.methods == methods && taskLock == map[] && trace == []
      ensures this.options == if options.Some? then options.value else map[]
    {
      this.methods := methods;
      this.options := if options.Some? then options.value else map[];
      taskLock := map[];
      trace := [];
    }

    /** Runs a block's actions in order, stopping at the first error. */
    method Perform(acts: seq<Act>) returns (raised: Option<string>)
      modifies this
      ensures Outcome(State(), raised) == Execute(methods, old(State()), acts)
      ensures options == old(options)
      decreases |Unmarked(methods, taskLock)|, BodySize(acts), 0
    {
      var i := 0;
      while i < |acts|
        invariant 0 <= i <= |acts| && options == old(options)
        invariant Execute(methods, old(State()), acts) == Execute(methods, State(), acts[i..])
        invariant Marked(old(taskLock)) <= Marked(taskLock)
        invariant BodySize(acts[i..]) <= BodySize(acts)
      {
        assert acts[i..][0] == acts[i] && acts[i..][1..] == acts[i + 1..];
        match acts[i] {
          case Note(text) =>
            trace := trace + [text];
          case Fail(error) =>
            return Some(error);
          case Trigger(name, block) =>
            UnmarkedShrinks(methods, old(taskLock), taskLock);
            ghost var before := State();
            var r := TriggerTask(name, block);
            if r.Some? {
              return r;
            }
            assert Marked(before.lock) <= Marked(taskLock);
        }
        i := i + 1;
      }
      raised := None;
    }

    /** `trigger_task(name, &block)`. */
    method TriggerTask(name: Option<string>, block: Option<Block>) returns (raised: Option<string>)
      modifies this
      ensures Outcome(State(), raised) == AfterTrigger(methods, old(State()), name, block)
      ensures options == old(options)
      decreases |Unmarked(methods, taskLock)|, WorkSize(block), 3
    {
      raised := TaskLock(KeyFor(name, block), name, block);
    }

    /** `task_lock(key) { block_given? ? yield : send(name) }`. */
    method TaskLock(key: LockKey, name: Option<string>, block: Option<Block>) returns (raised: Option<string>)
      requires key == KeyFor(name, block)
      modifies this
      ensures Outcome(State(), raised) == AfterLock(methods, old(State()), key, name, block)
      ensures options == old(options)
      decreases |Unmarked(methods, taskLock)|, WorkSize(block), 2
    {
      if key in taskLock && taskLock[key] {
        return None;
      }
      raised := LockedWork(key, name, block);
      if raised.Some? {
        return;
      }
      MarkedUpdate(taskLock, key, false);
      taskLock := taskLock[key := false];
    }

    /** The body of `task_lock` once the key is free: mark it, then yield or `send(name)`. */
    method LockedWork(key: LockKey, name: Option<string>, block: Option<Block>) returns (raised: Option<string>)
      requires key == KeyFor(name, block) && key !in Marked(taskLock)
      modifies this
      ensures Outcome(State(), raised) == Work(methods, old(State()), key, name, block)
      ensures options == old(options)
      decreases |Unmarked(methods, taskLock)|, WorkSize(block), 1
    {
      ghost var entry := taskLock;
      taskLock := taskLock[key := true];
      MarkedUpdate(entry, key, true);
      UnmarkedShrinks(methods, entry, taskLock);
      if block.Some? {
        raised := Perform(block.value.body);
      } else if name.None? {
        raised := Some("TypeError");
      } else if name.value !in methods {
        raised := Some("NoMethodError");
      } else {
        ProperSubsetCard(Unmarked(methods, taskLock), Unmarked(methods, entry), key);
        raised := Perform(methods[name.value]);
      }
    }

    /** `run_chain(chain_name)` (engine.rb:223-231, 243-245): the class's blocks for that chain, in order. */
    method RunChain(klass: EngineClass, c: ChainName) returns (raised: Option<string>)
      requires klass.methods == methods
      modifies this
      ensures Outcome(State(), raised) == AfterChain(methods, old(State()), Registered(klass.chains, c))
      ensures options == old(options)
    {
      var blocks := Registered(klass.chains, c);
      var i := 0;
      while i < |blocks|
        invariant 0 <= i <= |blocks| && options == old(options)
        invariant AfterChain(methods, old(State()), blocks) == AfterChain(methods, State(), blocks[i..])
      {
        assert blocks[i..][0] == blocks[i] && blocks[i..][1..] == blocks[i + 1..];
        raised := Perform(blocks[i]);
        if raised.Some? {
          return;
        }
        i := i + 1;
      }
      raised := None;
    }

    /** `run` (engine.rb:127-135): `before_start`, then `after_start` unless it raised. */
    method Run(klass: EngineClass) returns (raised: Option<string>)
      requires klass.methods == methods
      modifies this
      ensures Outcome(State(), raised) == Execute(methods, old(State()),
        Flatten(Registered(klass.chains, BeforeStart)) + Flatten(Registered(klass.chains, AfterStart)))
      ensures options == old(options)
    {
      ghost var start := State();
      raised := RunChain(klass, BeforeStart);
      ChainRunsInOrder(methods, start, Registered(klass.chains, BeforeStart));
      ExecuteAppend(methods, start, Flatten(Registered(klass.chains, BeforeStart)),
                    Flatten(Registered(klass.chains, AfterStart)));
      if raised.Some? {
        return;
      }
      ghost var middle := State();
      raised := RunChain(klass, AfterStart);
      ChainRunsInOrder(methods, middle, Registered(klass.chains, AfterStart));
    }
  }

  /**
   * `Engine.new(options)` (engine.rb:113-125): the options (empty when
   * none), an empty lock table, then the class's `after_initialize` chain.
   */
  method NewEngine(klass: EngineClass, options: Option<Options>) returns (e: Engine, raised: Option<string>)
    modifies {}
    ensures fresh(e) && e.methods == klass.methods
    ensures e.options == if options.Some? then options.value else map[]
    ensures Outcome(e.State(), raised) ==
            Execute(klass.methods, LockState(map[], []), Flatten(Registered(klass.chains, AfterInitialize)))
  {
    e := new Engine(klass.methods, options);
    raised := e.RunChain(klass, AfterInitialize);
    ChainRunsInOrder(klass.methods, LockState(map[], []), Registered(klass.chains, AfterInitialize));
  }
}

module EngineScenarios {
  import opened Wrappers
  import opened Engines

  /**
   * An engine class registering one block on each chain that notes the
   * chain's name: creating and running an instance notes
   * `after_initialize`, `before_start` and `after_start`, in that order.
   */
  method CallbackOrder() returns (trace: seq<string>)
    ensures trace == ["after_initialize", "before_start", "after_start"]
  {
    var klass := new EngineClass(map[]);
    klass.Define(AfterInitialize, [Note("after_initialize")]);
    klass.Define(BeforeStart, [Note("before_start")]);
    klass.Define(AfterStart, [Note("after_start")]);
    klass.Define(BeforeStop, [Note("before_stop")]);
    klass.Define(AfterStop, [Note("after_stop")]);
    assert Registered(klass.chains, AfterInitialize) == [[Note("after_initialize")]];
    assert Registered(klass.chains, BeforeStart) == [[Note("before_start")]];
    assert Registered(klass.chains, AfterStart) == [[Note("after_start")]];
    ghost var m := klass.methods;
    ghost var initialized := LockState(map[], ["after_initialize"]);
    ghost var started := LockState(map[], ["after_initialize", "before_start", "after_start"]);
    assert Flatten([[Note("after_initialize")]]) == [Note("after_initialize")];
    assert Execute(m, LockState(map[], []), [Note("after_initialize")]) == Outcome(initialized, None);
    var e, r := NewEngine(klass, None);
    assert e.State() == initialized;
    assert Flatten([[Note("before_start")]]) + Flatten([[Note("after_start")]]) ==
           [Note("before_start"), Note("after_start")];
    assert Execute(m, LockState(map[], ["after_initialize", "before_start"]), [Note("after_start")]) ==
           Outcome(started, None);
    assert Execute(m, initialized, [Note("before_start"), Note("after_start")]) == Outcome(started, None);
    r := e.Run(klass);
    trace := e.trace;
  }

  /** A `tick` method that notes, triggers `tick` again, then notes. */
  function TickMethods(): Methods
  {
    map["tick" := [Note("tick"), Trigger(Some("tick"), None), Note("tock")]]
  }

  lemma TickRun(m: Methods, st: LockState)
    requires m == TickMethods() && st == LockState(map[], [])
    ensures AfterTrigger(m, st, Some("tick"), None) ==
            Outcome(LockState(map[NameKey("tick") := false], ["tick", "tock"]), None)
  {
    var key := NameKey("tick");
    var body := m["tick"];
    var marked := LockState(map[key := true], []);
    assert key in Marked(marked.lock);
    var s1 := LockState(map[key := true], ["tick"]);
    var s2 := LockState(map[key := true], ["tick", "tock"]);
    assert body[1..] == [Trigger(Some("tick"), None), Note("tock")];
    assert body[1..][1..] == [Note("tock")];
    assert AfterTrigger(m, s1, Some("tick"), None) == Outcome(s1, None);
    assert Execute(m, s2, []) == Outcome(s2, None);
    assert Execute(m, s1, [Note("tock")]) == Outcome(s2, None);
    assert Execute(m, s1, body[1..]) == Outcome(s2, None);
    assert body[0] == Note("tick") && marked.(trace := marked.trace + ["tick"]) == s1;
    assert Execute(m, marked, body) == Outcome(s2, None);
    assert Work(m, st, key, Some("tick"), None) == Outcome(s2, None);
  }

  /**
   * A task method that triggers itself: the nested trigger is ignored
   * while the outer run holds the name, and the name is free again after.
   */
  method ReentrantTriggerIgnored() returns (trace: seq<string>, raised: Option<string>, held: bool)
    ensures trace == ["tick", "tock"] && raised == None && !held
  {
    var e := new Engine(TickMethods(), None);
    TickRun(e.methods, e.State());
    raised := e.TriggerTask(Some("tick"), None);
    trace := e.trace;
    held := NameKey("tick") in Marked(e.taskLock);
  }

  /** A `flaky` method that notes, then raises. */
  function FlakyMethods(): Methods
  {
    map["flaky" := [Note("try"), Fail("RuntimeError")]]
  }

  lemma FlakyRuns(m: Methods, st: LockState)
    requires m == FlakyMethods() && st == LockState(map[], [])
    ensures AfterTrigger(m, st, Some("flaky"), None) ==
            Outcome(LockState(map[NameKey("flaky") := true], ["try"]), Some("RuntimeError"))
  {
    var key := NameKey("flaky");
    var body := m["flaky"];
    var marked := LockState(map[key := true], []);
    var s1 := LockState(map[key := true], ["try"]);
    assert body[1..] == [Fail("RuntimeError")];
    assert Execute(m, s1, body[1..]) == Outcome(s1, Some("RuntimeError"));
    assert Execute(m, marked, body) == Outcome(s1, Some("RuntimeError"));
    assert Work(m, st, key, Some("flaky"), None) == Outcome(s1, Some("RuntimeError"));
  }

  /**
   * A task method that raises leaves its name marked: the next trigger
   * of the same name runs nothing.
   */
  method FailedTaskStaysLocked() returns (first: Option<string>, second: Option<string>, trace: seq<string>)
    ensures first == Some("RuntimeError") && second == None && trace == ["try"]
  {
    var e := new Engine(FlakyMethods(), None);
    FlakyRuns(e.methods, e.State());
    first := e.TriggerTask(Some("flaky"), None);
    assert NameKey("flaky") in Marked(e.taskLock);
    second := e.TriggerTask(Some("flaky"), None);
    trace := e.trace;
  }
}
