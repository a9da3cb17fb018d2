# Pigeon core, modelled in Dafny

This project models the sequential core of Pigeon, a Ruby library for
running task engines. Five pieces are modelled:

- `Pigeon::SortedArray` is an array that keeps itself ordered. Its
  comparator is chosen by the arity of the block given to `new`. `<<`
  inserts by binary search. `+` concatenates and re-sorts.
- `Pigeon::Queue` is a backlog of tasks kept sorted by a key. It holds
  named filter predicates and, per filter, a cached "next task".
- `Pigeon::Task` is a step-driven state machine. It has hooks, a run
  callback, error routing to `:failed`, and a priority fixed on first use.
- `Pigeon::OptionAccessor` gives options declared on a class. They are
  read and written on the class, its subclasses and their instances.
  Only nil falls through to the next level.
- A slice of `Pigeon::Engine`:
  - the `options_with_defaults` merge;
  - the `task_lock`/`trigger_task` guard against overlapping runs of the
    same task;
  - the per-class hook chains run by `initialize` and `run`.

Files:

- `wrappers.dfy`: `Option` and `Result`.
- `sorted_array.dfy` (module `SortedArrays`): the comparator selection.
  `<<` is a method with the search loop, proved against the function
  `Probe`; `+` is a function.
- `queue.dfy` (module `TaskQueue`): a class `Queue` whose fields are the
  backlog, the filters, the cache and the sort key. Its methods are proved
  against functions on sequences and maps. They keep the invariant that
  every cached task is in the backlog and satisfies its filter.
- `task.dfy` (module `Tasks`): a class `Task` holding the task's fields,
  an executor queue of pending work and a trace of hook and callback
  calls. Each method except Priority and CompareTo, which take a clock
  reading, is proved equal to a function on a `Snapshot` of
  those fields, and the lemmas about the unit tests' tasks are stated on
  those functions.
- `option_accessor.dfy` (module `Options`): an `ObjectSpace` class holding
  the classes and instances. It has the declaration methods
  (`option_reader`, `option_writer`, `option_accessor`) and the writers.
  The readers are pure functions that walk instance, then class, then
  superclass.
- `engine.dfy` (modules `Engines` and `EngineScenarios`): the
  options merge; the lock table and chains as fields of `Engine` and
  `EngineClass`; their methods proved against functions that run scripts.

Ruby blocks and methods become data:

- A sort block is a `SortBlock` told apart by its arity.
- A queue filter is a function on tasks.
- A state handler is a list of `Action`s: transition, dispatch or raise.
- An engine block or method is a list of `Act`s: note, fail, or a nested
  `trigger_task`.

## Model

| member | source | states |
|---|---|---|
| SortedArrays.Spaceship | lib/pigeon/sorted_array.rb:16 | The default comparison is negative exactly when a < b, positive exactly when a > b, and lies in -1..1 |
| SortedArrays.SelectComparator | lib/pigeon/sorted_array.rb:15-27 | It fails exactly for a block of another arity. No block gives `<=>`, a 2-argument block is used as is, and a 1-argument block gives `key(a) <=> key(b)` |
| SortedArrays.DerivedComparatorIsPreorder | lib/pigeon/sorted_array.rb:16-23 | The comparators the constructor builds itself (default, or from a key) flip sign on swap and are transitive |
| SortedArrays.SortedArray.New | lib/pigeon/sorted_array.rb:15-27 | `new` raises SortArgumentRequired exactly for a block of another arity; otherwise the array is empty with the selected comparator |
| SortedArrays.Probe | lib/pigeon/sorted_array.rb:32-47 | The search keeps low <= result <= high and terminates. When it stops on a tie, the equal element lies at or after `low` and before `high` |
| SortedArrays.ProbeSeparates | lib/pigeon/sorted_array.rb:32-47 | On a sorted array, everything left of the final `low` is strictly below the object. Without a tie, everything from `low` on is strictly above it |
| SortedArrays.AboveFrom | lib/pigeon/sorted_array.rb:40-41 | In a sorted array, when the object is below a probe, it is below everything from that probe on |
| SortedArrays.BelowThrough | lib/pigeon/sorted_array.rb:42-43 | In a sorted array, when the object is above a probe, it is above everything up to that probe |
| SortedArrays.InsertAt | lib/pigeon/sorted_array.rb:49 | `insert(i, x)` grows the array by one, puts x at i, and adds x to the multiset; the queue's backlog insertion (lib/pigeon/queue.rb:66) uses the same function |
| SortedArrays.InsertBetweenSorted | lib/pigeon/sorted_array.rb:49 | Inserting between a prefix not above x and a suffix not below x keeps a sorted array sorted |
| SortedArrays.SearchIndexSortedWithoutTies | lib/pigeon/sorted_array.rb:31-50 | On a sorted array with no element tying with x, the search never breaks and the insertion keeps the array sorted |
| SortedArrays.SortedArray.Push | lib/pigeon/sorted_array.rb:31-50 | `<<` as written: the array becomes the old one with x inserted at the search's `low`. It grows by one, adds x to the multiset, and stays sorted when nothing ties with x |
| SortedArrays.TieInsertsOutOfOrder | lib/pigeon/sorted_array.rb:44-49 | Pushing 2 into [1, 2] stops on the tie with low = 0 and gives the unsorted [2, 1, 2] |
| SortedArrays.CorrectedIndexSorted | lib/pigeon/sorted_array.rb:44-49 | Inserting at the equal element's index keeps any sorted array sorted, ties included |
| SortedArrays.SortedArray.PushCorrected | lib/pigeon/sorted_array.rb:31-50 | The corrected `<<` adds x to the multiset and keeps a sorted array sorted, ties included |
| SortedArrays.InsertSorted | lib/pigeon/sorted_array.rb:54 | One insertion step of the sort adds x to the multiset and grows the sequence by one |
| SortedArrays.SortSeq | lib/pigeon/sorted_array.rb:54 | The sort is a permutation of its input |
| SortedArrays.InsertSortedBound | lib/pigeon/sorted_array.rb:54 | A lower bound of x and of every element bounds every element after the insertion |
| SortedArrays.PrependSorted | lib/pigeon/sorted_array.rb:54 | A lower bound of a sorted sequence can be put in front of it |
| SortedArrays.InsertSortedKeepsSorted | lib/pigeon/sorted_array.rb:54 | An insertion step keeps a sorted sequence sorted |
| SortedArrays.SortSeqSorted | lib/pigeon/sorted_array.rb:54 | Under a lawful comparator the sort's result is sorted |
| SortedArrays.SortedArray.Plus | lib/pigeon/sorted_array.rb:53-55 | `+` gives a permutation of the concatenation, sorted under a lawful comparator; empty `+` empty is empty |
| SortedArrays.SortTwoReversed | test/unit/pigeon_sorted_array_test.rb:21-29 | [1, 0] sorts to [0, 1] |
| SortedArrays.InsertTwoAboveSorted | lib/pigeon/sorted_array.rb:54 | One step of the re-sort in `+`: inserting 2 into [0, 1] gives [0, 1, 2] |
| SortedArrays.ProbeAboveAll | lib/pigeon/sorted_array.rb:32-47 | When the new element is above every element of the window, the binary search ends at the window's top with no tie, so `<<` appends |
| SortedArrays.NextNaturalGoesLast | lib/pigeon/sorted_array.rb:32-49 | `<<` of n onto [0, ..., n - 1] under the spaceship comparator searches past the end and appends n |
| SortedArrays.InsertionInOrder | test/unit/pigeon_sorted_array_test.rb:31-39 | Pushing 0 to 9 with `<<` onto a new array with the spaceship comparator gives exactly [0, 1, ..., 9] |
| SortedArrays.PlusSortsReversed | test/unit/pigeon_sorted_array_test.rb:21-29 | Empty `+` a reversed run [2, 1, 0] comes out ascending |
| TaskQueue.AcceptAll | lib/pigeon/queue.rb:17-19 | The filter of the `nil` name accepts every task |
| TaskQueue.ClassFilters | lib/pigeon/queue.rb:16-24 | The registry holds nil plus every declared name. nil accepts everything unless redeclared, and the last declaration of a name wins |
| TaskQueue.Queue.constructor | lib/pigeon/queue.rb:28-35 | A new queue has an empty backlog, an empty cache, the registry's filters and the priority key, and satisfies the cache invariant |
| TaskQueue.Find | lib/pigeon/queue.rb:49 | `find` gives nil exactly when nothing matches; otherwise a matching task with no match before it |
| TaskQueue.Count | lib/pigeon/queue.rb:143 | `count` is at most the length, zero exactly when nothing matches, and the length when everything matches |
| TaskQueue.InsertionPoint | lib/pigeon/queue.rb:61-64 | The index is the first task whose key is strictly greater, or the end |
| TaskQueue.InsertionPointSplits | lib/pigeon/queue.rb:61-66 | On a sorted backlog, exactly the tasks with key <= k come before the insertion point, so equal keys keep arrival order |
| TaskQueue.InsertKeepsSorted | lib/pigeon/queue.rb:59-76 | `<<` keeps the backlog sorted by the sort key |
| TaskQueue.CacheAfterPush | lib/pigeon/queue.rb:68-72 | Only existing nil entries whose filter accepts the task change, and they become the task; every other entry is unchanged |
| TaskQueue.PushKeepsCacheSound | lib/pigeon/queue.rb:68-72 | Once the task is in the backlog, caching it for the filters it passes keeps every cached task in the backlog and passing its filter |
| TaskQueue.MixedCacheSound | lib/pigeon/queue.rb:68-72 | A cache walk stopped part way, each entry old or new, is still sound |
| TaskQueue.Queue.Fill | lib/pigeon/queue.rb:68-72 | The cache walk raises NoMethodError exactly when a nil entry has no filter; otherwise the cache becomes CacheAfterPush, keeping the invariant |
| TaskQueue.Queue.Push | lib/pigeon/queue.rb:59-76 | `<<` inserts at the insertion point, keeps the backlog sorted and the cache sound, and returns the task. It raises only on a nil entry without a filter, which cannot happen while every cache key is registered |
| TaskQueue.RemoveAll | lib/pigeon/queue.rb:116 | `delete` removes every copy of the task, keeps the count of every other task, and shrinks the backlog when the task was there |
| TaskQueue.RemoveAllKeepsSorted | lib/pigeon/queue.rb:116 | Deleting a task keeps the backlog sorted |
| TaskQueue.RemoveAllOnce | lib/pigeon/queue.rb:116 | Deleting a task that occurs once leaves the others in order |
| TaskQueue.RemoveAllAbsent | lib/pigeon/queue.rb:116 | Deleting a task that is absent changes nothing |
| TaskQueue.PopKeepsCacheSound | lib/pigeon/queue.rb:114-124 | Clearing the entries that hold the task keeps the cache sound for the backlog without it |
| TaskQueue.CacheAfterPop | lib/pigeon/queue.rb:118-122 | After a pop no entry holds the popped task; every other entry is unchanged |
| TaskQueue.SortByKey | lib/pigeon/queue.rb:37-44 | `sort_by` gives a permutation of the backlog |
| TaskQueue.SortByKeySorted | lib/pigeon/queue.rb:37-44 | `sort_by` gives a backlog sorted by the new key |
| TaskQueue.Queue.SortBy | lib/pigeon/queue.rb:37-44 | `sort_by` re-sorts the backlog as a permutation, stores the key and empties the cache, keeping the invariant |
| TaskQueue.Queue.Filter | lib/pigeon/queue.rb:46-51 | `filter` registers the predicate and caches its first match (or nil) under the name; nothing else changes |
| TaskQueue.Queue.Peeked | lib/pigeon/queue.rb:88-102 | `peek(name)` answers a registered filter's match that is in the backlog; nil exactly when the filter is unknown or matches nothing |
| TaskQueue.Memoized | lib/pigeon/queue.rb:94-99 | The corrected memo adds only a registered name and leaves every other entry unchanged |
| TaskQueue.MemoizedAsWritten | lib/pigeon/queue.rb:94-99 | The `||=` memo adds exactly the peeked name, keeps a non-nil entry, and leaves every other entry unchanged |
| TaskQueue.MemoizedAgreeWhenRegistered | lib/pigeon/queue.rb:94-99 | The two memos agree for a registered name; for an unknown one the corrected memo changes nothing, while `||=` leaves an entry that is nil exactly when none was cached |
| TaskQueue.Queue.PeekAsWritten | lib/pigeon/queue.rb:88-101 | `peek` as written: it answers what Peeked says and memoizes, storing nil under an unknown name |
| TaskQueue.Queue.Peek | lib/pigeon/queue.rb:88-101 | The corrected `peek` answers what Peeked says and memoizes only registered names, so every cache key stays registered |
| TaskQueue.Queue.PeekWith | lib/pigeon/queue.rb:89-92 | `peek` with a block answers a matching task in the backlog, or nil exactly when none matches, and changes nothing |
| TaskQueue.Queue.Remove | lib/pigeon/queue.rb:114-124 | The removal deletes the task from the backlog and clears the cache entries holding it, keeping the invariant |
| TaskQueue.Queue.Pop | lib/pigeon/queue.rb:104-127 | `pop(name)` as written answers what peek answers and memoizes as `peek` as written does. A popped task matched the filter, is gone from a shorter backlog and from every cache entry. nil leaves the backlog unchanged. An unknown name leaves a nil entry that poisons the cache |
| TaskQueue.Queue.PopCorrected | lib/pigeon/queue.rb:104-127 | `pop(name)` over the corrected `peek`: the same answer and removal, and every cache key stays registered |
| TaskQueue.Queue.PopWith | lib/pigeon/queue.rb:104-127 | `pop` with a block removes and answers the first match, or changes nothing when none matches |
| TaskQueue.Queue.IsEmpty | lib/pigeon/queue.rb:129-137 | `empty?(name)` as written is true exactly when the filter is unknown or matches no task; the backlog is unchanged, the cache is memoized as `peek` as written does, and an unknown name poisons it |
| TaskQueue.Queue.IsEmptyCorrected | lib/pigeon/queue.rb:129-137 | `empty?(name)` over the corrected `peek`: the same answer, and every cache key stays registered |
| TaskQueue.Queue.IsEmptyWith | lib/pigeon/queue.rb:129-133 | `empty?` with a block is true exactly when no task matches |
| TaskQueue.Queue.Length | lib/pigeon/queue.rb:139-145 | `length(name)` is nil exactly for an unknown filter; otherwise it counts matches, at most the backlog's length, zero exactly when none match |
| TaskQueue.UnknownPeekBreaksPush | lib/pigeon/queue.rb:68-72 | With `peek` as written, peeking an unknown name and then pushing raises NoMethodError |
| TaskQueue.UnknownPeekThenPush | lib/pigeon/queue.rb:88-101 | With the corrected `peek`, the same sequence pushes the task |
| TaskQueue.UnknownPopBreaksPush | lib/pigeon/queue.rb:104-113 | With `pop` as written, popping an unknown name answers nil and the next push raises NoMethodError |
| TaskQueue.UnknownPopThenPush | lib/pigeon/queue.rb:104-113 | With the corrected `pop`, the same sequence pushes the task |
| TaskQueue.UnknownEmptyBreaksPush | lib/pigeon/queue.rb:129-137 | With `empty?` as written, asking about an unknown name answers true and the next push raises NoMethodError |
| TaskQueue.UnknownEmptyThenPush | lib/pigeon/queue.rb:129-137 | With the corrected `empty?`, the same sequence pushes the task |
| TaskQueue.EmptyQueue | test/unit/pigeon_queue_test.rb:17-23 | A new queue has length 0, is empty, and pops nil |
| TaskQueue.ThreeTagged | lib/pigeon/queue.rb:59-76 | Pushing tasks 0, 1, 2 in creation order gives the backlog [0, 1, 2] |
| TaskQueue.PushTagged | lib/pigeon/queue.rb:59-76 | A task whose key is at least every queued key goes to the end of the backlog; an empty cache stays empty |
| TaskQueue.FilterAndPeek | test/unit/pigeon_queue_test.rb:75-79 | A three-task analogue of the test's named filter: registering "tag above 0" on [0, 1, 2] caches task 1, and peek answers it |
| TaskQueue.PopTwice | test/unit/pigeon_queue_test.rb:82-93 | A three-task analogue of the test's two pops: they take 1 then 2, leaving [0] |
| TaskQueue.FindPastMisses | lib/pigeon/queue.rb:49 | `find` skips a prefix in which nothing matches |
| TaskQueue.CountPastMisses | lib/pigeon/queue.rb:143 | `count` ignores a prefix in which nothing matches |
| TaskQueue.MemoStoresEntry | lib/pigeon/queue.rb:94-99 | `@next_task[name] ||= ...` keeps a cached task and otherwise stores the lookup, leaving other names alone |
| TaskQueue.PopClearsEntry | lib/pigeon/queue.rb:118-122 | After a pop, the cache entry that named the popped task becomes nil and the others stay |
| TaskQueue.PushFillsEntry | lib/pigeon/queue.rb:68-72 | A push fills the nil cache entry of a filter that accepts the task and keeps an entry that already holds a task |
| TaskQueue.TenTagged | test/unit/pigeon_queue_test.rb:55-65 | Pushing tasks 0 to 9 in creation order gives the backlog [0, ..., 9] |
| TaskQueue.PeekUnfiltered | test/unit/pigeon_queue_test.rb:61-67 | The queue holds ten tasks and the unfiltered peek answers task 0 |
| TaskQueue.PeekAboveZero | test/unit/pigeon_queue_test.rb:69-73 | `peek` with the block "tag above 0" answers task 1 |
| TaskQueue.FilterOver7 | test/unit/pigeon_queue_test.rb:75-77 | Registering `over_7` caches task 8 |
| TaskQueue.AskAfterFilter | test/unit/pigeon_queue_test.rb:79-80 | `peek(:over_7)` answers task 8 and `length(:over_7)` is 2 |
| TaskQueue.RemoveEighth | lib/pigeon/queue.rb:116 | Deleting task 8 from tasks 0 to 9 leaves 0 to 7 and 9 |
| TaskQueue.RemoveNinth | lib/pigeon/queue.rb:116 | Deleting task 9 from that backlog leaves 0 to 7 |
| TaskQueue.PopEighth | test/unit/pigeon_queue_test.rb:82 | `pop(:over_7)` takes task 8 and clears its cache entry |
| TaskQueue.AskAfterEighth | test/unit/pigeon_queue_test.rb:84-87 | The backlog then has 9 tasks; `peek(:over_7)` answers task 9 and `length(:over_7)` is 1 |
| TaskQueue.PopNinth | test/unit/pigeon_queue_test.rb:89 | The second `pop(:over_7)` takes task 9 |
| TaskQueue.AskAfterNinth | test/unit/pigeon_queue_test.rb:91-93 | `peek(:over_7)` is nil, `length(:over_7)` is 0 and `empty?(:over_7)` is true |
| TaskQueue.PushTenth | test/unit/pigeon_queue_test.rb:95 | Pushing task 10 succeeds and fills the `over_7` entry |
| TaskQueue.AskAfterTenth | test/unit/pigeon_queue_test.rb:101-103 | `peek(:over_7)` answers task 10, `length(:over_7)` is 1 and `empty?(:over_7)` is false |
| TaskQueue.FilteringScenario | test/unit/pigeon_queue_test.rb:53-103 | The filtering test on ten tasks: the lengths are 10, 2, 9, 1, 0, 1; the peeks are tasks 0, 1, 8, 9, then nil, then 10; the pops take 8 then 9; `empty?(:over_7)` is true then false; and task 10 is pushed |
| Tasks.InitialState | lib/pigeon/task.rb:13-15 | The initial state is a real state (not nil) and not a terminal one |
| Tasks.Task.constructor | lib/pigeon/task.rb:25-29 | A new task has the given handlers, is in the Created snapshot and has no priority yet |
| Tasks.Task.IsFinished | lib/pigeon/task.rb:42-44 | `finished?` holds exactly in `:finished`, which is terminal and excludes `failed?` |
| Tasks.Task.IsFailed | lib/pigeon/task.rb:47-49 | `failed?` holds exactly in `:failed`, which is terminal |
| Tasks.Task.HasException | lib/pigeon/task.rb:52-54 | `exception?` holds exactly when an exception is recorded |
| Tasks.Created | lib/pigeon/task.rb:25-29 | A new task has no state, no exception, no callback, no pending work, and has called `after_initialized` |
| Tasks.Transition | lib/pigeon/task.rb:123-131 | `transition_to_state` sets the state now and schedules exactly one step; nothing else changes |
| Tasks.Task.TransitionToState | lib/pigeon/task.rb:123-131 | The method does exactly Transition and returns the target |
| Tasks.Perform | lib/pigeon/task.rb:94-103 | A handler's statements never touch the exception, the run callback or the trace |
| Tasks.PerformOutcome | lib/pigeon/task.rb:94-103 | A handler's statements raise nothing exactly when none is a raise, and otherwise the first raise is answered |
| Tasks.PerformKeeps | lib/pigeon/task.rb:94-103 | A handler only adds pending work, and a changed state is a target the handler transitioned to |
| Tasks.Task.PerformHandler | lib/pigeon/task.rb:94-103 | The loop over a handler's statements does exactly what Perform says |
| Tasks.Task.Dispatch | lib/pigeon/task.rb:62-64 | `dispatch` queues the block on the executor and changes nothing else |
| Tasks.Rescue | lib/pigeon/task.rb:105-112 | The rescue records the exception and calls `handle_exception` then `after_failed`. It ends failed, scheduling a step unless already failed |
| Tasks.HandlerFor | lib/pigeon/task.rb:94-103 | A terminal state, or a state with no handler, runs nothing; otherwise the state's handler runs |
| Tasks.AfterRunState | lib/pigeon/task.rb:78-119 | A step keeps the run callback as it was |
| Tasks.StepBrackets | lib/pigeon/task.rb:78-119 | A step extends the trace with `before_state(s)` first and ends with `after_finished` if s is terminal, else `after_state(s)`. Pending work only grows |
| Tasks.Task.RunState | lib/pigeon/task.rb:78-119 | The method does exactly AfterRunState |
| Tasks.Task.BeginStep | lib/pigeon/task.rb:81-92 | The start of a step calls `before_state` with the current state, then the callback when one is set; nothing else changes |
| Tasks.Task.RescueFrom | lib/pigeon/task.rb:105-112 | The rescue does exactly Rescue |
| Tasks.Task.EndStep | lib/pigeon/task.rb:113-118 | The `ensure` clause calls `after_state` with the state the step began in, then `after_finished` if that state was terminal |
| Tasks.AfterRun | lib/pigeon/task.rb:33-39 | `run!` keeps a callback the task had and sets one when given |
| Tasks.RunEntersInitialState | lib/pigeon/task.rb:33-39 | Whatever the task's state was, the first event of the step `run!` runs is `before_state(:initialized)` |
| Tasks.Task.Run | lib/pigeon/task.rb:33-39 | The method does exactly AfterRun |
| Tasks.AfterStep | lib/pigeon/task.rb:126-128 | With an idle executor, a step changes nothing |
| Tasks.Task.Step | lib/pigeon/task.rb:126-128 | The executor runs the oldest pending item, as AfterStep says |
| Tasks.Drain | lib/pigeon/task.rb:126-128 | Draining with no fuel or an idle executor changes nothing |
| Tasks.TerminalIsFinishedOrFailed | lib/pigeon/task.rb:19-21 | A state is terminal exactly when it is `:finished` or `:failed`; nil, the initial state and other symbols are not |
| Tasks.Task.InTerminalState | lib/pigeon/task.rb:57-59 | `terminal_state?` holds exactly when `finished?` or `failed?` holds |
| Tasks.StepEvents | lib/pigeon/task.rb:78-119 | A step adds `before_state`, the callback, the handler's events, then `after_state`; `after_finished` appears exactly when s is terminal |
| Tasks.TerminalStepRunsNoHandler | lib/pigeon/task.rb:94-95 | A step in a terminal state only calls the hooks and the callback |
| Tasks.MissingHandlerIsNoOp | lib/pigeon/task.rb:96-103 | A non-terminal state without a handler only calls the hooks and the callback |
| Tasks.TransitionSchedulesOneStep | lib/pigeon/task.rb:79 | A handler that transitions leaves the target state and exactly one more step queued, which reads the state when it runs |
| Tasks.RaiseFailsTheTask | lib/pigeon/task.rb:105-112 | A raising handler ends the step failed, with the exception recorded and `handle_exception` and `after_failed` each called once |
| Tasks.NoRaiseKeepsException | lib/pigeon/task.rb:105-112 | A step that raises nothing leaves `@exception` unchanged |
| Tasks.NoRaiseTrace | lib/pigeon/task.rb:78-119 | Without a raise, a step adds only its opening and closing calls |
| Tasks.CallbacksDistribute | test/unit/pigeon_task_test.rb:67-108 | The callback states of a concatenated trace are the concatenation of each part's |
| Tasks.TriggersDistribute | test/unit/pigeon_task_test.rb:67-108 | The hook calls of a concatenated trace are the concatenation of each part's |
| Tasks.ProjectionsDistribute | test/unit/pigeon_task_test.rb:67-108 | Both projections at once: callback states and hook calls come part by part |
| Tasks.TerminalStep | lib/pigeon/task.rb:93-118 | A step in a terminal state keeps the state, the pending work and the exception. It calls the callback once (if set), `before_state` once and `after_finished` once |
| Tasks.StepProjections | lib/pigeon/task.rb:78-119 | A step without a raise calls the callback once with its state (if set) and `before_state` once, and `after_finished` exactly when terminal |
| Tasks.BaseTaskFinishes | test/unit/pigeon_task_test.rb:129-145 | The base task finishes without an exception, and its callback sees `:initialized` then `:finished` |
| Tasks.ExampleFirstSteps | test/unit/pigeon_task_test.rb:67-108 | The example task's first two steps reach `state2` |
| Tasks.ExampleDispatchStep | test/unit/pigeon_task_test.rb:67-108 | The `state2` step reaches `state3` and queues the dispatched transition after the scheduled step |
| Tasks.ExampleDeferredStep | test/unit/pigeon_task_test.rb:67-108 | The `state3` step is a no-op; the dispatched transition then reaches `state4` |
| Tasks.ExampleFinalSteps | test/unit/pigeon_task_test.rb:67-108 | `state4` finishes, and the `finished` step calls `after_finished` and leaves the executor idle |
| Tasks.ExampleRun | test/unit/pigeon_task_test.rb:67-108 | A task with the example handlers finishes after `run!` plus six executor items, with the expected hooks and callback states |
| Tasks.ExampleTaskTriggers | test/unit/pigeon_task_test.rb:67-108 | The example task's hook calls and callback states are exactly the test's lists |
| Tasks.FailingTaskFails | test/unit/pigeon_task_test.rb:111-127 | The failing task ends failed with its exception, and its trace is given event by event |
| Tasks.Task.Priority | lib/pigeon/task.rb:68-70 | `priority` is fixed by the first reading and the same afterwards |
| Tasks.Task.CompareTo | lib/pigeon/task.rb:73-75 | `<=>` compares the two fixed priorities; a task compares equal to itself |
| Tasks.SameFirst | test/unit/pigeon_task_test.rb:147-160 | A sorted arrangement of tasks with increasing priorities starts with the first created |
| Tasks.CreationOrderIsSortOrder | test/unit/pigeon_task_test.rb:147-160 | Tasks given increasing priorities in creation order sort back into creation order |
| Options.Get | lib/pigeon/option_accessor.rb:38 | An unset instance variable reads nil |
| Options.ClassValue | lib/pigeon/option_accessor.rb:37-41 | The class reader answers the class's own value when it is non-nil. A non-nil answer otherwise comes through a superclass that has the reader |
| Options.InstanceValue | lib/pigeon/option_accessor.rb:44-48 | The instance reader answers the instance's own value when it is non-nil, else the class reader's answer |
| Options.Coerce | lib/pigeon/option_accessor.rb:75-78 | A boolean writer stores nil exactly for nil, else the boolean truthiness, which keeps truthiness |
| Options.WriterFlag | lib/pigeon/option_accessor.rb:67-96 | The writer found is the class's own declaration, else an inherited one, else none |
| Options.ReadClass | lib/pigeon/option_accessor.rb:37-41 | `C.name` raises NoMethodError exactly when no reader is declared up the chain, else answers the class value |
| Options.QueryClass | lib/pigeon/option_accessor.rb:29-35 | `C.name?` exists exactly with a boolean reader up the chain and answers the truthiness of the class value |
| Options.ReadInstance | lib/pigeon/option_accessor.rb:44-48 | `obj.name` raises NoMethodError exactly when the class has no reader, else answers the instance value |
| Options.QueryInstance | lib/pigeon/option_accessor.rb:50-56 | `obj.name?` exists exactly with a boolean reader and answers the truthiness of the instance value |
| Options.SetClassIvar | lib/pigeon/option_accessor.rb:80-82 | A class write changes only that class's variable for that name |
| Options.OwnValueWins | lib/pigeon/option_accessor.rb:40-47 | Only nil falls through: an own value, `false` included, is answered by the instance and class readers |
| Options.ClassValueComesFromAncestor | lib/pigeon/option_accessor.rb:37-41 | A non-nil class answer is held by the class itself or one of its ancestors |
| Options.WriteStaysBelow | lib/pigeon/option_accessor.rb:80-82 | A class write never changes what a non-descendant reads, nor any other option |
| Options.RespondsUnchanged | lib/pigeon/option_accessor.rb:40 | Writes never change which classes respond to a reader |
| Options.NilRestoresInheritance | lib/pigeon/option_accessor.rb:40 | Setting a subclass's value back to nil makes it answer whatever its superclass answers |
| Options.AncestorIsNotBelow | lib/pigeon/option_accessor.rb:40 | A class is never an ancestor of a class declared before it |
| Options.QueryKept | lib/pigeon/option_accessor.rb:29-35 | After a reader declaration `name?` exists when the declaration is boolean or an earlier one defined it, and only for a name that has a reader |
| Options.DeclareReaders | lib/pigeon/option_accessor.rb:21-60 | `option_reader` gives each name a reader and sets the class's value to the default; `name?` is defined after it exactly when this declaration is boolean or an earlier one defined it; other names are untouched |
| Options.DeclaringKeepsReaders | lib/pigeon/option_accessor.rb:21-60 | A reader declaration on any class never takes away a `name` or `name?` reader from any class |
| Options.RedeclaredPlainKeepsQuery | lib/pigeon/option_accessor.rb:29-56 | A boolean option declared again as plain still answers `flag?` on the class and on an instance |
| Options.DeclareWriters | lib/pigeon/option_accessor.rb:67-96 | `option_writer` gives each name a writer with the boolean flag; readers, values and other names are untouched |
| Options.DeclareAccessors | lib/pigeon/option_accessor.rb:8-11 | `option_accessor` gives each name a reader, keeping an earlier `name?`, and a writer with the flag, and sets the default value; other names are untouched |
| Options.ObjectSpace.DefineClass | lib/pigeon/option_accessor.rb:1 | A new class below its superclass has nothing declared |
| Options.ObjectSpace.New | lib/pigeon/option_accessor.rb:44-48 | A new instance has no variables of its own |
| Options.ObjectSpace.OptionReader | lib/pigeon/option_accessor.rb:21-60 | The loop over the names does exactly DeclareReaders on the class |
| Options.ObjectSpace.OptionWriter | lib/pigeon/option_accessor.rb:67-96 | The loop over the names does exactly DeclareWriters on the class |
| Options.ObjectSpace.OptionAccessor | lib/pigeon/option_accessor.rb:8-11 | `option_accessor` does exactly DeclareAccessors on the class |
| Options.ObjectSpace.WriteClass | lib/pigeon/option_accessor.rb:74-84 | `C.name = v` raises exactly when no writer is declared up the chain; otherwise it stores v, coerced by a boolean writer, on C alone, and returns v |
| Options.ObjectSpace.WriteInstance | lib/pigeon/option_accessor.rb:86-94 | `obj.name = v` raises exactly when the class has no writer; otherwise it stores v, coerced by a boolean writer, on that instance alone |
| Options.DeclareMultiOptions | test/unit/pigeon_option_accessor_test.rb:3-7 | `single_option`, `multi1` and `multi2` get plain readers and writers and a nil value |
| Options.DeclarePlainOptions | test/unit/pigeon_option_accessor_test.rb:3-10 | The plain declarations of the test class give plain readers and writers, with the defaults |
| Options.DeclareOptionClass | test/unit/pigeon_option_accessor_test.rb:3-12 | The test class's declarations add a boolean option |
| Options.OptionClasses | test/unit/pigeon_option_accessor_test.rb:3-18 | The test class after setting `single_option`, with a subclass that declares nothing |
| Options.ClassAndInstanceChaining | test/unit/pigeon_option_accessor_test.rb:21-39 | An instance follows its class until it sets its own value, which never reaches the class |
| Options.SubclassInheritance | test/unit/pigeon_option_accessor_test.rb:41-57 | A subclass inherits until it sets its own value. The superclass and its instances keep theirs. Nil restores inheritance |
| Options.ExplicitFalseIsKept | test/unit/pigeon_option_accessor_test.rb:59-70 | An instance's explicit `false` is kept while the class stays nil; an unset option reads nil |
| Options.BooleanOptionCoerces | lib/pigeon/option_accessor.rb:50-89 | A boolean writer stores `true` for a symbol and the query answers true; nil is stored as nil and the query then answers false |
| Options.ThreadLimitFallsBack | lib/pigeon/dispatcher.rb:12-25 | `thread_limit` is 24 on the class. An instance created without a limit reads 24, and one with a limit reads it back |
| Engines.ExpandPath | lib/pigeon/engine.rb:37 | The expanded path is the directory and then the file name, joined by exactly one slash (none added after a directory such as `/` that already ends in one) |
| Engines.DefaultOptions | lib/pigeon/engine.rb:36-38 | The defaults hold only `pid_file`, `pigeon-engine.pid` in the run directory |
| Engines.OptionsWithDefaults | lib/pigeon/engine.rb:42-44 | nil gives the defaults; otherwise the keys are the union, the caller's keys win, and the others keep their defaults |
| Engines.DefaultsMergeIdempotent | lib/pigeon/engine.rb:42-44 | Merging twice equals merging once; an empty map gives the defaults |
| Engines.KeyFor | lib/pigeon/engine.rb:156-160 | The lock key is the name, else the block, else nil |
| Engines.Execute | lib/pigeon/engine.rb:162-175 | Running a block only adds marks; a run that raises nothing leaves the same keys marked; the trace only grows |
| Engines.AfterTrigger | lib/pigeon/engine.rb:156-160 | `trigger_task` only adds marks, restores them when nothing is raised, and only grows the trace |
| Engines.AfterLock | lib/pigeon/engine.rb:162-175 | A marked key returns at once with nothing run. A raise leaves the key marked; otherwise the key ends present and unmarked |
| Engines.Work | lib/pigeon/engine.rb:156-172 | The key is marked while the block or method runs; with no raise exactly that key is added |
| Engines.Release | lib/pigeon/engine.rb:172-174 | A raise propagates with the key still marked; otherwise only the key is unmarked |
| Engines.ExecuteAppend | lib/pigeon/engine.rb:162-175 | Running a + b is running a, then b unless a raised |
| Engines.HeldKeyIgnoresTriggers | lib/pigeon/engine.rb:168 | A trigger of a held key does nothing at any depth |
| Engines.RaisedRunStaysLocked | lib/pigeon/engine.rb:170-174 | After a run that raised, the same trigger is ignored |
| Engines.DistinctKeysIndependent | lib/pigeon/engine.rb:162-175 | A run that raises nothing leaves every other key marked exactly as before |
| Engines.Engine.Perform | lib/pigeon/engine.rb:158 | The loop over a block's actions does exactly Execute |
| Engines.Engine.TriggerTask | lib/pigeon/engine.rb:156-160 | The method does exactly AfterTrigger on the lock table and trace |
| Engines.Engine.TaskLock | lib/pigeon/engine.rb:162-175 | The method does exactly AfterLock on the lock table and trace |
| Engines.Engine.LockedWork | lib/pigeon/engine.rb:156-172 | With the key free, the method marks it and yields or sends the name, as Work says |
| Engines.Registered | lib/pigeon/engine.rb:224-226 | A chain's blocks are those registered on it, and none when the class registered none |
| Engines.Flatten | lib/pigeon/engine.rb:228-230 | The actions run for a chain are exactly the actions of its blocks, and none for no blocks |
| Engines.FlattenAppend | lib/pigeon/engine.rb:223-231 | The actions of two runs of blocks one after the other are the first run's actions followed by the second's |
| Engines.AfterChain | lib/pigeon/engine.rb:223-231 | Running a chain only grows the trace |
| Engines.ChainRunsInOrder | lib/pigeon/engine.rb:223-231 | Running a chain is running its blocks' actions one after another, in registration order, stopping at the first raise |
| Engines.EngineClass.constructor | lib/pigeon/engine.rb:207-221 | A new engine class has no chains |
| Engines.EngineClass.Define | lib/pigeon/engine.rb:207-221 | Registering appends the block to that chain only |
| Engines.Engine.constructor | lib/pigeon/engine.rb:113-116 | A new engine has the given options (empty when nil) and an empty lock table |
| Engines.Engine.RunChain | lib/pigeon/engine.rb:223-231 | `run_chain` runs the class's blocks for the chain, as AfterChain says |
| Engines.Engine.Run | lib/pigeon/engine.rb:127-135 | `run` runs `before_start`'s blocks and then `after_start`'s, stopping at the first raise |
| Engines.NewEngine | lib/pigeon/engine.rb:113-125 | `Engine.new` sets the options and an empty lock table, then runs `after_initialize`'s blocks in order |
| EngineScenarios.CallbackOrder | test/unit/pigeon_engine_test.rb:29-53 | An engine noting each chain calls `after_initialize`, `before_start`, `after_start` in that order |
| EngineScenarios.TickRun | lib/pigeon/engine.rb:162-175 | A method that triggers itself runs once, and the name is unmarked after |
| EngineScenarios.ReentrantTriggerIgnored | lib/pigeon/engine.rb:168 | The nested self-trigger is ignored, and the name is free afterwards |
| EngineScenarios.FlakyRuns | lib/pigeon/engine.rb:170-174 | A raising method leaves its name marked |
| EngineScenarios.FailedTaskStaysLocked | lib/pigeon/engine.rb:170-174 | A second trigger of a method that raised runs nothing |

## Left out

- lib/pigeon/dispatcher.rb, processor.rb, scheduler.rb, launcher.rb, pidfile.rb, support.rb, logger.rb and pigeon.rb are not part of this model. They are threads, file I/O, forking, command lines and logging, or they do not parse. The one exception is the Dispatcher's `thread_limit` option declaration, in ThreadLimitFallsBack.
- Queue `each` and `update_filter!` are not modelled. They refer to undefined local variables.
- The Queue's mutex is not modelled; the queue is sequential.
- The queue test's `observe`, `claim`, `pull`, `processors` and `include?` are not modelled. queue.rb does not define them.
- Tasks are identities with an integer key. `Task#priority` reads the clock (`Time.now.to_f`) once, so Tasks.Task.Priority takes the reading as a parameter. Its float type is not modelled.
- Tasks.Task.Run: the callback's three arities are one callback called with the state on every step.
- `@engine.dispatch` is a FIFO queue of pending work in each task. The engine defines no `dispatch`, and the executor's timing is not modelled.
- Tasks.Drain runs at most `fuel` executor items. The scenarios give enough fuel to reach an idle executor.
- Exceptions raised inside `handle_exception` are swallowed by the source. The model's handler cannot raise.
- SortedArrays.SortedArray.Plus: Ruby builds the result with `self.class[...]`, which skips `initialize`. The model returns a plain sequence, with no comparator attached.
- SortedArrays.SortSeq is an insertion sort. Ruby's `sort` only promises a sorted permutation; which equal elements come first is not modelled.
- SortedArrays.PlusSortsReversed checks a three-element reversed run, not the test's 0..100. The general case is SortSeqSorted with SortSeq's permutation ensures.
- SortedArrays: the elements are integers, with comparators on integers.
- Options: the classes form a forest, each naming an earlier superclass. Instance variables are maps. `define_method`, `class_eval` and singleton classes are not modelled. A class without a superclass stands for one whose superclass has no readers.
- Options: a reader or writer the class never declared fails with NoMethodError. A reader whose name exists through other means is not modelled.
- Engines: only `options_with_defaults`, `task_lock`, `trigger_task`, the chain definitions and `run_chain`, and the chain calls in `initialize` and `run` are modelled.
- The engine's EventMachine timers, `defer`, `terminate`, daemonising, `kill`, pid files, logger, host name, random `id`, `debug?` and `foreground?` are not modelled. Neither is its `queue` helper, which passes an argument `Queue.new` does not take.
- The `before_stop` and `after_stop` chains can be registered, but nothing in engine.rb runs them: `run_chain` is called only at lib/pigeon/engine.rb:124, 128 and 134. The last two notes that test/unit/pigeon_engine_test.rb:154-162 expects can therefore never be made. EngineScenarios.CallbackOrder proves the three that can.
- Tasks.BaseHandlers: the base task's `state_initialized!` is protected (lib/pigeon/task.rb:77, 162-164) and is found by the one-argument `respond_to?`, as in Ruby 1.9. Since Ruby 2.0 that call is false for protected methods, and a bare `Pigeon::Task` would then stay `:initialized`. The model follows the Ruby 1.9 reading, which the task test's `test_empty_task` expects.
- Tasks: the hooks (`before_state`, `after_state`, `after_failed`, `after_finished`) and the run callback never raise in the model; only a state handler's actions can. In the source a raise from `before_state` or the callback is rescued at lib/pigeon/task.rb:105 and fails the task, and one from the hooks in the `ensure` clause (lib/pigeon/task.rb:113-118) escapes to the executor.
- Tasks.InitialState: only the base class's `initial_state` (`:initialized`) and `terminal_states` (`:failed`, `:finished`) are modelled. A subclass that overrides them, read through `self.class` at lib/pigeon/task.rb:36, 58 and 116, is not.
- Engines.EngineClass.Define: it always takes a block. A chain call without one appends nil (lib/pigeon/engine.rb:208-219), and `run_chain` then raises on `instance_eval(&nil)` (lib/pigeon/engine.rb:228-229); that path is not modelled.
- TaskQueue.Queue.SortBy: it always takes a key. A `sort_by` call without a block stores nil, and `@tasks.sort_by(&nil)` (lib/pigeon/queue.rb:37-40) gives an Enumerator, after which `<<` and `find_index` fail; that path is not modelled.
- TaskQueue.SortByKey: it fixes an insertion-sort order among tasks with equal keys. Ruby's `sort_by` is not stable, so which of several equal-key tasks `peek` or `pop` answers after a re-sort is not determined by the source.
- TaskQueue.Queue.Fill: the cache walk is modelled as a map update in no particular order. The source walks `@next_task` in insertion order (lib/pigeon/queue.rb:68), so on the raising path exactly the nil entries inserted before the first unregistered name are filled; the model states only that each entry is either unchanged or filled.
- Engines.DefaultOptions: the run directory is chosen by the file system, so it is a parameter. `File.expand_path` is modelled only for a relative file name without `.` or `..` segments in an absolute directory that is already normalised (no `.`, `..` or doubled slashes).
- Engines: blocks and methods are scripts of notes, raises and nested triggers. Arbitrary Ruby code is not modelled, and an `Execute` that raises stops at once.

## Findings

| source | as written | input that shows it | evidently intended | confidence | as-written member | corrected member |
|---|---|---|---|---|---|---|
| lib/pigeon/sorted_array.rb:44-49 | When a probe compares equal, the loop breaks and the object is inserted at `low`, which can lie before smaller elements | Pushing 2 into [1, 2] probes index 1, ties, and inserts at 0, giving [2, 1, 2] | Insert next to the equal element, so a sorted array stays sorted | not executed | SortedArrays.TieInsertsOutOfOrder | SortedArrays.SortedArray.PushCorrected |
| lib/pigeon/queue.rb:94-99 | `peek(name)` memoizes with `@next_task[name] ||= ...`, so an unregistered name stores a nil entry. The next `<<` then calls `@filters[name].call`, that is `nil.call`, after the task was already inserted | `peek(:missing)` on a new queue, then `queue << task` | An unregistered name answers nil without touching the cache, so `<<` never raises | not executed | TaskQueue.UnknownPeekBreaksPush | TaskQueue.UnknownPeekThenPush |
| lib/pigeon/queue.rb:111 | `pop(name)` goes through `peek(name)`, so popping an unregistered name stores the same nil entry and the next `<<` raises | `pop(:missing)` on a new queue, then `queue << task` | `pop` of an unknown name answers nil and leaves the cache alone | not executed | TaskQueue.UnknownPopBreaksPush | TaskQueue.UnknownPopThenPush |
| lib/pigeon/queue.rb:135 | `empty?(name)` goes through `peek(name)`, with the same effect | `empty?(:missing)` on a new queue, then `queue << task` | `empty?` of an unknown name answers true and leaves the cache alone | not executed | TaskQueue.UnknownEmptyBreaksPush | TaskQueue.UnknownEmptyThenPush |
