/**
 * Pigeon::Queue: a backlog of tasks kept ordered by a sort key, with named
 * filter predicates and, per filter, a cached "next task".
 */
module TaskQueue {
  import opened Wrappers
  import SortedArrays

  /** A queued task: an identity and the integer key it sorts by by default. */
  datatype QueuedTask = QueuedTask(id: nat, priority: int)

  type Predicate = QueuedTask -> bool
  type SortKey = QueuedTask -> int

  /** A filter name; `Unnamed` is Ruby's `nil` key. */
  datatype FilterName = Unnamed | Named(symbol: string)

  /** Raised by `<<` when it calls a cached filter that is not registered (`nil.call`). */
  datatype QueueError = NoMethodError

  /** The filter of the `nil` name: every task matches it. */
  function AcceptAll(): (r: Predicate)
    ensures forall t :: r(t)
  {
    t => true
  }

  function DefaultSortKey(): SortKey
  {
    (t: QueuedTask) => t.priority
  }

  /**
   * `Queue.filters` (queue.rb:16-24): the class registry, which starts as
   * `nil => accept all` and takes each class-level `filter` declaration in turn.
   */
  function ClassFilters(declared: seq<(FilterName, Predicate)>): (r: map<FilterName, Predicate>)
    ensures r.Keys == {Unnamed} + set i | 0 <= i < |declared| :: declared[i].0
    ensures (forall i :: 0 <= i < |declared| ==> declared[i].0 != Unnamed) ==>
      forall t :: r[Unnamed](t)
    ensures declared != [] ==> r[declared[|declared| - 1].0] == declared[|declared| - 1].1
  {
    if declared == [] then map[Unnamed := AcceptAll()]
    else
      var last := declared[|declared| - 1];
      var r := ClassFilters(declared[..|declared| - 1]);
      assert forall i :: 0 <= i < |declared| - 1 ==> declared[..|declared| - 1][i] == declared[i];
      r[last.0 := last.1]
  }

  ghost predicate SortedBy(s: seq<QueuedTask>, key: SortKey)
  {
    forall i, j :: 0 <= i < j < |s| ==> key(s[i]) <= key(s[j])
  }

  /** `@tasks.find(&p)`: the first task satisfying `p`, or nil. */
  function Find(s: seq<QueuedTask>, p: Predicate): (r: Option<QueuedTask>)
    ensures r.None? <==> forall j :: 0 <= j < |s| ==> !p(s[j])
    ensures r.Some? ==> exists i :: 0 <= i < |s| && s[i] == r.value && p(s[i]) &&
                                    forall j :: 0 <= j < i ==> !p(s[j])
  {
    if s == [] then None
    else if p(s[0]) then Some(s[0])
    else
      var r := Find(s[1..], p);
      assert r.Some? ==> exists i :: 0 <= i < |s[1..]| && s[1..][i] == r.value && p(s[1..][i]) &&
                                     forall j :: 0 <= j < i ==> !p(s[1..][j]);
      assert forall j :: 1 <= j < |s| ==> s[j] == s[1..][j - 1];
      r
  }

  /** `@tasks.count(&p)`. */
  function Count(s: seq<QueuedTask>, p: Predicate): (n: nat)
    ensures n <= |s|
    ensures n == 0 <==> forall j :: 0 <= j < |s| ==> !p(s[j])
    ensures (forall j :: 0 <= j < |s| ==> p(s[j])) ==> n == |s|
  {
    if s == [] then 0
    else
      assert forall j :: 1 <= j < |s| ==> s[j] == s[1..][j - 1];
      (if p(s[0]) then 1 else 0) + Count(s[1..], p)
  }

  /**
   * The index `<<` inserts at (queue.rb:61-66): the first task whose key is
   * strictly greater than `k`, or the end when there is none.
   */
  function InsertionPoint(s: seq<QueuedTask>, key: SortKey, k: int): (i: nat)
    ensures i <= |s|
    ensures forall j :: 0 <= j < i ==> key(s[j]) <= k
    ensures i < |s| ==> key(s[i]) > k
  {
    if s == [] || key(s[0]) > k then 0
    else
      var i := InsertionPoint(s[1..], key, k);
      assert forall j :: 1 <= j < |s| ==> s[j] == s[1..][j - 1];
      1 + i
  }

  /** `Array#delete`: every occurrence of `t` removed, the rest in order. */
  function RemoveAll(s: seq<QueuedTask>, t: QueuedTask): (r: seq<QueuedTask>)
    ensures t !in r
    ensures forall u :: u in r <==> u in s && u != t
    ensures forall u :: u != t ==> multiset(r)[u] == multiset(s)[u]
    ensures |r| <= |s|
    ensures t in s ==> |r| < |s|
  {
    if s == [] then []
    else
      assert s == [s[0]] + s[1..];
      if s[0] == t then RemoveAll(s[1..], t) else [s[0]] + RemoveAll(s[1..], t)
  }

  /**
   * On a sorted backlog the insertion point splits it exactly: a task goes
   * after every task whose key is not greater (so equal keys keep arrival
   * order) and before every task whose key is greater.
   */
  lemma InsertionPointSplits(s: seq<QueuedTask>, key: SortKey, k: int)
    requires SortedBy(s, key)
    ensures var i := InsertionPoint(s, key, k);
      forall j :: 0 <= j < |s| ==> (j < i <==> key(s[j]) <= k)
  {
    var i := InsertionPoint(s, key, k);
    forall j | i <= j < |s| ensures key(s[j]) > k {
      assert key(s[i]) <= key(s[j]);
    }
  }

  /** `<<` keeps the backlog sorted by the sort key. */
  lemma InsertKeepsSorted(s: seq<QueuedTask>, key: SortKey, t: QueuedTask)
    requires SortedBy(s, key)
    ensures SortedBy(SortedArrays.InsertAt(s, InsertionPoint(s, key, key(t)), t), key)
  {
    var i := InsertionPoint(s, key, key(t));
    var r := SortedArrays.InsertAt(s, i, t);
    InsertionPointSplits(s, key, key(t));
    forall a, b | 0 <= a < b < |r| ensures key(r[a]) <= key(r[b]) {
      SortedArrays.InsertAtIndex(s, i, t, a);
      SortedArrays.InsertAtIndex(s, i, t, b);
      var a', b' := if a < i then a else a - 1, if b <= i then b else b - 1;
      if a == i {
        assert key(t) <= key(s[b']);
      } else if b == i {
        assert key(s[a']) <= key(t);
      } else {
        assert key(s[a']) <= key(s[b']);
      }
    }
  }

  /** Removing every copy of a task keeps the backlog sorted. */
  lemma {:induction false} RemoveAllKeepsSorted(s: seq<QueuedTask>, key: SortKey, t: QueuedTask)
    requires SortedBy(s, key)
    ensures SortedBy(RemoveAll(s, t), key)
  {
    if s != [] {
      var rest := RemoveAll(s[1..], t);
      assert SortedBy(s[1..], key) by {
        forall a, b | 0 <= a < b < |s[1..]| ensures key(s[1..][a]) <= key(s[1..][b]) {
          assert s[1..][a] == s[a + 1] && s[1..][b] == s[b + 1];
        }
      }
      RemoveAllKeepsSorted(s[1..], key, t);
      if s[0] != t {
        var r := [s[0]] + rest;
        forall b | 0 <= b < |rest| ensures key(s[0]) <= key(rest[b]) {
          assert rest[b] in s[1..];
          var j :| 0 <= j < |s[1..]| && s[1..][j] == rest[b];
          assert s[j + 1] == rest[b];
        }
        forall a, b | 0 <= a < b < |r| ensures key(r[a]) <= key(r[b]) {
          if a > 0 {
            assert r[a] == rest[a - 1] && r[b] == rest[b - 1];
          } else {
            assert r[b] == rest[b - 1];
          }
        }
      }
    }
  }

  /** `@tasks.sort_by(&key)`, taken as pushing each task in turn into an empty backlog. */
  function SortByKey(s: seq<QueuedTask>, key: SortKey): (r: seq<QueuedTask>)
    ensures multiset(r) == multiset(s)
  {
    if s == [] then []
    else
      var init := SortByKey(s[..|s| - 1], key);
      var last := s[|s| - 1];
      assert s == s[..|s| - 1] + [last];
      SortedArrays.InsertAt(init, InsertionPoint(init, key, key(last)), last)
  }

  /** `sort_by` leaves the backlog sorted by the new key. */
  lemma {:induction false} SortByKeySorted(s: seq<QueuedTask>, key: SortKey)
    ensures SortedBy(SortByKey(s, key), key)
  {
    if s != [] {
      SortByKeySorted(s[..|s| - 1], key);
      InsertKeepsSorted(SortByKey(s[..|s| - 1], key), key, s[|s| - 1]);
    }
  }

  /**
   * The cache after a successful `<<` of `t` (queue.rb:68-72): an entry that
   * exists, is nil and whose filter accepts `t` now holds `t`.
   */
  function CacheAfterPush(cache: map<FilterName, Option<QueuedTask>>, filters: map<FilterName, Predicate>,
                          t: QueuedTask): (r: map<FilterName, Option<QueuedTask>>)
    ensures r.Keys == cache.Keys
    ensures forall n :: n in cache && cache[n].Some? ==> r[n] == cache[n]
    ensures forall n :: n in cache && cache[n].None? ==>
      r[n] == if n in filters && filters[n](t) then Some(t) else None
  {
    map n | n in cache :: if cache[n].None? && n in filters && filters[n](t) then Some(t) else cache[n]
  }

  /** The cache after `pop` removed `t` (queue.rb:118-122): every entry holding `t` is nil. */
  function CacheAfterPop(cache: map<FilterName, Option<QueuedTask>>, t: QueuedTask): (r: map<FilterName, Option<QueuedTask>>)
    ensures r.Keys == cache.Keys
    ensures forall n :: n in r ==> r[n] != Some(t)
    ensures forall n :: n in cache && cache[n] != Some(t) ==> r[n] == cache[n]
  {
    map n | n in cache :: if cache[n] == Some(t) then None else cache[n]
  }

  /**
   * The cache after a corrected `peek(name)` answered `r`: a registered
   * filter without a cached task memoizes `r`; anything else leaves it alone.
   */
  function Memoized(cache: map<FilterName, Option<QueuedTask>>, filters: map<FilterName, Predicate>,
                    name: FilterName, r: Option<QueuedTask>): (c: map<FilterName, Option<QueuedTask>>)
    ensures c.Keys == if name in filters then cache.Keys + {name} else cache.Keys
    ensures forall n :: n in cache && n != name ==> c[n] == cache[n]
  {
    if (name in cache && cache[name].Some?) || name !in filters then cache else cache[name := r]
  }

  /**
   * The cache after `peek(name)` as written answered `r` (queue.rb:94):
   * `||=` stores `r` under the name unless a task is cached there, whether
   * or not a filter of that name is registered.
   */
  function MemoizedAsWritten(cache: map<FilterName, Option<QueuedTask>>, name: FilterName,
                             r: Option<QueuedTask>): (c: map<FilterName, Option<QueuedTask>>)
    ensures c.Keys == cache.Keys + {name}
    ensures forall n :: n in cache && n != name ==> c[n] == cache[n]
  {
    if name in cache && cache[name].Some? then cache else cache[name := r]
  }

  /**
   * The written and the corrected memo agree for a registered name; for an
   * unregistered one the corrected memo leaves the cache alone, while the
   * written one holds the name, nil unless a task was cached there.
   */
  lemma MemoizedAgreeWhenRegistered(cache: map<FilterName, Option<QueuedTask>>, filters: map<FilterName, Predicate>,
                                    name: FilterName)
    ensures name in filters ==> forall r :: MemoizedAsWritten(cache, name, r) == Memoized(cache, filters, name, r)
    ensures name !in filters ==>
      && Memoized(cache, filters, name, None) == cache
      && name in MemoizedAsWritten(cache, name, None)
      && (MemoizedAsWritten(cache, name, None)[name].None? <==> !(name in cache && cache[name].Some?))
  {
  }

  /** A nil cache entry whose filter is not registered: `<<` calls `nil.call` on it. */
  ghost predicate Poisoned(cache: map<FilterName, Option<QueuedTask>>, filters: map<FilterName, Predicate>)
  {
    exists n :: n in cache && cache[n].None? && n !in filters
  }

  /** Every cached task is in the backlog and passes its entry's registered filter. */
  ghost predicate CacheSoundFor(cache: map<FilterName, Option<QueuedTask>>, tasks: seq<QueuedTask>,
                                filters: map<FilterName, Predicate>)
  {
    forall n :: n in cache && cache[n].Some? ==>
      cache[n].value in tasks && n in filters && filters[n](cache[n].value)
  }

  /** Once `t` is in the backlog, caching it for the filters it passes keeps the cache sound. */
  lemma PushKeepsCacheSound(cache: map<FilterName, Option<QueuedTask>>, tasks: seq<QueuedTask>,
                            filters: map<FilterName, Predicate>, t: QueuedTask)
    requires CacheSoundFor(cache, tasks, filters) && t in tasks
    ensures CacheSoundFor(CacheAfterPush(cache, filters, t), tasks, filters)
  {
  }

  /** Clearing the entries that hold `t` keeps the cache sound for the backlog without `t`. */
  lemma PopKeepsCacheSound(cache: map<FilterName, Option<QueuedTask>>, tasks: seq<QueuedTask>,
                           filters: map<FilterName, Predicate>, t: QueuedTask)
    requires CacheSoundFor(cache, tasks, filters)
    ensures CacheSoundFor(CacheAfterPop(cache, t), RemoveAll(tasks, t), filters)
  {
  }

  /** A cache whose every entry comes from one of two sound caches is sound. */
  lemma MixedCacheSound(cache: map<FilterName, Option<QueuedTask>>, a: map<FilterName, Option<QueuedTask>>,
                        b: map<FilterName, Option<QueuedTask>>, tasks: seq<QueuedTask>,
                        filters: map<FilterName, Predicate>)
    requires CacheSoundFor(a, tasks, filters) && CacheSoundFor(b, tasks, filters)
    requires cache.Keys <= a.Keys && a.Keys == b.Keys
    requires forall n :: n in cache ==> cache[n] == a[n] || cache[n] == b[n]
    ensures CacheSoundFor(cache, tasks, filters)
  {
  }

  class Queue {
    var tasks: seq<QueuedTask>
    var filters: map<FilterName, Predicate>
    var nextTask: map<FilterName, Option<QueuedTask>>
    var sortKey: SortKey

    /** Every cached task is in the backlog and satisfies its (registered) filter. */
    ghost predicate CacheSound()
      reads this
    {
      CacheSoundFor(nextTask, tasks, filters)
    }

    ghost predicate Valid()
      reads this
    {
      SortedBy(tasks, sortKey) && CacheSound()
    }

    /** Every cache entry names a registered filter, so `<<` cannot raise. */
    ghost predicate CacheKeysKnown()
      reads this
    {
      nextTask.Keys <= filters.Keys
    }

    /** `Queue.new`: an empty backlog, the class registry's filters, an empty cache, sorted by priority. */
    constructor (declared: seq<(FilterName, Predicate)>)
      ensures Valid() && CacheKeysKnown()
      ensures tasks == [] && nextTask == map[] && filters == ClassFilters(declared)
      ensures sortKey == DefaultSortKey()
    {
      tasks := [];
      filters := ClassFilters(declared);
      nextTask := map[];
      sortKey := DefaultSortKey();
    }

    /** What `peek(name)` answers: the cached task when there is one, else the first match. */
    function Peeked(name: FilterName): (r: Option<QueuedTask>)
      reads this
      requires CacheSound()
      ensures r.Some? ==> name in filters && r.value in tasks && filters[name](r.value)
      ensures r.None? <==> name !in filters || forall j :: 0 <= j < |tasks| ==> !filters[name](tasks[j])
    {
      if name in nextTask && nextTask[name].Some? then nextTask[name]
      else if name in filters then Find(tasks, filters[name])
      else None
    }

    /** `sort_by(&key)`: re-sorts the backlog as a permutation and empties the cache. */
    method SortBy(key: SortKey)
      requires Valid()
      modifies this
      ensures Valid() && CacheKeysKnown()
      ensures sortKey == key && tasks == SortByKey(old(tasks), key)
      ensures multiset(tasks) == multiset(old(tasks))
      ensures nextTask == map[] && filters == old(filters)
    {
      ghost var registered := filters;
      SortByKeySorted(tasks, key);
      tasks, sortKey, nextTask := SortByKey(tasks, key), key, map[];
      assert filters == registered;
    }

    /** `filter(name, &p)`: registers `p` and caches its first match. */
    method Filter(name: FilterName, p: Predicate)
      requires Valid()
      modifies this
      ensures Valid()
      ensures old(CacheKeysKnown()) ==> CacheKeysKnown()
      ensures filters == old(filters)[name := p]
      ensures nextTask == old(nextTask)[name := Find(tasks, p)]
      ensures tasks == old(tasks) && sortKey == old(sortKey)
    {
      filters := filters[name := p];
      nextTask := nextTask[name := Find(tasks, p)];
    }

    /**
     * `<<`: inserts `t` before the first task with a strictly greater key and
     * fills the nil cache entries whose filter accepts it. A nil entry with no
     * registered filter makes it raise, with `t` already inserted.
     */
    method Push(t: QueuedTask) returns (r: Result<QueuedTask, QueueError>)
      requires Valid()
      modifies this
      ensures Valid()
      ensures tasks == SortedArrays.InsertAt(old(tasks), InsertionPoint(old(tasks), sortKey, sortKey(t)), t)
      ensures filters == old(filters) && sortKey == old(sortKey)
      ensures r.Failure? <==> Poisoned(old(nextTask), filters)
      ensures r.Success? ==> r.value == t && nextTask == CacheAfterPush(old(nextTask), filters, t)
      ensures nextTask.Keys == old(nextTask).Keys
      ensures forall n :: n in nextTask ==>
        nextTask[n] == old(nextTask)[n] || nextTask[n] == CacheAfterPush(old(nextTask), filters, t)[n]
      ensures old(CacheKeysKnown()) ==> r.Success? && CacheKeysKnown()
    {
      var k := sortKey(t);
      var insertIndex := InsertionPoint(tasks, sortKey, k);
      InsertKeepsSorted(tasks, sortKey, t);
      tasks := SortedArrays.InsertAt(tasks, insertIndex, t);
      r := Fill(t);
    }

    /** The cache walk of `<<` (queue.rb:68-72), once `t` is in the backlog. */
    method Fill(t: QueuedTask) returns (r: Result<QueuedTask, QueueError>)
      requires Valid() && t in tasks
      modifies this
      ensures Valid()
      ensures tasks == old(tasks) && filters == old(filters) && sortKey == old(sortKey)
      ensures r.Failure? <==> Poisoned(old(nextTask), filters)
      ensures r.Success? ==> r.value == t && nextTask == CacheAfterPush(old(nextTask), filters, t)
      ensures nextTask.Keys == old(nextTask).Keys
      ensures forall n :: n in nextTask ==>
        nextTask[n] == old(nextTask)[n] || nextTask[n] == CacheAfterPush(old(nextTask), filters, t)[n]
      ensures old(CacheKeysKnown()) ==> r.Success? && CacheKeysKnown()
    {
      ghost var before := nextTask;
      ghost var after := CacheAfterPush(before, filters, t);
      var names := nextTask.Keys;
      while names != {}
        invariant tasks == old(tasks) && filters == old(filters) && sortKey == old(sortKey)
        invariant names <= before.Keys && nextTask.Keys == before.Keys
        invariant forall n :: n in names ==> nextTask[n] == before[n]
        invariant forall n :: n in before && n !in names ==> nextTask[n] == after[n]
        invariant forall n :: n in before && n !in names ==> !(before[n].None? && n !in filters)
        decreases names
      {
        var n :| n in names;
        if nextTask[n].None? {
          if n !in filters {
            PushKeepsCacheSound(before, tasks, filters, t);
            MixedCacheSound(nextTask, before, after, tasks, filters);
            return Failure(NoMethodError);
          }
          if filters[n](t) {
            nextTask := nextTask[n := Some(t)];
          }
        }
        names := names - {n};
      }
      assert nextTask == after;
      PushKeepsCacheSound(before, tasks, filters, t);
      return Success(t);
    }

    /**
     * `peek(name)` as written (queue.rb:88-101): `@next_task[name] ||= ...`
     * memoizes, and for an unregistered name it stores nil under that name.
     */
    method PeekAsWritten(name: FilterName) returns (r: Option<QueuedTask>)
      requires Valid()
      modifies this
      ensures Valid()
      ensures r == old(Peeked(name))
      ensures tasks == old(tasks) && filters == old(filters) && sortKey == old(sortKey)
      ensures nextTask == MemoizedAsWritten(old(nextTask), name, r)
      ensures old(CacheKeysKnown()) && name in filters ==> CacheKeysKnown()
      ensures name !in filters ==> r.None? && name in nextTask && nextTask[name].None?
    {
      if name in nextTask && nextTask[name].Some? {
        return nextTask[name];
      }
      if name in filters {
        r := Find(tasks, filters[name]);
      } else {
        r := None;
      }
      nextTask := nextTask[name := r];
    }

    /**
     * `peek(name)` corrected: an unregistered name answers nil without
     * touching the cache; otherwise the cached task, or the first match, memoized.
     */
    method Peek(name: FilterName) returns (r: Option<QueuedTask>)
      requires Valid()
      modifies this
      ensures Valid()
      ensures old(CacheKeysKnown()) ==> CacheKeysKnown()
      ensures r == old(Peeked(name))
      ensures tasks == old(tasks) && filters == old(filters) && sortKey == old(sortKey)
      ensures nextTask == Memoized(old(nextTask), filters, name, r)
    {
      if name in nextTask && nextTask[name].Some? {
        return nextTask[name];
      }
      if name !in filters {
        return None;
      }
      r := Find(tasks, filters[name]);
      nextTask := nextTask[name := r];
    }

    /** `peek { |t| ... }`: the first task satisfying the block; nothing is cached. */
    function PeekWith(p: Predicate): (r: Option<QueuedTask>)
      reads this
      ensures r.Some? ==> r.value in tasks && p(r.value)
      ensures r.None? <==> forall j :: 0 <= j < |tasks| ==> !p(tasks[j])
    {
      Find(tasks, p)
    }

    /** Removes every copy of `popped` and clears the cache entries holding it (queue.rb:114-124). */
    method Remove(popped: QueuedTask)
      requires Valid()
      modifies this
      ensures Valid()
      ensures old(CacheKeysKnown()) ==> CacheKeysKnown()
      ensures tasks == RemoveAll(old(tasks), popped)
      ensures nextTask == CacheAfterPop(old(nextTask), popped)
      ensures filters == old(filters) && sortKey == old(sortKey)
    {
      RemoveAllKeepsSorted(tasks, sortKey, popped);
      PopKeepsCacheSound(nextTask, tasks, filters, popped);
      tasks := RemoveAll(tasks, popped);
      ghost var before := nextTask;
      ghost var removed := tasks;
      var names := nextTask.Keys;
      while names != {}
        invariant tasks == removed && filters == old(filters) && sortKey == old(sortKey)
        invariant names <= before.Keys && nextTask.Keys == before.Keys
        invariant forall n :: n in names ==> nextTask[n] == before[n]
        invariant forall n :: n in before && n !in names ==> nextTask[n] == CacheAfterPop(before, popped)[n]
        decreases names
      {
        var n :| n in names;
        if nextTask[n] == Some(popped) {
          nextTask := nextTask[n := None];
        }
        names := names - {n};
      }
      assert nextTask == CacheAfterPop(before, popped);
    }

    /**
     * `pop(name)` (queue.rb:104-127): the task `peek(name)` as written
     * answers, removed from the backlog and from every cache entry; nil, with
     * the backlog untouched, when none matches. Through peek, an unregistered
     * name leaves a nil entry behind, on which a later `<<` raises.
     */
    method Pop(name: FilterName) returns (r: Option<QueuedTask>)
      requires Valid()
      modifies this
      ensures Valid()
      ensures old(CacheKeysKnown()) && name in filters ==> CacheKeysKnown()
      ensures name !in filters ==> r.None? && Poisoned(nextTask, filters)
      ensures r == old(Peeked(name))
      ensures r.Some? ==> name in filters && r.value in old(tasks) && filters[name](r.value)
      ensures r.None? ==> tasks == old(tasks)
      ensures r.Some? ==> tasks == RemoveAll(old(tasks), r.value) && r.value !in tasks
      ensures r.Some? ==> |tasks| < |old(tasks)|
      ensures r.Some? ==> forall n :: n in nextTask ==> nextTask[n] != r
      ensures nextTask == if r.Some? then CacheAfterPop(MemoizedAsWritten(old(nextTask), name, r), r.value)
                          else MemoizedAsWritten(old(nextTask), name, r)
      ensures filters == old(filters) && sortKey == old(sortKey)
    {
      ghost var peeked := Peeked(name);
      r := PeekAsWritten(name);
      assert r == peeked;
      if r.Some? {
        assert r.value in tasks && filters[name](r.value);
        Remove(r.value);
      } else if name !in filters {
        assert name in nextTask && nextTask[name].None?;
      }
    }

    /** `pop(name)` over the corrected `peek`: an unregistered name leaves the cache alone. */
    method PopCorrected(name: FilterName) returns (r: Option<QueuedTask>)
      requires Valid()
      modifies this
      ensures Valid()
      ensures old(CacheKeysKnown()) ==> CacheKeysKnown()
      ensures r == old(Peeked(name))
      ensures r.Some? ==> name in filters && r.value in old(tasks) && filters[name](r.value)
      ensures r.None? ==> tasks == old(tasks)
      ensures r.Some? ==> tasks == RemoveAll(old(tasks), r.value) && r.value !in tasks
      ensures r.Some? ==> |tasks| < |old(tasks)|
      ensures r.Some? ==> forall n :: n in nextTask ==> nextTask[n] != r
      ensures nextTask == if r.Some? then CacheAfterPop(Memoized(old(nextTask), filters, name, r), r.value)
                          else Memoized(old(nextTask), filters, name, r)
      ensures filters == old(filters) && sortKey == old(sortKey)
    {
      ghost var peeked := Peeked(name);
      r := Peek(name);
      assert r == peeked;
      if r.Some? {
        assert r.value in tasks && filters[name](r.value);
        Remove(r.value);
      }
    }

    /** `pop { |t| ... }`: the first task satisfying the block, removed. */
    method PopWith(p: Predicate) returns (r: Option<QueuedTask>)
      requires Valid()
      modifies this
      ensures Valid()
      ensures old(CacheKeysKnown()) ==> CacheKeysKnown()
      ensures r == Find(old(tasks), p)
      ensures r.None? ==> tasks == old(tasks) && nextTask == old(nextTask)
      ensures r.Some? ==> tasks == RemoveAll(old(tasks), r.value) && nextTask == CacheAfterPop(old(nextTask), r.value)
      ensures filters == old(filters) && sortKey == old(sortKey)
    {
      r := Find(tasks, p);
      if r.Some? {
        Remove(r.value);
      }
    }

    /**
     * `empty?(name)` (queue.rb:129-137): `!peek(name)`, with peek's
     * memoization as written, so an unregistered name leaves a nil entry behind.
     */
    method IsEmpty(name: FilterName) returns (r: bool)
      requires Valid()
      modifies this
      ensures Valid()
      ensures old(CacheKeysKnown()) && name in filters ==> CacheKeysKnown()
      ensures name !in filters ==> r && Poisoned(nextTask, filters)
      ensures r <==> old(Peeked(name)).None?
      ensures r <==> name !in filters || forall j :: 0 <= j < |tasks| ==> !filters[name](tasks[j])
      ensures nextTask == MemoizedAsWritten(old(nextTask), name, old(Peeked(name)))
      ensures tasks == old(tasks) && filters == old(filters) && sortKey == old(sortKey)
    {
      var p := PeekAsWritten(name);
      r := p.None?;
    }

    /** `empty?(name)` over the corrected `peek`. */
    method IsEmptyCorrected(name: FilterName) returns (r: bool)
      requires Valid()
      modifies this
      ensures Valid()
      ensures old(CacheKeysKnown()) ==> CacheKeysKnown()
      ensures r <==> old(Peeked(name)).None?
      ensures r <==> name !in filters || forall j :: 0 <= j < |tasks| ==> !filters[name](tasks[j])
      ensures nextTask == Memoized(old(nextTask), filters, name, old(Peeked(name)))
      ensures tasks == old(tasks) && filters == old(filters) && sortKey == old(sortKey)
    {
      var p := Peek(name);
      r := p.None?;
    }

    /** `empty? { |t| ... }`. */
    function IsEmptyWith(p: Predicate): (r: bool)
      reads this
      ensures r <==> forall j :: 0 <= j < |tasks| ==> !p(tasks[j])
    {
      Find(tasks, p).None?
    }

    /** `length(name)`: how many tasks the filter accepts, or nil for an unregistered filter. */
    function Length(name: FilterName): (r: Option<nat>)
      reads this
      ensures r.None? <==> name !in filters
      ensures r.Some? ==> r.value <= |tasks|
      ensures r.Some? ==> (r.value == 0 <==> forall j :: 0 <= j < |tasks| ==> !filters[name](tasks[j]))
      ensures name in filters && (forall u :: filters[name](u)) ==> r == Some(|tasks|)
    {
      if name in filters then Some(Count(tasks, filters[name])) else None
    }
  }

  /**
   * `peek` of an unregistered filter name followed by `<<`, with `peek` as
   * written: the memoized nil entry makes `<<` raise.
   */
  method UnknownPeekBreaksPush() returns (r: Result<QueuedTask, QueueError>)
    ensures r == Failure(NoMethodError)
  {
    var q := new Queue([]);
    var missing := Named("missing");
    var p := q.PeekAsWritten(missing);
    assert missing !in q.filters && missing in q.nextTask && q.nextTask[missing].None?;
    assert Poisoned(q.nextTask, q.filters);
    r := q.Push(QueuedTask(1, 1));
    assert r.Failure? && r.error.NoMethodError?;
  }

  /** The same sequence with the corrected `peek`: the push succeeds and the task is queued. */
  method UnknownPeekThenPush() returns (r: Result<QueuedTask, QueueError>, queued: seq<QueuedTask>)
    ensures r == Success(QueuedTask(1, 1)) && queued == [QueuedTask(1, 1)]
  {
    var q := new Queue([]);
    var p := q.Peek(Named("missing"));
    r := q.Push(QueuedTask(1, 1));
    queued := q.tasks;
  }

  /** `pop(:missing)` as written leaves a nil entry, so the next `<<` raises NoMethodError. */
  method UnknownPopBreaksPush() returns (popped: Option<QueuedTask>, r: Result<QueuedTask, QueueError>)
    ensures popped == None && r == Failure(NoMethodError)
  {
    var q := new Queue([]);
    assert Named("missing") !in q.filters;
    popped := q.Pop(Named("missing"));
    r := q.Push(QueuedTask(1, 1));
    assert r.Failure? && r.error.NoMethodError?;
  }

  /** The same sequence over the corrected `peek`: the push succeeds and the task is queued. */
  method UnknownPopThenPush() returns (popped: Option<QueuedTask>, r: Result<QueuedTask, QueueError>,
                                       queued: seq<QueuedTask>)
    ensures popped == None && r == Success(QueuedTask(1, 1)) && queued == [QueuedTask(1, 1)]
  {
    var q := new Queue([]);
    popped := q.PopCorrected(Named("missing"));
    r := q.Push(QueuedTask(1, 1));
    queued := q.tasks;
  }

  /** `empty?(:missing)` as written answers true and leaves a nil entry, so the next `<<` raises. */
  method UnknownEmptyBreaksPush() returns (empty: bool, r: Result<QueuedTask, QueueError>)
    ensures empty && r == Failure(NoMethodError)
  {
    var q := new Queue([]);
    assert Named("missing") !in q.filters;
    empty := q.IsEmpty(Named("missing"));
    r := q.Push(QueuedTask(1, 1));
    assert r.Failure? && r.error.NoMethodError?;
  }

  /** The same sequence over the corrected `peek`: the push succeeds. */
  method UnknownEmptyThenPush() returns (empty: bool, r: Result<QueuedTask, QueueError>,
                                         queued: seq<QueuedTask>)
    ensures empty && r == Success(QueuedTask(1, 1)) && queued == [QueuedTask(1, 1)]
  {
    var q := new Queue([]);
    empty := q.IsEmptyCorrected(Named("missing"));
    r := q.Push(QueuedTask(1, 1));
    queued := q.tasks;
  }

  /** The task tagged `n`, created n-th, so its priority is `n` too. */
  function Tagged(n: nat): QueuedTask
  {
    QueuedTask(n, n)
  }

  /** Removing a task that occurs once leaves the others in order. */
  lemma {:induction false} RemoveAllOnce(s: seq<QueuedTask>, i: nat)
    requires i < |s| && forall j :: 0 <= j < |s| && j != i ==> s[j] != s[i]
    ensures RemoveAll(s, s[i]) == s[..i] + s[i + 1..]
  {
    if i > 0 {
      assert forall j :: 0 <= j < |s[1..]| && j != i - 1 ==> s[1..][j] != s[1..][i - 1];
      RemoveAllOnce(s[1..], i - 1);
      assert s[1..][i - 1] == s[i];
      assert s[..i] + s[i + 1..] == [s[0]] + (s[1..][..i - 1] + s[1..][i..]);
    } else {
      assert s[0] !in s[1..];
      RemoveAllAbsent(s[1..], s[0]);
    }
  }

  /** Removing a task that does not occur changes nothing. */
  lemma {:induction false} RemoveAllAbsent(s: seq<QueuedTask>, t: QueuedTask)
    requires t !in s
    ensures RemoveAll(s, t) == s
  {
    if s != [] {
      assert s == [s[0]] + s[1..];
      RemoveAllAbsent(s[1..], t);
    }
  }

  /** A new queue: length 0, empty, and nothing to pop, under the default `nil` filter. */
  method EmptyQueue() returns (length: Option<nat>, empty: bool, popped: Option<QueuedTask>)
    ensures length == Some(0) && empty && popped == None
  {
    var q := new Queue([]);
    length := q.Length(Unnamed);
    empty := q.IsEmpty(Unnamed);
    popped := q.Pop(Unnamed);
  }

  /** A fresh queue holding the tasks tagged 0, 1 and 2, pushed in that order. */
  method ThreeTagged() returns (q: Queue)
    ensures fresh(q) && q.Valid() && q.CacheKeysKnown()
    ensures q.tasks == [Tagged(0), Tagged(1), Tagged(2)]
    ensures q.filters == ClassFilters([]) && q.nextTask == map[] && q.sortKey == DefaultSortKey()
  {
    q := new Queue([]);
    PushTagged(q, 0);
    PushTagged(q, 1);
    PushTagged(q, 2);
  }

  /** Pushing the task tagged `n` onto a backlog of lower tags, with nothing cached, appends it. */
  method PushTagged(q: Queue, n: nat)
    requires q.Valid() && q.CacheKeysKnown() && q.nextTask == map[] && q.sortKey == DefaultSortKey()
    requires forall j :: 0 <= j < |q.tasks| ==> q.tasks[j].priority <= n
    modifies q
    ensures q.Valid() && q.CacheKeysKnown() && q.nextTask == map[]
    ensures q.tasks == old(q.tasks) + [Tagged(n)]
    ensures q.filters == old(q.filters) && q.sortKey == old(q.sortKey)
  {
    ghost var s := q.tasks;
    assert InsertionPoint(s, q.sortKey, n) == |s|;
    assert s[..|s|] == s;
    var r := q.Push(Tagged(n));
  }

  /** Registers `over_0` on the tasks tagged 0, 1, 2; peek answers 1. */
  method FilterAndPeek(q: Queue, over0: FilterName, above0: Predicate) returns (peeked: Option<QueuedTask>)
    requires q.Valid() && q.CacheKeysKnown() && q.nextTask == map[]
    requires q.tasks == [Tagged(0), Tagged(1), Tagged(2)]
    requires forall t :: above0(t) <==> t.id > 0
    modifies q
    ensures peeked == Some(Tagged(1))
    ensures q.Valid() && q.CacheKeysKnown() && q.tasks == old(q.tasks)
    ensures over0 in q.filters && q.filters[over0] == above0 && q.sortKey == old(q.sortKey)
    ensures q.nextTask == map[over0 := Some(Tagged(1))]
  {
    q.Filter(over0, above0);
    assert q.nextTask == map[over0 := Some(Tagged(1))];
    peeked := q.Peek(over0);
  }

  /** Pops `over_0` twice from the tasks tagged 0, 1, 2: first 1, then 2. */
  method PopTwice(q: Queue, over0: FilterName, above0: Predicate)
    returns (popped1: Option<QueuedTask>, popped2: Option<QueuedTask>)
    requires q.Valid() && q.CacheKeysKnown() && q.tasks == [Tagged(0), Tagged(1), Tagged(2)]
    requires over0 in q.filters && q.filters[over0] == above0 && q.nextTask == map[over0 := Some(Tagged(1))]
    requires forall t :: above0(t) <==> t.id > 0
    modifies q
    ensures popped1 == Some(Tagged(1)) && popped2 == Some(Tagged(2))
    ensures q.Valid() && q.CacheKeysKnown() && q.tasks == [Tagged(0)]
    ensures over0 in q.filters && q.filters[over0] == above0 && q.sortKey == old(q.sortKey)
  {
    assert RemoveAll([Tagged(0), Tagged(1), Tagged(2)], Tagged(1)) == [Tagged(0), Tagged(2)] by {
      RemoveAllOnce([Tagged(0), Tagged(1), Tagged(2)], 1);
    }
    popped1 := q.Pop(over0);
    assert q.tasks == [Tagged(0), Tagged(2)];
    assert RemoveAll([Tagged(0), Tagged(2)], Tagged(2)) == [Tagged(0)] by {
      RemoveAllOnce([Tagged(0), Tagged(2)], 1);
    }
    popped2 := q.Pop(over0);
  }

  /** The tasks tagged 0 to n - 1, in creation order. */
  function Tags(n: nat): (r: seq<QueuedTask>)
    ensures |r| == n && forall k :: 0 <= k < n ==> r[k] == Tagged(k)
  {
    seq(n, (k: int) requires 0 <= k => Tagged(k))
  }

  /** The block `{ |task| task.tag > m }`. */
  function TagAbove(m: int): Predicate
  {
    (t: QueuedTask) => t.id > m
  }

  /** `find` skips a prefix in which nothing matches. */
  lemma {:induction false} FindPastMisses(a: seq<QueuedTask>, b: seq<QueuedTask>, p: Predicate)
    requires forall j :: 0 <= j < |a| ==> !p(a[j])
    ensures Find(a + b, p) == Find(b, p)
    decreases |a|
  {
    if a != [] {
      assert (a + b)[1..] == a[1..] + b;
      FindPastMisses(a[1..], b, p);
    } else {
      assert a + b == b;
    }
  }

  /** `count` adds nothing for a prefix in which nothing matches. */
  lemma {:induction false} CountPastMisses(a: seq<QueuedTask>, b: seq<QueuedTask>, p: Predicate)
    requires forall j :: 0 <= j < |a| ==> !p(a[j])
    ensures Count(a + b, p) == Count(b, p)
    decreases |a|
  {
    if a != [] {
      assert (a + b)[1..] == a[1..] + b;
      CountPastMisses(a[1..], b, p);
    } else {
      assert a + b == b;
    }
  }

  /** A pop clears the entry that cached the popped task and keeps the other. */
  lemma PopClearsEntry(name: FilterName, first: QueuedTask, t: QueuedTask)
    requires name != Unnamed && first != t
    ensures CacheAfterPop(MemoizedAsWritten(map[Unnamed := Some(first), name := Some(t)], name, Some(t)), t) ==
            map[Unnamed := Some(first), name := None]
  {
    var m := map[Unnamed := Some(first), name := Some(t)];
    assert MemoizedAsWritten(m, name, Some(t)) == m;
    var r := CacheAfterPop(m, t);
    assert r.Keys == m.Keys && r[Unnamed] == Some(first) && r[name] == None;
  }

  /** The `||=` memo on the filter's entry: a cached task stays, a nil entry takes the answer. */
  lemma MemoStoresEntry(name: FilterName, first: QueuedTask, cached: Option<QueuedTask>, r: Option<QueuedTask>)
    requires name != Unnamed
    ensures MemoizedAsWritten(map[Unnamed := Some(first), name := cached], name, r) ==
            map[Unnamed := Some(first), name := if cached.Some? then cached else r]
  {
    var m := map[Unnamed := Some(first), name := cached];
    var after := MemoizedAsWritten(m, name, r);
    assert after.Keys == m.Keys && after[Unnamed] == Some(first);
  }

  /** A push fills the nil entry of a filter that accepts the task and keeps the other. */
  lemma PushFillsEntry(filters: map<FilterName, Predicate>, name: FilterName, first: QueuedTask, t: QueuedTask)
    requires name != Unnamed && name in filters && filters[name](t)
    ensures CacheAfterPush(map[Unnamed := Some(first), name := None], filters, t) ==
            map[Unnamed := Some(first), name := Some(t)]
  {
    var r := CacheAfterPush(map[Unnamed := Some(first), name := None], filters, t);
    assert r.Keys == {Unnamed, name} && r[Unnamed] == Some(first) && r[name] == Some(t);
  }

  /** Deleting the task tagged 8 from the ten tagged tasks leaves 0 to 7 and 9. */
  lemma RemoveEighth()
    ensures RemoveAll(Tags(10), Tagged(8)) == Tags(8) + [Tagged(9)]
  {
    RemoveAllOnce(Tags(10), 8);
    assert Tags(10)[..8] + Tags(10)[9..] == Tags(8) + [Tagged(9)];
  }

  /** Deleting the task tagged 9 from 0 to 7 and 9 leaves 0 to 7. */
  lemma RemoveNinth()
    ensures RemoveAll(Tags(8) + [Tagged(9)], Tagged(9)) == Tags(8)
  {
    RemoveAllOnce(Tags(8) + [Tagged(9)], 8);
    assert (Tags(8) + [Tagged(9)])[..8] + (Tags(8) + [Tagged(9)])[9..] == Tags(8);
  }

  /** The ten tagged tasks of the filtering test, pushed in creation order. */
  method TenTagged() returns (q: Queue)
    ensures fresh(q) && q.Valid() && q.CacheKeysKnown()
    ensures q.tasks == Tags(10)
    ensures q.filters == ClassFilters([]) && q.nextTask == map[] && q.sortKey == DefaultSortKey()
  {
    q := new Queue([]);
    var n := 0;
    while n < 10
      invariant 0 <= n <= 10 && q.Valid() && q.CacheKeysKnown() && q.tasks == Tags(n)
      invariant q.filters == ClassFilters([]) && q.nextTask == map[] && q.sortKey == DefaultSortKey()
    {
      PushTagged(q, n);
      assert Tags(n) + [Tagged(n)] == Tags(n + 1);
      n := n + 1;
    }
  }

  /**
   * The queue of the filtering test once `filter(:over_7)` is registered:
   * the backlog `tasks`, the unfiltered peek's cached task 0, and `cached`
   * under `over_7`.
   */
  ghost predicate Over7State(q: Queue, over7: FilterName, tasks: seq<QueuedTask>, cached: Option<QueuedTask>)
    reads q
  {
    q.Valid() && q.CacheKeysKnown() && q.tasks == tasks && q.sortKey == DefaultSortKey() && over7 != Unnamed &&
    q.filters == ClassFilters([])[over7 := TagAbove(7)] &&
    q.nextTask == map[Unnamed := Some(Tagged(0)), over7 := cached]
  }

  /** On the ten tagged tasks: the length, and the unfiltered peek, which caches the task tagged 0. */
  method PeekUnfiltered(q: Queue) returns (length: Option<nat>, first: Option<QueuedTask>)
    requires q.Valid() && q.CacheKeysKnown() && q.tasks == Tags(10) && q.sortKey == DefaultSortKey()
    requires q.filters == ClassFilters([]) && q.nextTask == map[]
    modifies q
    ensures length == Some(10) && first == Some(Tagged(0))
    ensures q.Valid() && q.CacheKeysKnown() && q.tasks == Tags(10) && q.sortKey == DefaultSortKey()
    ensures q.filters == ClassFilters([]) && q.nextTask == map[Unnamed := Some(Tagged(0))]
  {
    length := q.Length(Unnamed);
    assert q.filters[Unnamed](Tagged(0));
    first := q.PeekAsWritten(Unnamed);
  }

  /** The block peek for tags above 0 answers the task tagged 1 and changes nothing. */
  method PeekAboveZero(q: Queue) returns (selected: Option<QueuedTask>)
    requires q.tasks == Tags(10)
    ensures selected == Some(Tagged(1))
  {
    assert Tags(10) == Tags(1) + Tags(10)[1..];
    FindPastMisses(Tags(1), Tags(10)[1..], TagAbove(0));
    selected := q.PeekWith(TagAbove(0));
  }

  /** `filter(:over_7)` registers the block and caches its first match, the task tagged 8. */
  method FilterOver7(q: Queue, over7: FilterName)
    requires q.Valid() && q.CacheKeysKnown() && q.tasks == Tags(10) && q.sortKey == DefaultSortKey()
    requires q.filters == ClassFilters([]) && q.nextTask == map[Unnamed := Some(Tagged(0))] && over7 != Unnamed
    modifies q
    ensures Over7State(q, over7, Tags(10), Some(Tagged(8)))
  {
    assert Tags(10) == Tags(8) + [Tagged(8), Tagged(9)];
    FindPastMisses(Tags(8), [Tagged(8), Tagged(9)], TagAbove(7));
    q.Filter(over7, TagAbove(7));
  }

  /** `over_7` answers the task tagged 8, with two matches. */
  method AskAfterFilter(q: Queue, over7: FilterName) returns (peeked: Option<QueuedTask>, matching: Option<nat>)
    requires Over7State(q, over7, Tags(10), Some(Tagged(8)))
    modifies q
    ensures peeked == Some(Tagged(8)) && matching == Some(2)
    ensures Over7State(q, over7, Tags(10), Some(Tagged(8)))
  {
    MemoStoresEntry(over7, Tagged(0), Some(Tagged(8)), Some(Tagged(8)));
    peeked := q.PeekAsWritten(over7);
    assert Tags(10) == Tags(8) + [Tagged(8), Tagged(9)];
    CountPastMisses(Tags(8), [Tagged(8), Tagged(9)], TagAbove(7));
    assert Count([Tagged(9)], TagAbove(7)) == 1;
    matching := q.Length(over7);
  }

  /** The first `pop(:over_7)` takes the task tagged 8 and clears its cache entry. */
  method PopEighth(q: Queue, over7: FilterName) returns (pulled: Option<QueuedTask>)
    requires Over7State(q, over7, Tags(10), Some(Tagged(8)))
    modifies q
    ensures pulled == Some(Tagged(8))
    ensures Over7State(q, over7, Tags(8) + [Tagged(9)], None)
  {
    RemoveEighth();
    PopClearsEntry(over7, Tagged(0), Tagged(8));
    pulled := q.Pop(over7);
  }

  /** Nine tasks are left; `over_7` now answers the task tagged 9, with one match. */
  method AskAfterEighth(q: Queue, over7: FilterName)
    returns (length: Option<nat>, peeked: Option<QueuedTask>, matching: Option<nat>)
    requires Over7State(q, over7, Tags(8) + [Tagged(9)], None)
    modifies q
    ensures length == Some(9) && peeked == Some(Tagged(9)) && matching == Some(1)
    ensures Over7State(q, over7, Tags(8) + [Tagged(9)], Some(Tagged(9)))
  {
    length := q.Length(Unnamed);
    CountPastMisses(Tags(8), [Tagged(9)], TagAbove(7));
    matching := q.Length(over7);
    FindPastMisses(Tags(8), [Tagged(9)], TagAbove(7));
    MemoStoresEntry(over7, Tagged(0), None, Some(Tagged(9)));
    peeked := q.PeekAsWritten(over7);
  }

  /** The second `pop(:over_7)` takes the task tagged 9. */
  method PopNinth(q: Queue, over7: FilterName) returns (pulled: Option<QueuedTask>)
    requires Over7State(q, over7, Tags(8) + [Tagged(9)], Some(Tagged(9)))
    modifies q
    ensures pulled == Some(Tagged(9))
    ensures Over7State(q, over7, Tags(8), None)
  {
    RemoveNinth();
    PopClearsEntry(over7, Tagged(0), Tagged(9));
    pulled := q.Pop(over7);
  }

  /** With no task above 7 left, `over_7` answers nil, has no match and is empty. */
  method AskAfterNinth(q: Queue, over7: FilterName)
    returns (peeked: Option<QueuedTask>, matching: Option<nat>, empty: bool)
    requires Over7State(q, over7, Tags(8), None)
    modifies q
    ensures peeked == None && matching == Some(0) && empty
    ensures Over7State(q, over7, Tags(8), None)
  {
    MemoStoresEntry(over7, Tagged(0), None, None);
    peeked := q.PeekAsWritten(over7);
    matching := q.Length(over7);
    empty := q.IsEmpty(over7);
  }

  /** Pushing the task tagged 10 appends it, and the emptied `over_7` entry caches it. */
  method PushTenth(q: Queue, over7: FilterName) returns (pushed: Result<QueuedTask, QueueError>)
    requires Over7State(q, over7, Tags(8), None)
    modifies q
    ensures pushed == Success(Tagged(10))
    ensures Over7State(q, over7, Tags(8) + [Tagged(10)], Some(Tagged(10)))
  {
    assert InsertionPoint(Tags(8), q.sortKey, 10) == 8;
    assert Tags(8)[..8] == Tags(8);
    PushFillsEntry(q.filters, over7, Tagged(0), Tagged(10));
    pushed := q.Push(Tagged(10));
  }

  /** `over_7` answers the new task, with one match, and is not empty. */
  method AskAfterTenth(q: Queue, over7: FilterName)
    returns (peeked: Option<QueuedTask>, matching: Option<nat>, empty: bool)
    requires Over7State(q, over7, Tags(8) + [Tagged(10)], Some(Tagged(10)))
    modifies q
    ensures peeked == Some(Tagged(10)) && matching == Some(1) && !empty
    ensures Over7State(q, over7, Tags(8) + [Tagged(10)], Some(Tagged(10)))
  {
    peeked := q.PeekAsWritten(over7);
    CountPastMisses(Tags(8), [Tagged(10)], TagAbove(7));
    matching := q.Length(over7);
    empty := q.IsEmpty(over7);
  }

  /**
   * The filtering test: ten tagged tasks, the unfiltered and block peeks,
   * then `filter(:over_7)` popped twice and a new task tagged 10. The
   * lengths, peeks, pops and `empty?` answers are listed in the test's order.
   */
  method FilteringScenario() returns (lengths: seq<Option<nat>>, peeks: seq<Option<QueuedTask>>,
                                      pops: seq<Option<QueuedTask>>, empties: seq<bool>,
                                      pushed: Result<QueuedTask, QueueError>)
    ensures lengths == [Some(10), Some(2), Some(9), Some(1), Some(0), Some(1)]
    ensures peeks == [Some(Tagged(0)), Some(Tagged(1)), Some(Tagged(8)), Some(Tagged(9)), None, Some(Tagged(10))]
    ensures pops == [Some(Tagged(8)), Some(Tagged(9))]
    ensures empties == [true, false] && pushed == Success(Tagged(10))
  {
    var q := TenTagged();
    var over7 := Named("over_7");
    var length, first := PeekUnfiltered(q);
    var selected := PeekAboveZero(q);
    FilterOver7(q, over7);
    var peeked8, matching2 := AskAfterFilter(q, over7);
    var pulled8 := PopEighth(q, over7);
    var length9, peeked9, matching1 := AskAfterEighth(q, over7);
    var pulled9 := PopNinth(q, over7);
    var peekedNone, matching0, emptied := AskAfterNinth(q, over7);
    pushed := PushTenth(q, over7);
    var peekedNew, matchingNew, stillEmpty := AskAfterTenth(q, over7);
    lengths := [length, matching2, length9, matching1, matching0, matchingNew];
    peeks := [first, selected, peeked8, peeked9, peekedNone, peekedNew];
    pops := [pulled8, pulled9];
    empties := [emptied, stillEmpty];
  }

}
