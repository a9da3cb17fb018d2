/**
 * Pigeon::SortedArray: an array of integers that keeps itself ordered by a
 * comparator chosen, when the array is created, from the arity of the block
 * it is given.
 */
module SortedArrays {
  import opened Wrappers

  /** A comparison in the style of Ruby's `<=>`: negative, zero or positive. */
  type Comparator = (int, int) -> int

  /** The block handed to `SortedArray.new`, told apart by its arity. */
  datatype SortBlock =
    | NoBlock                               // no block: `a <=> b` is used
    | TwoArgs(compare: (int, int) -> int)   // arity 2: used as the comparator
    | OneArg(key: int -> int)               // arity 1: a sort key
    | OtherArity(arity: int)                // any other arity: refused

  /** Raised by the constructor for a block of the wrong arity. */
  datatype SortError = SortArgumentRequired

  /** Ruby's `<=>` on integers. */
  function Spaceship(a: int, b: int): (r: int)
    ensures r < 0 <==> a < b
    ensures r > 0 <==> a > b
    ensures -1 <= r <= 1
  {
    if a < b then -1 else if a > b then 1 else 0
  }

  /** The comparison of two elements by a sort key. */
  function KeyCompare(key: int -> int): (cmp: Comparator)
  {
    (a, b) => Spaceship(key(a), key(b))
  }

  /** The comparator the constructor stores for a block (sorted_array.rb, `initialize`). */
  function SelectComparator(block: SortBlock): (r: Result<Comparator, SortError>)
    ensures r.Failure? <==> block.OtherArity?
    ensures block.NoBlock? ==> r.Success? && forall a, b :: r.value(a, b) == Spaceship(a, b)
    ensures block.TwoArgs? ==> r == Success(block.compare)
    ensures block.OneArg? ==>
      r.Success? && forall a, b :: r.value(a, b) == Spaceship(block.key(a), block.key(b))
  {
    match block
    case NoBlock => Success(Spaceship)
    case TwoArgs(compare) => Success(compare)
    case OneArg(key) => Success(KeyCompare(key))
    case OtherArity(_) => Failure(SortArgumentRequired)
  }

  /**
   * The laws a comparator needs for "sorted" to make sense: the sign flips
   * when the arguments are swapped, and "not greater" is transitive.
   */
  ghost predicate IsTotalPreorder(cmp: Comparator)
  {
    && (forall a, b :: cmp(a, b) < 0 <==> cmp(b, a) > 0)
    && (forall a, b, c :: cmp(a, b) <= 0 && cmp(b, c) <= 0 ==> cmp(a, c) <= 0)
  }

  ghost predicate Sorted(s: seq<int>, cmp: Comparator)
  {
    forall i, j :: 0 <= i < j < |s| ==> cmp(s[i], s[j]) <= 0
  }

  /** No element of `s` compares equal to `x`. */
  ghost predicate NoTie(s: seq<int>, x: int, cmp: Comparator)
  {
    forall k :: 0 <= k < |s| ==> cmp(x, s[k]) != 0
  }

  /** The sign of a comparison flips when its arguments are swapped. */
  lemma Flip(cmp: Comparator, a: int, b: int)
    requires IsTotalPreorder(cmp)
    ensures cmp(a, b) < 0 <==> cmp(b, a) > 0
    ensures cmp(a, b) > 0 <==> cmp(b, a) < 0
    ensures cmp(a, b) == 0 <==> cmp(b, a) == 0
  {
    assert cmp(b, a) < 0 <==> cmp(a, b) > 0;
  }

  /** "Not greater" chains, and a strict step keeps the chain strict. */
  lemma Chain(cmp: Comparator, a: int, b: int, c: int)
    requires IsTotalPreorder(cmp) && cmp(a, b) <= 0 && cmp(b, c) <= 0
    ensures cmp(a, c) <= 0
    ensures cmp(a, b) < 0 || cmp(b, c) < 0 ==> cmp(a, c) < 0
  {
    if cmp(a, c) == 0 {
      Flip(cmp, a, c);
      Flip(cmp, a, b);
      Flip(cmp, b, c);
      assert cmp(c, a) <= 0;
      assert cmp(b, a) <= 0 by { assert cmp(b, c) <= 0 && cmp(c, a) <= 0; }
      assert cmp(c, b) <= 0 by { assert cmp(c, a) <= 0 && cmp(a, b) <= 0; }
    }
  }

  /** Every comparator the constructor derives itself (no block, or a key block) obeys the laws. */
  lemma DerivedComparatorIsPreorder(block: SortBlock)
    requires block.NoBlock? || block.OneArg?
    ensures SelectComparator(block).Success? && IsTotalPreorder(SelectComparator(block).value)
  {
    var cmp := SelectComparator(block).value;
    forall a, b, c | cmp(a, b) <= 0 && cmp(b, c) <= 0
      ensures cmp(a, c) <= 0
    {
      if block.OneArg? {
        assert block.key(a) <= block.key(b) <= block.key(c);
      }
    }
  }

  /** Ruby `Array#insert(i, x)` for an index within the array; the queue's backlog uses it too. */
  function InsertAt<T>(s: seq<T>, i: nat, x: T): (r: seq<T>)
    requires i <= |s|
    ensures |r| == |s| + 1 && r[i] == x
    ensures multiset(r) == multiset(s) + multiset{x}
  {
    assert s == s[..i] + s[i..];
    s[..i] + [x] + s[i..]
  }

  /** The element at index `j` after inserting `x` at `i`. */
  lemma InsertAtIndex<T>(s: seq<T>, i: nat, x: T, j: nat)
    requires i <= |s| && j <= |s|
    ensures InsertAt(s, i, x)[j] == if j < i then s[j] else if j == i then x else s[j - 1]
  {
  }

  /**
   * The binary search of `<<` (sorted_array.rb:32-47) from the window
   * [low, high): the index the loop stops at, and the probe that compared
   * equal when the loop ended by `break`.
   */
  function Probe(s: seq<int>, x: int, cmp: Comparator, low: nat, high: nat): (r: (nat, Option<nat>))
    requires low <= high <= |s|
    decreases high - low
    ensures low <= r.0 <= high
    ensures r.1.Some? ==> r.0 <= r.1.value < high && cmp(x, s[r.1.value]) == 0
  {
    if low == high then (low, None)
    else
      var mid := (low + high) / 2;
      var comparison := cmp(x, s[mid]);
      if comparison < 0 then Probe(s, x, cmp, low, mid)
      else if comparison > 0 then Probe(s, x, cmp, mid + 1, high)
      else (low, Some(mid))
  }

  /**
   * On a sorted array the search keeps everything left of `low` strictly
   * below `x` and, when no probe ties, everything from `low` on strictly above it.
   */
  lemma {:induction false} ProbeSeparates(s: seq<int>, x: int, cmp: Comparator, low: nat, high: nat)
    requires IsTotalPreorder(cmp) && Sorted(s, cmp)
    requires low <= high <= |s|
    requires forall k :: 0 <= k < low ==> cmp(x, s[k]) > 0
    requires forall k :: high <= k < |s| ==> cmp(x, s[k]) < 0
    ensures var r := Probe(s, x, cmp, low, high);
      && (forall k :: 0 <= k < r.0 ==> cmp(x, s[k]) > 0)
      && (r.1.None? ==> forall k :: r.0 <= k < |s| ==> cmp(x, s[k]) < 0)
    decreases high - low
  {
    if low < high {
      var mid := (low + high) / 2;
      var comparison := cmp(x, s[mid]);
      if comparison < 0 {
        AboveFrom(s, x, cmp, mid);
        ProbeSeparates(s, x, cmp, low, mid);
      } else if comparison > 0 {
        BelowThrough(s, x, cmp, mid);
        ProbeSeparates(s, x, cmp, mid + 1, high);
      }
    }
  }

  /** In a sorted array, everything from an element above `x` on is above `x`. */
  lemma AboveFrom(s: seq<int>, x: int, cmp: Comparator, m: nat)
    requires IsTotalPreorder(cmp) && Sorted(s, cmp) && m < |s| && cmp(x, s[m]) < 0
    ensures forall k :: m <= k < |s| ==> cmp(x, s[k]) < 0
  {
    forall k | m < k < |s| ensures cmp(x, s[k]) < 0 {
      Chain(cmp, x, s[m], s[k]);
    }
  }

  /** In a sorted array, everything up to an element below `x` is below `x`. */
  lemma BelowThrough(s: seq<int>, x: int, cmp: Comparator, m: nat)
    requires IsTotalPreorder(cmp) && Sorted(s, cmp) && m < |s| && cmp(x, s[m]) > 0
    ensures forall k :: 0 <= k <= m ==> cmp(x, s[k]) > 0
  {
    Flip(cmp, x, s[m]);
    forall k | 0 <= k < m ensures cmp(x, s[k]) > 0 {
      Chain(cmp, s[k], s[m], x);
      Flip(cmp, s[k], x);
    }
  }

  /** Inserting between a prefix that is not above `x` and a suffix that is not below it keeps a sorted array sorted. */
  lemma InsertBetweenSorted(s: seq<int>, i: nat, x: int, cmp: Comparator)
    requires IsTotalPreorder(cmp) && Sorted(s, cmp) && i <= |s|
    requires forall k :: 0 <= k < i ==> cmp(s[k], x) <= 0
    requires forall k :: i <= k < |s| ==> cmp(x, s[k]) <= 0
    ensures Sorted(InsertAt(s, i, x), cmp)
  {
    var r := InsertAt(s, i, x);
    forall a, b | 0 <= a < b < |r| ensures cmp(r[a], r[b]) <= 0 {
      if a < i && b == i {
      } else if a < i && b > i {
        assert r[a] == s[a] && r[b] == s[b - 1];
      } else if a == i {
        assert r[b] == s[b - 1];
      } else if a > i {
        assert r[a] == s[a - 1] && r[b] == s[b - 1];
      }
    }
  }

  /**
   * The insertion index of `<<` as written, on a sorted array and an object
   * that ties with no element, keeps the array sorted.
   */
  lemma SearchIndexSortedWithoutTies(s: seq<int>, x: int, cmp: Comparator)
    requires IsTotalPreorder(cmp) && Sorted(s, cmp) && NoTie(s, x, cmp)
    ensures Probe(s, x, cmp, 0, |s|).1.None?
    ensures Sorted(InsertAt(s, Probe(s, x, cmp, 0, |s|).0, x), cmp)
  {
    var r := Probe(s, x, cmp, 0, |s|);
    ProbeSeparates(s, x, cmp, 0, |s|);
    forall k | 0 <= k < r.0 ensures cmp(s[k], x) <= 0 {
      Flip(cmp, x, s[k]);
    }
    InsertBetweenSorted(s, r.0, x, cmp);
  }

  /**
   * The tie case of `<<` as written: inserting 2 into [1, 2] stops at the
   * equal element with `low` still 0, so the result [2, 1, 2] is unsorted.
   */
  lemma TieInsertsOutOfOrder()
    ensures Probe([1, 2], 2, Spaceship, 0, 2) == (0, Some(1))
    ensures InsertAt([1, 2], 0, 2) == [2, 1, 2]
    ensures !Sorted([2, 1, 2], Spaceship)
  {
    assert [1, 2][1] == 2;
    var r := [2, 1, 2];
    assert Spaceship(r[0], r[1]) > 0;
  }

  /** The corrected insertion index: the equal element's position when the search stopped on a tie. */
  function CorrectedIndex(s: seq<int>, x: int, cmp: Comparator): (i: nat)
    ensures i <= |s|
  {
    var r := Probe(s, x, cmp, 0, |s|);
    if r.1.Some? then r.1.value else r.0
  }

  /** With the corrected index, insertion keeps any sorted array sorted, ties included. */
  lemma CorrectedIndexSorted(s: seq<int>, x: int, cmp: Comparator)
    requires IsTotalPreorder(cmp) && Sorted(s, cmp)
    ensures Sorted(InsertAt(s, CorrectedIndex(s, x, cmp), x), cmp)
  {
    var r := Probe(s, x, cmp, 0, |s|);
    var i := CorrectedIndex(s, x, cmp);
    ProbeSeparates(s, x, cmp, 0, |s|);
    if r.1.Some? {
      var mid := r.1.value;
      Flip(cmp, x, s[mid]);
      forall k | 0 <= k < mid ensures cmp(s[k], x) <= 0 {
        Chain(cmp, s[k], s[mid], x);
      }
      forall k | mid <= k < |s| ensures cmp(x, s[k]) <= 0 {
        if k > mid {
          Chain(cmp, x, s[mid], s[k]);
        }
      }
    } else {
      forall k | 0 <= k < i ensures cmp(s[k], x) <= 0 {
        Flip(cmp, x, s[k]);
      }
    }
    InsertBetweenSorted(s, i, x, cmp);
  }

  /** Inserts `x` before the first element it does not exceed. */
  function InsertSorted(x: int, s: seq<int>, cmp: Comparator): (r: seq<int>)
    ensures multiset(r) == multiset(s) + multiset{x}
    ensures |r| == |s| + 1
  {
    if s == [] || cmp(x, s[0]) <= 0 then [x] + s
    else
      assert s == [s[0]] + s[1..];
      [s[0]] + InsertSorted(x, s[1..], cmp)
  }

  /** A sort by the comparator; Ruby's `Array#sort` promises only a sorted permutation. */
  function SortSeq(s: seq<int>, cmp: Comparator): (r: seq<int>)
    ensures multiset(r) == multiset(s)
  {
    if s == [] then []
    else
      assert s == [s[0]] + s[1..];
      InsertSorted(s[0], SortSeq(s[1..], cmp), cmp)
  }

  /** A lower bound of `x` and of every element of `s` bounds every element of the insertion. */
  lemma {:induction false} InsertSortedBound(b: int, x: int, s: seq<int>, cmp: Comparator)
    requires cmp(b, x) <= 0
    requires forall k :: 0 <= k < |s| ==> cmp(b, s[k]) <= 0
    ensures forall k :: 0 <= k < |InsertSorted(x, s, cmp)| ==> cmp(b, InsertSorted(x, s, cmp)[k]) <= 0
  {
    if s != [] && cmp(x, s[0]) > 0 {
      InsertSortedBound(b, x, s[1..], cmp);
      var t := InsertSorted(x, s[1..], cmp);
      assert InsertSorted(x, s, cmp) == [s[0]] + t;
    }
  }

  /** A lower bound of a sorted array can be put in front of it. */
  lemma PrependSorted(h: int, t: seq<int>, cmp: Comparator)
    requires Sorted(t, cmp)
    requires forall k :: 0 <= k < |t| ==> cmp(h, t[k]) <= 0
    ensures Sorted([h] + t, cmp)
  {
    var r := [h] + t;
    forall a, b | 0 <= a < b < |r| ensures cmp(r[a], r[b]) <= 0 {
      assert r[b] == t[b - 1];
      if a > 0 {
        assert r[a] == t[a - 1];
      }
    }
  }

  lemma {:induction false} InsertSortedKeepsSorted(x: int, s: seq<int>, cmp: Comparator)
    requires IsTotalPreorder(cmp) && Sorted(s, cmp)
    ensures Sorted(InsertSorted(x, s, cmp), cmp)
  {
    if s == [] || cmp(x, s[0]) <= 0 {
      forall k | 0 <= k < |s| ensures cmp(x, s[k]) <= 0 {
        if k > 0 {
          Chain(cmp, x, s[0], s[k]);
        }
      }
      PrependSorted(x, s, cmp);
    } else {
      var t := InsertSorted(x, s[1..], cmp);
      assert InsertSorted(x, s, cmp) == [s[0]] + t;
      InsertSortedKeepsSorted(x, s[1..], cmp);
      Flip(cmp, x, s[0]);
      InsertSortedBound(s[0], x, s[1..], cmp);
      PrependSorted(s[0], t, cmp);
    }
  }

  lemma {:induction false} SortSeqSorted(s: seq<int>, cmp: Comparator)
    requires IsTotalPreorder(cmp)
    ensures Sorted(SortSeq(s, cmp), cmp)
  {
    if s != [] {
      SortSeqSorted(s[1..], cmp);
      InsertSortedKeepsSorted(s[0], SortSeq(s[1..], cmp), cmp);
    }
  }

  lemma SortTwoReversed()
    ensures SortSeq([1, 0], Spaceship) == [0, 1]
  {
    assert [1, 0][1..] == [0] && [0][1..] == [];
    assert SortSeq([0], Spaceship) == [0];
    assert InsertSorted(1, [0], Spaceship) == [0, 1];
  }

  lemma InsertTwoAboveSorted()
    ensures InsertSorted(2, [0, 1], Spaceship) == [0, 1, 2]
  {
    assert [0, 1][1..] == [1] && [1][1..] == [];
    assert InsertSorted(2, [1], Spaceship) == [1, 2];
  }

  /** An object above every element of the window makes the search run to its end without a tie. */
  lemma {:induction false} ProbeAboveAll(s: seq<int>, x: int, cmp: Comparator, low: nat, high: nat)
    requires low <= high <= |s|
    requires forall k :: low <= k < high ==> cmp(x, s[k]) > 0
    ensures Probe(s, x, cmp, low, high) == (high, None)
    decreases high - low
  {
    if low < high {
      ProbeAboveAll(s, x, cmp, (low + high) / 2 + 1, high);
    }
  }

  /** The first `n` naturals in order. */
  function Naturals(n: nat): (r: seq<int>)
    ensures |r| == n && forall k :: 0 <= k < n ==> r[k] == k
  {
    if n == 0 then [] else Naturals(n - 1) + [n - 1]
  }

  /** `<<` of `n` onto the first `n` naturals probes past the end and appends it. */
  lemma NextNaturalGoesLast(n: nat)
    ensures InsertAt(Naturals(n), Probe(Naturals(n), n, Spaceship, 0, n).0, n) == Naturals(n + 1)
  {
    ProbeAboveAll(Naturals(n), n, Spaceship, 0, n);
    assert Naturals(n)[..n] == Naturals(n);
  }

  /** The reversed sequence comes out ascending under the default comparator. */
  lemma PlusSortsReversed()
    ensures SortSeq([] + [2, 1, 0], Spaceship) == [0, 1, 2]
  {
    assert [] + [2, 1, 0] == [2, 1, 0] && [2, 1, 0][1..] == [1, 0];
    SortTwoReversed();
    InsertTwoAboveSorted();
  }

  /** A Pigeon::SortedArray: its elements, in place, and the comparator fixed at construction. */
  class SortedArray {
    const cmp: Comparator
    var elems: seq<int>

    /** An empty array that sorts by `cmp`. */
    constructor (cmp: Comparator)
      ensures this.cmp == cmp && elems == []
    {
      this.cmp := cmp;
      elems := [];
    }

    /** `SortedArray.new(&block)`: picks the comparator by the block's arity, or raises. */
    static method New(block: SortBlock) returns (r: Result<SortedArray, SortError>)
      ensures r.Failure? <==> block.OtherArity?
      ensures r.Success? ==>
        && fresh(r.value) && r.value.elems == []
        && r.value.cmp == SelectComparator(block).value
    {
      var c := SelectComparator(block);
      if c.Failure? {
        return Failure(c.error);
      }
      var a := new SortedArray(c.value);
      return Success(a);
    }

    /**
     * `<<` as written: binary search, then insertion at `low`. The array grows
     * by exactly `x`; it stays sorted when no element ties with `x`.
     */
    method Push(x: int)
      modifies this
      ensures elems == InsertAt(old(elems), Probe(old(elems), x, cmp, 0, |old(elems)|).0, x)
      ensures |elems| == |old(elems)| + 1
      ensures multiset(elems) == multiset(old(elems)) + multiset{x}
      ensures IsTotalPreorder(cmp) && Sorted(old(elems), cmp) && NoTie(old(elems), x, cmp) ==>
        Sorted(elems, cmp)
    {
      var low: nat := 0;
      var high: nat := |elems|;
      while low != high
        invariant low <= high <= |elems|
        invariant Probe(elems, x, cmp, low, high) == Probe(elems, x, cmp, 0, |elems|)
        decreases high - low
      {
        var mid := (high + low) / 2;
        var comparison := cmp(x, elems[mid]);
        if comparison < 0 {
          high := mid;
        } else if comparison > 0 {
          low := mid + 1;
        } else {
          break;
        }
      }
      if IsTotalPreorder(cmp) && Sorted(elems, cmp) && NoTie(elems, x, cmp) {
        SearchIndexSortedWithoutTies(elems, x, cmp);
      }
      elems := InsertAt(elems, low, x);
    }

    /** `<<` with the tie case corrected: the object goes where the equal element was found. */
    method PushCorrected(x: int)
      modifies this
      ensures elems == InsertAt(old(elems), CorrectedIndex(old(elems), x, cmp), x)
      ensures multiset(elems) == multiset(old(elems)) + multiset{x}
      ensures IsTotalPreorder(cmp) && Sorted(old(elems), cmp) ==> Sorted(elems, cmp)
    {
      var low: nat := 0;
      var high: nat := |elems|;
      var insertAt: nat := 0;
      while true
        invariant low <= high <= |elems|
        invariant Probe(elems, x, cmp, low, high) == Probe(elems, x, cmp, 0, |elems|)
        decreases high - low
      {
        if low == high {
          insertAt := low;
          break;
        }
        var mid := (high + low) / 2;
        var comparison := cmp(x, elems[mid]);
        if comparison < 0 {
          high := mid;
        } else if comparison > 0 {
          low := mid + 1;
        } else {
          insertAt := mid;
          break;
        }
      }
      assert insertAt == CorrectedIndex(elems, x, cmp);
      if IsTotalPreorder(cmp) && Sorted(elems, cmp) {
        CorrectedIndexSorted(elems, x, cmp);
      }
      elems := InsertAt(elems, insertAt, x);
    }

    /** `+`: the concatenation with `other`, sorted by this array's comparator. */
    function Plus(other: seq<int>): (r: seq<int>)
      reads this
      ensures multiset(r) == multiset(elems + other)
      ensures IsTotalPreorder(cmp) ==> Sorted(r, cmp)
      ensures elems == [] && other == [] ==> r == []
    {
      assert IsTotalPreorder(cmp) ==> Sorted(SortSeq(elems + other, cmp), cmp) by {
        if IsTotalPreorder(cmp) {
          SortSeqSorted(elems + other, cmp);
        }
      }
      SortSeq(elems + other, cmp)
    }
  }

  /** `<<` of 0 through 9 in order into a new default array gives 0 through 9. */
  method InsertionInOrder() returns (a: SortedArray)
    ensures fresh(a) && a.elems == Naturals(10)
  {
    a := new SortedArray(Spaceship);
    var n := 0;
    while n < 10
      invariant 0 <= n <= 10 && a.cmp == Spaceship && a.elems == Naturals(n)
    {
      NextNaturalGoesLast(n);
      a.Push(n);
      n := n + 1;
    }
  }
}
