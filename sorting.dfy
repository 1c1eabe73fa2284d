/**
 * Python's `list.sort(key=...)` and `sorted(..., key=...)`: a stable sort. The key
 * comparison is given as a total preorder `le` on the elements ("key(a) <= key(b)").
 * Stability is stated per equivalence class: the elements whose keys are equal
 * come out in the order they went in.
 */
module StableSort {

  /** `le` is total and transitive: comparing keys of a Python sort. */
  ghost predicate TotalPreorder<T(!new)>(le: (T, T) -> bool) {
    && (forall a, b :: le(a, b) || le(b, a))
    && (forall a, b, c :: le(a, b) && le(b, c) ==> le(a, c))
  }

  predicate Sorted<T>(s: seq<T>, le: (T, T) -> bool) {
    forall i, j :: 0 <= i < j < |s| ==> le(s[i], s[j])
  }

  /** Equal sort keys. */
  predicate Equivalent<T>(le: (T, T) -> bool, a: T, b: T) {
    le(a, b) && le(b, a)
  }

  /** The elements of `s` whose key equals that of `x`, in their order in `s`. */
  function ClassOf<T>(s: seq<T>, le: (T, T) -> bool, x: T): seq<T> {
    if s == [] then []
    else (if Equivalent(le, s[0], x) then [s[0]] else []) + ClassOf(s[1..], le, x)
  }

  /** Puts `x` in front of the first element whose key is not smaller than its own. */
  function Insert<T>(x: T, s: seq<T>, le: (T, T) -> bool): (r: seq<T>)
    ensures multiset(r) == multiset(s) + multiset{x}
  {
    if s == [] || le(x, s[0]) then [x] + s
    else
      assert s == [s[0]] + s[1..];
      [s[0]] + Insert(x, s[1..], le)
  }

  /** Insertion sort, building the result from the back of the input. */
  function Sort<T>(s: seq<T>, le: (T, T) -> bool): (r: seq<T>)
    ensures multiset(r) == multiset(s)
    ensures |r| == |s|
  {
    if s == [] then []
    else
      assert s == [s[0]] + s[1..];
      Insert(s[0], Sort(s[1..], le), le)
  }

  lemma {:induction false} InsertSorted<T(!new)>(x: T, s: seq<T>, le: (T, T) -> bool)
    requires TotalPreorder(le)
    requires Sorted(s, le)
    ensures Sorted(Insert(x, s, le), le)
  {
    if s == [] || le(x, s[0]) {
    } else {
      var tail := Insert(x, s[1..], le);
      InsertSorted(x, s[1..], le);
      forall y | y in tail ensures le(s[0], y) {
        assert y in multiset(tail);
        if y != x {
          assert y in multiset(s[1..]);
          var j :| 0 <= j < |s[1..]| && s[1..][j] == y;
          assert s[j + 1] == y;
        }
      }
      var r := [s[0]] + tail;
      forall i, j | 0 <= i < j < |r| ensures le(r[i], r[j]) {
        if i == 0 {
          assert r[j] in tail;
        } else {
          assert r[i] == tail[i - 1] && r[j] == tail[j - 1];
        }
      }
    }
  }

  /** The sort puts its output in non-decreasing key order. */
  lemma {:induction false} SortSorted<T(!new)>(s: seq<T>, le: (T, T) -> bool)
    requires TotalPreorder(le)
    ensures Sorted(Sort(s, le), le)
  {
    if s != [] {
      SortSorted(s[1..], le);
      InsertSorted(s[0], Sort(s[1..], le), le);
    }
  }

  lemma {:induction false} ClassOfConcat<T>(a: seq<T>, b: seq<T>, le: (T, T) -> bool, x: T)
    ensures ClassOf(a + b, le, x) == ClassOf(a, le, x) + ClassOf(b, le, x)
  {
    if a == [] {
      assert a + b == b;
    } else {
      assert (a + b)[1..] == a[1..] + b;
      ClassOfConcat(a[1..], b, le, x);
    }
  }

  /** Inserting `y` adds it at the front of its own class and changes no other class. */
  lemma {:induction false} InsertClass<T(!new)>(y: T, s: seq<T>, le: (T, T) -> bool, x: T)
    requires TotalPreorder(le)
    requires Sorted(s, le)
    ensures ClassOf(Insert(y, s, le), le, x)
            == (if Equivalent(le, y, x) then [y] else []) + ClassOf(s, le, x)
  {
    if s == [] || le(y, s[0]) {
      ClassOfConcat([y], s, le, x);
    } else {
      InsertClass(y, s[1..], le, x);
      ClassOfConcat([s[0]], Insert(y, s[1..], le), le, x);
      ClassOfConcat([s[0]], s[1..], le, x);
      assert s == [s[0]] + s[1..];
    }
  }

  /** Stability: within each class of equal keys, the order of the input is kept. */
  lemma {:induction false} SortStable<T(!new)>(s: seq<T>, le: (T, T) -> bool, x: T)
    requires TotalPreorder(le)
    ensures ClassOf(Sort(s, le), le, x) == ClassOf(s, le, x)
  {
    if s != [] {
      SortStable(s[1..], le, x);
      SortSorted(s[1..], le);
      InsertClass(s[0], Sort(s[1..], le), le, x);
      ClassOfConcat([s[0]], s[1..], le, x);
      assert s == [s[0]] + s[1..];
    }
  }

  /** No two elements of `s` share a value of `f`. */
  predicate InjectiveOn<T, K(==)>(s: seq<T>, f: T -> K) {
    forall i, j :: 0 <= i < j < |s| ==> f(s[i]) != f(s[j])
  }

  lemma {:induction false} InsertKeepsInjective<T, K>(x: T, s: seq<T>, le: (T, T) -> bool, f: T -> K)
    requires InjectiveOn(s, f)
    requires forall y :: y in s ==> f(y) != f(x)
    ensures InjectiveOn(Insert(x, s, le), f)
  {
    if s == [] || le(x, s[0]) {
      var r := [x] + s;
      forall i, j | 0 <= i < j < |r| ensures f(r[i]) != f(r[j]) {
        if i == 0 {
          assert r[j] in s;
        } else {
          assert r[i] == s[i - 1] && r[j] == s[j - 1];
        }
      }
    } else {
      var tail := Insert(x, s[1..], le);
      forall y | y in s[1..] ensures f(y) != f(x) {
        assert y in s;
      }
      InsertKeepsInjective(x, s[1..], le, f);
      forall y | y in tail ensures f(y) != f(s[0]) {
        assert y in multiset(tail);
        if y != x {
          assert y in multiset(s[1..]);
          var j :| 0 <= j < |s[1..]| && s[1..][j] == y;
          assert s[j + 1] == y;
        } else {
          assert s[0] in s;
        }
      }
      var r := [s[0]] + tail;
      forall i, j | 0 <= i < j < |r| ensures f(r[i]) != f(r[j]) {
        if i == 0 {
          assert r[j] in tail;
        } else {
          assert r[i] == tail[i - 1] && r[j] == tail[j - 1];
        }
      }
    }
  }

  /** Sorting neither duplicates an element nor merges two: distinct keys stay distinct. */
  lemma {:induction false} SortKeepsInjective<T, K>(s: seq<T>, le: (T, T) -> bool, f: T -> K)
    requires InjectiveOn(s, f)
    ensures InjectiveOn(Sort(s, le), f)
  {
    if s != [] {
      assert InjectiveOn(s[1..], f) by {
        forall i, j | 0 <= i < j < |s[1..]| ensures f(s[1..][i]) != f(s[1..][j]) {
          assert s[1..][i] == s[i + 1] && s[1..][j] == s[j + 1];
        }
      }
      SortKeepsInjective(s[1..], le, f);
      var sorted := Sort(s[1..], le);
      forall y | y in sorted ensures f(y) != f(s[0]) {
        assert y in multiset(sorted);
        assert y in multiset(s[1..]);
        var j :| 0 <= j < |s[1..]| && s[1..][j] == y;
        assert s[j + 1] == y;
      }
      InsertKeepsInjective(s[0], sorted, le, f);
    }
  }
}
