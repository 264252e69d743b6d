/**
 * `Array.prototype.sort` with a comparator that orders by a two-part key, both parts
 * descending, and returns 0 on equal keys. Such a comparator is a total preorder and the
 * sort is stable, so the output is determined: the unique sorted permutation that keeps
 * equal-key elements in input order (SortIsUnique). Insertion sort computes it.
 */
module StableSort {

  /** A sort key: compared on `primary` first, then on `secondary`, larger first. */
  datatype Key = Key(primary: real, secondary: int)

  /** a sorts strictly before b: the comparator `(x, y) => y - x` on each part is negative. */
  predicate Ahead(a: Key, b: Key) {
    a.primary > b.primary || (a.primary == b.primary && a.secondary > b.secondary)
  }

  /** No element sorts strictly before an earlier one. */
  ghost predicate Sorted<T>(s: seq<T>, key: T -> Key) {
    forall i, j :: 0 <= i < j < |s| ==> !Ahead(key(s[j]), key(s[i]))
  }

  /** The elements of s whose key is k, in the order they appear in s. */
  function WithKey<T>(s: seq<T>, key: T -> Key, k: Key): seq<T> {
    if s == [] then []
    else (if key(s[0]) == k then [s[0]] else []) + WithKey(s[1..], key, k)
  }

  /** Insert x before the first element that does not sort strictly before it. */
  function Insert<T>(x: T, s: seq<T>, key: T -> Key): (r: seq<T>)
    ensures multiset(r) == multiset(s) + multiset{x}
    ensures |r| == |s| + 1
  {
    if s == [] then [x]
    else if Ahead(key(s[0]), key(x)) then
      assert s == [s[0]] + s[1..];
      [s[0]] + Insert(x, s[1..], key)
    else [x] + s
  }

  /** The stable sort of s by key, larger keys first. */
  function Sort<T>(s: seq<T>, key: T -> Key): (r: seq<T>)
    ensures multiset(r) == multiset(s)
    ensures |r| == |s|
  {
    if s == [] then []
    else
      assert s == [s[0]] + s[1..];
      Insert(s[0], Sort(s[1..], key), key)
  }

  /** Applies f to every element, in order. */
  function Project<T, U>(s: seq<T>, f: T -> U): (r: seq<U>)
    ensures |r| == |s|
    ensures forall i :: 0 <= i < |s| ==> r[i] == f(s[i])
  {
    if s == [] then [] else [f(s[0])] + Project(s[1..], f)
  }

  lemma {:induction false} InsertSorted<T>(x: T, s: seq<T>, key: T -> Key)
    requires Sorted(s, key)
    ensures Sorted(Insert(x, s, key), key)
  {
    if s == [] {
    } else if Ahead(key(s[0]), key(x)) {
      var tail := s[1..];
      assert Sorted(tail, key) by {
        forall i, j | 0 <= i < j < |tail| ensures !Ahead(key(tail[j]), key(tail[i])) {
          assert tail[i] == s[i + 1] && tail[j] == s[j + 1];
        }
      }
      InsertSorted(x, tail, key);
      var u := Insert(x, tail, key);
      var r := [s[0]] + u;
      forall j | 1 <= j < |r| ensures !Ahead(key(r[j]), key(r[0])) {
        assert r[j] in multiset(u);
        if r[j] != x {
          assert r[j] in multiset(tail);
          var k :| 0 <= k < |tail| && tail[k] == r[j];
          assert s[k + 1] == r[j];
        }
      }
      forall i, j | 0 <= i < j < |r| ensures !Ahead(key(r[j]), key(r[i])) {
        if i > 0 { assert r[i] == u[i - 1] && r[j] == u[j - 1]; }
      }
    } else {
      var r := [x] + s;
      forall i, j | 0 <= i < j < |r| ensures !Ahead(key(r[j]), key(r[i])) {
        assert r[j] == s[j - 1];
        if i > 0 { assert r[i] == s[i - 1]; } else { assert !Ahead(key(s[j - 1]), key(s[0])); }
      }
    }
  }

  /** The output of Sort is sorted. */
  lemma {:induction false} SortSorted<T>(s: seq<T>, key: T -> Key)
    ensures Sorted(Sort(s, key), key)
  {
    if s != [] {
      SortSorted(s[1..], key);
      InsertSorted(s[0], Sort(s[1..], key), key);
    }
  }

  lemma WithKeyCons<T>(x: T, s: seq<T>, key: T -> Key, k: Key)
    ensures WithKey([x] + s, key, k) == (if key(x) == k then [x] else []) + WithKey(s, key, k)
  {
    assert ([x] + s)[0] == x && ([x] + s)[1..] == s;
  }

  lemma {:induction false} InsertWithKey<T>(x: T, s: seq<T>, key: T -> Key, k: Key)
    ensures WithKey(Insert(x, s, key), key, k) == (if key(x) == k then [x] else []) + WithKey(s, key, k)
  {
    if s == [] {
      WithKeyCons(x, s, key, k);
    } else if Ahead(key(s[0]), key(x)) {
      InsertWithKey(x, s[1..], key, k);
      InsertBehindWithKey(x, s, key, k);
    } else {
      WithKeyCons(x, s, key, k);
    }
  }

  /** The step of InsertWithKey where x moves past s[0]: the two cannot share a key. */
  lemma InsertBehindWithKey<T>(x: T, s: seq<T>, key: T -> Key, k: Key)
    requires s != [] && Ahead(key(s[0]), key(x))
    requires WithKey(Insert(x, s[1..], key), key, k) == (if key(x) == k then [x] else []) + WithKey(s[1..], key, k)
    ensures WithKey(Insert(x, s, key), key, k) == (if key(x) == k then [x] else []) + WithKey(s, key, k)
  {
    var u := Insert(x, s[1..], key);
    assert Insert(x, s, key) == [s[0]] + u;
    WithKeyCons(s[0], u, key, k);
    var rest := WithKey(s[1..], key, k);
    assert WithKey(s, key, k) == (if key(s[0]) == k then [s[0]] else []) + rest;
    if key(x) == k {
      assert key(s[0]) != k;
      assert WithKey(Insert(x, s, key), key, k) == [x] + rest;
    } else {
      assert WithKey(Insert(x, s, key), key, k) == (if key(s[0]) == k then [s[0]] else []) + rest;
    }
  }

  /** Stability: the elements sharing any one key come out in their input order. */
  lemma {:induction false} SortStable<T>(s: seq<T>, key: T -> Key, k: Key)
    ensures WithKey(Sort(s, key), key, k) == WithKey(s, key, k)
  {
    if s != [] {
      SortStable(s[1..], key, k);
      InsertWithKey(s[0], Sort(s[1..], key), key, k);
    }
  }

  lemma {:induction false} WithKeyMembers<T>(s: seq<T>, key: T -> Key, k: Key, x: T)
    requires x in s && key(x) == k
    ensures WithKey(s, key, k) != []
  {
    if s[0] != x { WithKeyMembers(s[1..], key, k, x); }
  }

  /**
   * The reference definition: any sorted sequence that keeps, for every key, the input's
   * elements of that key in input order is the output of Sort.
   */
  lemma {:induction false} SortIsUnique<T>(s: seq<T>, t: seq<T>, key: T -> Key)
    requires Sorted(t, key)
    requires forall k :: WithKey(t, key, k) == WithKey(s, key, k)
    ensures t == Sort(s, key)
  {
    var r := Sort(s, key);
    SortSorted(s, key);
    forall k ensures WithKey(t, key, k) == WithKey(r, key, k) {
      SortStable(s, key, k);
    }
    SortedSameClassesEqual(t, r, key);
  }

  lemma {:induction false} SortedSameClassesEqual<T>(t: seq<T>, r: seq<T>, key: T -> Key)
    requires Sorted(t, key) && Sorted(r, key)
    requires forall k :: WithKey(t, key, k) == WithKey(r, key, k)
    ensures t == r
  {
    if t == [] || r == [] {
      LengthsAgree(t, r, key);
    } else {
      var kt, kr := key(t[0]), key(r[0]);
      // The head of each sequence carries a key that occurs in the other, so neither is ahead.
      WithKeyMembers(r, key, kr, r[0]);
      assert WithKey(t, key, kr) != [];
      var xt := ClassMember(t, key, kr);
      WithKeyMembers(t, key, kt, t[0]);
      assert WithKey(r, key, kt) != [];
      var xr := ClassMember(r, key, kt);
      assert kt == kr;
      assert t[0] == WithKey(t, key, kt)[0] == WithKey(r, key, kt)[0] == r[0];
      var t', r' := t[1..], r[1..];
      assert Sorted(t', key) by {
        forall i, j | 0 <= i < j < |t'| ensures !Ahead(key(t'[j]), key(t'[i])) {
          assert t'[i] == t[i + 1] && t'[j] == t[j + 1];
        }
      }
      assert Sorted(r', key) by {
        forall i, j | 0 <= i < j < |r'| ensures !Ahead(key(r'[j]), key(r'[i])) {
          assert r'[i] == r[i + 1] && r'[j] == r[j + 1];
        }
      }
      forall k ensures WithKey(t', key, k) == WithKey(r', key, k) {
        assert WithKey(t, key, k) == WithKey(r, key, k);
        assert WithKey(t, key, k) == (if kt == k then [t[0]] else []) + WithKey(t', key, k);
        assert WithKey(r, key, k) == (if kt == k then [t[0]] else []) + WithKey(r', key, k);
        if kt == k {
          assert ([t[0]] + WithKey(t', key, k))[1..] == WithKey(t', key, k);
          assert ([t[0]] + WithKey(r', key, k))[1..] == WithKey(r', key, k);
        } else {
          assert [] + WithKey(t', key, k) == WithKey(t', key, k);
          assert [] + WithKey(r', key, k) == WithKey(r', key, k);
        }
      }
      SortedSameClassesEqual(t', r', key);
      assert t == [t[0]] + t' && r == [r[0]] + r';
    }
  }

  lemma LengthsAgree<T>(t: seq<T>, r: seq<T>, key: T -> Key)
    requires forall k :: WithKey(t, key, k) == WithKey(r, key, k)
    ensures t == [] <==> r == []
  {
    if t != [] {
      WithKeyMembers(t, key, key(t[0]), t[0]);
    }
    if r != [] {
      WithKeyMembers(r, key, key(r[0]), r[0]);
    }
  }

  /** Some index of s holds an element of key k; none of s sorts strictly before s[0]. */
  lemma {:induction false} ClassMember<T>(s: seq<T>, key: T -> Key, k: Key) returns (i: nat)
    requires WithKey(s, key, k) != []
    requires Sorted(s, key)
    ensures i < |s| && key(s[i]) == k
    ensures !Ahead(k, key(s[0]))
  {
    if key(s[0]) == k {
      i := 0;
    } else {
      var tail := s[1..];
      assert Sorted(tail, key) by {
        forall a, b | 0 <= a < b < |tail| ensures !Ahead(key(tail[b]), key(tail[a])) {
          assert tail[a] == s[a + 1] && tail[b] == s[b + 1];
        }
      }
      var j := ClassMember(tail, key, k);
      i := j + 1;
      assert s[i] == tail[j];
    }
  }

  /** Permuting a sequence permutes any projection of it the same way. */
  lemma {:induction false} InsertProject<T, U>(x: T, s: seq<T>, key: T -> Key, f: T -> U)
    ensures multiset(Project(Insert(x, s, key), f)) == multiset(Project(s, f)) + multiset{f(x)}
    decreases |s|, 1
  {
    if s == [] {
    } else if Ahead(key(s[0]), key(x)) {
      InsertBehindProject(x, s, key, f);
    } else {
      ProjectCons(x, s, f);
    }
  }

  lemma {:induction false} InsertBehindProject<T, U>(x: T, s: seq<T>, key: T -> Key, f: T -> U)
    requires s != [] && Ahead(key(s[0]), key(x))
    ensures multiset(Project(Insert(x, s, key), f)) == multiset(Project(s, f)) + multiset{f(x)}
    decreases |s|, 0
  {
    var u := Insert(x, s[1..], key);
    InsertStep(x, s, key);
    InsertProject(x, s[1..], key, f);
    ProjectSplit(s, f);
    ProjectCons(s[0], u, f);
  }

  lemma InsertStep<T>(x: T, s: seq<T>, key: T -> Key)
    requires s != [] && Ahead(key(s[0]), key(x))
    ensures Insert(x, s, key) == [s[0]] + Insert(x, s[1..], key)
  {
  }

  lemma ProjectSplit<T, U>(s: seq<T>, f: T -> U)
    requires s != []
    ensures multiset(Project(s, f)) == multiset{f(s[0])} + multiset(Project(s[1..], f))
  {
    assert s == [s[0]] + s[1..];
    ProjectCons(s[0], s[1..], f);
  }

  lemma ProjectCons<T, U>(y: T, t: seq<T>, f: T -> U)
    ensures Project([y] + t, f) == [f(y)] + Project(t, f)
    ensures multiset(Project([y] + t, f)) == multiset{f(y)} + multiset(Project(t, f))
  {
    assert ([y] + t)[1..] == t;
  }

  lemma {:induction false} SortProject<T, U>(s: seq<T>, key: T -> Key, f: T -> U)
    ensures multiset(Project(Sort(s, key), f)) == multiset(Project(s, f))
  {
    if s != [] {
      SortProject(s[1..], key, f);
      InsertProject(s[0], Sort(s[1..], key), key, f);
    }
  }
}
