/**
 Stable sorting by a total preorder. The sorted list is determined by its
 specification, so which algorithm a sort uses does not matter.
 */
module StableSorting {

  ghost predicate TotalPreorder<T(!new)>(le: (T, T) -> bool) {
    && (forall a, b :: le(a, b) || le(b, a))
    && (forall a, b, c :: le(a, b) && le(b, c) ==> le(a, c))
  }

  predicate Same<T>(le: (T, T) -> bool, a: T, b: T) { le(a, b) && le(b, a) }

  predicate Sorted<T>(le: (T, T) -> bool, s: seq<T>) {
    forall i, j :: 0 <= i < j < |s| ==> le(s[i], s[j])
  }

  /** The elements as good as `x`, in order. */
  function Class<T>(le: (T, T) -> bool, s: seq<T>, x: T): seq<T> {
    if s == [] then []
    else (if Same(le, s[0], x) then [s[0]] else []) + Class(le, s[1..], x)
  }

  /** Elements as good as each other keep their order. */
  ghost predicate SameClasses<T(!new)>(le: (T, T) -> bool, s: seq<T>, t: seq<T>) {
    forall x :: Class(le, s, x) == Class(le, t, x)
  }

  ghost predicate StableSort<T(!new)>(le: (T, T) -> bool, s: seq<T>, t: seq<T>) {
    Sorted(le, t) && multiset(t) == multiset(s) && SameClasses(le, s, t)
  }

  // ---- the specification has one solution ----

  lemma {:induction false} ClassMember<T>(le: (T, T) -> bool, s: seq<T>, x: T)
    requires Class(le, s, x) != []
    ensures exists k :: 0 <= k < |s| && s[k] == Class(le, s, x)[0] && Same(le, s[k], x)
  {
    if !Same(le, s[0], x) {
      ClassMember(le, s[1..], x);
      var k :| 0 <= k < |s[1..]| && s[1..][k] == Class(le, s[1..], x)[0] && Same(le, s[1..][k], x);
      assert s[k + 1] == s[1..][k];
    }
  }

  /** The first elements of two sorted lists with the same classes are the same. */
  lemma HeadsEqual<T(!new)>(le: (T, T) -> bool, s: seq<T>, t: seq<T>)
    requires TotalPreorder(le) && s != [] && t != [] && Sorted(le, s) && Sorted(le, t)
    requires Class(le, s, s[0]) == Class(le, t, s[0]) && Class(le, s, t[0]) == Class(le, t, t[0])
    ensures s[0] == t[0]
  {
    var a, b := s[0], t[0];
    assert Same(le, a, a) && Same(le, b, b);
    ClassMember(le, t, a);
    ClassMember(le, s, b);
    assert le(b, a) && le(a, b);
    assert Class(le, s, a)[0] == a && Class(le, t, a)[0] == b;
  }

  lemma SomeClass<T(!new)>(le: (T, T) -> bool, s: seq<T>)
    requires TotalPreorder(le)
    ensures s != [] ==> exists x :: Class(le, s, x) != []
  {
    if s != [] {
      assert Same(le, s[0], s[0]);
      assert Class(le, s, s[0]) != [];
    }
  }

  lemma {:induction false} StableSortUnique<T(!new)>(le: (T, T) -> bool, s: seq<T>, t: seq<T>)
    requires TotalPreorder(le) && Sorted(le, s) && Sorted(le, t) && SameClasses(le, s, t)
    ensures s == t
    decreases |s|
  {
    if s == [] {
      SomeClass(le, t);
    } else {
      assert Same(le, s[0], s[0]) && Class(le, s, s[0]) == Class(le, t, s[0]);
      assert t != [] && Class(le, s, t[0]) == Class(le, t, t[0]);
      HeadsEqual(le, s, t);
      forall x ensures Class(le, s[1..], x) == Class(le, t[1..], x) {
        assert Class(le, s, x) == Class(le, t, x);
        var skip := if Same(le, s[0], x) then 1 else 0;
        assert Class(le, s[1..], x) == Class(le, s, x)[skip..] && Class(le, t[1..], x) == Class(le, t, x)[skip..];
      }
      StableSortUnique(le, s[1..], t[1..]);
    }
  }

  // ---- a stable sort ----

  /** `x` goes before everything it is at most as large as. */
  function Insert<T>(le: (T, T) -> bool, x: T, s: seq<T>): (r: seq<T>)
    ensures multiset(r) == multiset{x} + multiset(s)
  {
    if s == [] then [x]
    else if le(x, s[0]) then [x] + s
    else assert s == [s[0]] + s[1..]; [s[0]] + Insert(le, x, s[1..])
  }

  function SortBy<T>(le: (T, T) -> bool, s: seq<T>): (r: seq<T>)
    ensures multiset(r) == multiset(s)
  {
    if s == [] then []
    else assert s == [s[0]] + s[1..]; Insert(le, s[0], SortBy(le, s[1..]))
  }

  lemma {:induction false} InsertClass<T(!new)>(le: (T, T) -> bool, x: T, s: seq<T>, y: T)
    requires TotalPreorder(le)
    ensures Class(le, Insert(le, x, s), y) == Class(le, [x] + s, y)
  {
    assert ([x] + s)[1..] == s;
    if s != [] && !le(x, s[0]) {
      InsertClass(le, x, s[1..], y);
      assert ([x] + s[1..])[1..] == s[1..];
      assert Insert(le, x, s)[1..] == Insert(le, x, s[1..]);
    }
  }

  lemma {:induction false} InsertSorted<T(!new)>(le: (T, T) -> bool, x: T, s: seq<T>)
    requires TotalPreorder(le) && Sorted(le, s)
    ensures Sorted(le, Insert(le, x, s))
  {
    if s != [] && !le(x, s[0]) {
      InsertSorted(le, x, s[1..]);
      var t := Insert(le, x, s[1..]);
      forall j | 0 <= j < |t| ensures le(s[0], t[j]) {
        assert t[j] in multiset(t);
        assert t[j] == x || t[j] in s[1..];
      }
    }
  }

  lemma {:induction false} SortByStable<T(!new)>(le: (T, T) -> bool, s: seq<T>)
    requires TotalPreorder(le)
    ensures StableSort(le, s, SortBy(le, s))
  {
    if s != [] {
      SortByStable(le, s[1..]);
      var t := SortBy(le, s[1..]);
      InsertSorted(le, s[0], t);
      forall x ensures Class(le, s, x) == Class(le, SortBy(le, s), x) {
        InsertClass(le, s[0], t, x);
        assert ([s[0]] + t)[1..] == t;
        assert Class(le, s[1..], x) == Class(le, t, x);
      }
    }
  }
}
