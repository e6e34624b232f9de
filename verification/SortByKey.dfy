/**
 * Sorting by a key, the meaning of `Array.prototype.sort` with a comparator that compares
 * up to three numbers in turn. Where no two elements share a key there is only one sorted
 * arrangement, so which algorithm the engine uses does not matter.
 */
module SortByKey {

  datatype Key = Key(major: int, minor: int, tie: int)

  predicate Less(a: Key, b: Key) {
    || a.major < b.major
    || (a.major == b.major && (a.minor < b.minor || (a.minor == b.minor && a.tie < b.tie)))
  }

  ghost predicate Sorted<T(!new)>(s: seq<T>, key: T -> Key) {
    forall i, j | 0 <= i < j < |s| :: Less(key(s[i]), key(s[j]))
  }

  ghost predicate DistinctKeys<T(!new)>(s: seq<T>, key: T -> Key) {
    forall i, j | 0 <= i < j < |s| :: key(s[i]) != key(s[j])
  }

  function Insert<T>(x: T, s: seq<T>, key: T -> Key): seq<T> {
    if s == [] || Less(key(x), key(s[0])) then [x] + s else [s[0]] + Insert(x, s[1..], key)
  }

  function SortBy<T>(s: seq<T>, key: T -> Key): seq<T> {
    if s == [] then [] else Insert(s[0], SortBy(s[1..], key), key)
  }

  lemma {:induction false} InsertKeeps<T(!new)>(x: T, s: seq<T>, key: T -> Key)
    ensures multiset(Insert(x, s, key)) == multiset(s) + multiset{x}
  {
    if s != [] && !Less(key(x), key(s[0])) {
      InsertKeeps(x, s[1..], key);
      assert s == [s[0]] + s[1..];
    }
  }

  // No key is x's own, so x goes before everything above it and after the rest.
  lemma {:induction false} InsertSorts<T(!new)>(x: T, s: seq<T>, key: T -> Key)
    requires Sorted(s, key) && forall i | 0 <= i < |s| :: key(s[i]) != key(x)
    ensures Sorted(Insert(x, s, key), key)
  {
    if s != [] && !Less(key(x), key(s[0])) {
      var rest := Insert(x, s[1..], key);
      InsertSorts(x, s[1..], key);
      InsertKeeps(x, s[1..], key);
      forall j | 0 <= j < |rest| ensures Less(key(s[0]), key(rest[j])) {
        assert rest[j] in multiset(rest);
        assert rest[j] == x || rest[j] in s[1..];
      }
    }
  }

  lemma {:induction false} SortKeeps<T(!new)>(s: seq<T>, key: T -> Key)
    ensures multiset(SortBy(s, key)) == multiset(s)
  {
    if s != [] {
      SortKeeps(s[1..], key);
      InsertKeeps(s[0], SortBy(s[1..], key), key);
      assert s == [s[0]] + s[1..];
    }
  }

  lemma {:induction false} SortSorts<T(!new)>(s: seq<T>, key: T -> Key)
    requires DistinctKeys(s, key)
    ensures Sorted(SortBy(s, key), key)
  {
    if s != [] {
      var rest := SortBy(s[1..], key);
      SortSorts(s[1..], key);
      SortKeeps(s[1..], key);
      forall i | 0 <= i < |rest| ensures key(rest[i]) != key(s[0]) {
        assert rest[i] in multiset(rest);
        assert rest[i] in s[1..];
      }
      InsertSorts(s[0], rest, key);
    }
  }

  lemma HeadIsLess<T(!new)>(s: seq<T>, key: T -> Key, i: nat)
    requires Sorted(s, key) && i < |s|
    ensures i == 0 || Less(key(s[0]), key(s[i]))
  {
  }

  // The head of a sorted list heads every sorted list of the same elements.
  lemma SameHead<T(!new)>(a: seq<T>, b: seq<T>, key: T -> Key)
    requires Sorted(a, key) && Sorted(b, key) && a != [] && b != []
    requires a[0] in b && b[0] in a
    ensures a[0] == b[0]
  {
    var i :| 0 <= i < |b| && b[i] == a[0];
    var j :| 0 <= j < |a| && a[j] == b[0];
    HeadIsLess(b, key, i);
    HeadIsLess(a, key, j);
  }

  lemma TailMultiset<T(!new)>(s: seq<T>)
    requires s != []
    ensures multiset(s[1..]) == multiset(s) - multiset{s[0]}
  {
    assert s == [s[0]] + s[1..];
  }

  // The one arrangement.
  lemma {:induction false} SortedIsUnique<T(!new)>(a: seq<T>, b: seq<T>, key: T -> Key)
    requires Sorted(a, key) && Sorted(b, key) && multiset(a) == multiset(b)
    ensures a == b
  {
    if a == [] {
      assert |b| == |multiset(b)| == |multiset(a)|;
    } else {
      assert |b| == |multiset(b)| == |multiset(a)|;
      assert a[0] in multiset(a) && b[0] in multiset(b);
      SameHead(a, b, key);
      TailMultiset(a);
      TailMultiset(b);
      SortedIsUnique(a[1..], b[1..], key);
      assert a == [a[0]] + a[1..] && b == [b[0]] + b[1..];
    }
  }

  // Elements that all come later are sorted behind.
  lemma SortAppends<T(!new)>(s: seq<T>, more: seq<T>, key: T -> Key)
    requires DistinctKeys(s, key) && DistinctKeys(more, key)
    requires forall i, j | 0 <= i < |s| && 0 <= j < |more| :: Less(key(s[i]), key(more[j]))
    ensures SortBy(s + more, key) == SortBy(s, key) + SortBy(more, key)
    ensures Sorted(SortBy(s + more, key), key)
  {
    var front, back := SortBy(s, key), SortBy(more, key);
    SortSorts(s, key);
    SortSorts(more, key);
    SortKeeps(s, key);
    SortKeeps(more, key);
    SortKeeps(s + more, key);
    forall i, j | 0 <= i < |front| && 0 <= j < |back| ensures Less(key(front[i]), key(back[j])) {
      assert front[i] in multiset(front) && back[j] in multiset(back);
      assert front[i] in s && back[j] in more;
    }
    SortSorts(s + more, key);
    SortedIsUnique(SortBy(s + more, key), front + back, key);
  }
}
