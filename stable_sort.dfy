/** `Array.prototype.sort((a, b) => key(b) - key(a))`: since ECMAScript 2019 the
    sort is stable, so it is modelled as an insertion sort that places each
    element before the first element whose key is not greater than its own. */
module StableSort {

  function Insert<T>(x: T, s: seq<T>, key: T -> real): seq<T>
  {
    if s == [] || key(s[0]) <= key(x) then [x] + s else [s[0]] + Insert(x, s[1..], key)
  }

  /** The stable sort by descending key. */
  function SortDesc<T>(s: seq<T>, key: T -> real): seq<T>
  {
    if s == [] then [] else Insert(s[0], SortDesc(s[1..], key), key)
  }

  ghost predicate Descending<T>(s: seq<T>, key: T -> real) {
    forall i, j :: 0 <= i < j < |s| ==> key(s[i]) >= key(s[j])
  }

  /** Elements with equal keys appear in increasing `pos` order. */
  ghost predicate TiesOrdered<T>(s: seq<T>, key: T -> real, pos: T -> int) {
    forall i, j :: 0 <= i < j < |s| && key(s[i]) == key(s[j]) ==> pos(s[i]) < pos(s[j])
  }

  ghost predicate StrictlyIncreasing<T>(s: seq<T>, pos: T -> int) {
    forall i, j :: 0 <= i < j < |s| ==> pos(s[i]) < pos(s[j])
  }

  lemma {:induction false} InsertPermutes<T>(x: T, s: seq<T>, key: T -> real)
    ensures multiset(Insert(x, s, key)) == multiset{x} + multiset(s)
    ensures |Insert(x, s, key)| == |s| + 1
  {
    if s == [] || key(s[0]) <= key(x) {
    } else {
      InsertPermutes(x, s[1..], key);
      assert s == [s[0]] + s[1..];
    }
  }

  /** The sort returns a permutation of its input. */
  lemma {:induction false} SortPermutes<T>(s: seq<T>, key: T -> real)
    ensures multiset(SortDesc(s, key)) == multiset(s)
    ensures |SortDesc(s, key)| == |s|
  {
    if s != [] {
      SortPermutes(s[1..], key);
      InsertPermutes(s[0], SortDesc(s[1..], key), key);
      assert s == [s[0]] + s[1..];
    }
  }

  lemma {:induction false} InsertDescending<T>(x: T, s: seq<T>, key: T -> real)
    requires Descending(s, key)
    ensures Descending(Insert(x, s, key), key)
  {
    if s == [] || key(s[0]) <= key(x) {
    } else {
      var rest := Insert(x, s[1..], key);
      InsertDescending(x, s[1..], key);
      InsertPermutes(x, s[1..], key);
      forall j | 0 <= j < |rest| ensures key(s[0]) >= key(rest[j]) {
        assert rest[j] in multiset(rest);
        if rest[j] != x {
          assert rest[j] in multiset(s[1..]);
          var k :| 0 <= k < |s[1..]| && s[1..][k] == rest[j];
          assert s[k + 1] == rest[j];
        }
      }
    }
  }

  /** The sort returns its input in descending key order. */
  lemma {:induction false} SortDescending<T>(s: seq<T>, key: T -> real)
    ensures Descending(SortDesc(s, key), key)
  {
    if s != [] {
      SortDescending(s[1..], key);
      InsertDescending(s[0], SortDesc(s[1..], key), key);
    }
  }

  lemma {:induction false} InsertKeepsTies<T>(x: T, s: seq<T>, key: T -> real, pos: T -> int)
    requires TiesOrdered(s, key, pos)
    requires forall y :: y in s ==> pos(x) < pos(y)
    ensures TiesOrdered(Insert(x, s, key), key, pos)
  {
    if s == [] || key(s[0]) <= key(x) {
      ConsTies(x, s, key, pos);
    } else {
      var rest := Insert(x, s[1..], key);
      TailTies(s, key, pos);
      InsertKeepsTies(x, s[1..], key, pos);
      InsertMembers(x, s[1..], key);
      forall y | y in rest && key(y) == key(s[0])
        ensures pos(s[0]) < pos(y)
      {
        var k :| 0 <= k < |s[1..]| && s[1..][k] == y;
        assert s[k + 1] == y;
      }
      ConsTies(s[0], rest, key, pos);
    }
  }

  /** An element of an insertion is the inserted one or one of the list. */
  lemma {:induction false} InsertMembers<T>(x: T, s: seq<T>, key: T -> real)
    ensures forall y :: y in Insert(x, s, key) ==> y == x || y in s
  {
    if s != [] && key(s[0]) > key(x) {
      InsertMembers(x, s[1..], key);
      assert forall y :: y in s[1..] ==> y in s;
    }
  }

  lemma TailTies<T>(s: seq<T>, key: T -> real, pos: T -> int)
    requires s != [] && TiesOrdered(s, key, pos)
    ensures TiesOrdered(s[1..], key, pos)
  {
    forall i, j | 0 <= i < j < |s[1..]| && key(s[1..][i]) == key(s[1..][j])
      ensures pos(s[1..][i]) < pos(s[1..][j])
    {
      assert s[1..][i] == s[i + 1] && s[1..][j] == s[j + 1];
    }
  }

  /** A head that comes before every later element of equal key keeps ties
      in order. */
  lemma ConsTies<T>(h: T, s: seq<T>, key: T -> real, pos: T -> int)
    requires TiesOrdered(s, key, pos)
    requires forall y :: y in s && key(y) == key(h) ==> pos(h) < pos(y)
    ensures TiesOrdered([h] + s, key, pos)
  {
    var r := [h] + s;
    forall i, j | 0 <= i < j < |r| && key(r[i]) == key(r[j])
      ensures pos(r[i]) < pos(r[j])
    {
      assert r[j] == s[j - 1] && r[j] in s;
      if i > 0 {
        assert r[i] == s[i - 1];
      }
    }
  }

  /** Stability: when the input is in increasing `pos` order, equal keys keep
      that order in the output. */
  lemma {:induction false} SortKeepsTies<T>(s: seq<T>, key: T -> real, pos: T -> int)
    requires StrictlyIncreasing(s, pos)
    ensures TiesOrdered(SortDesc(s, key), key, pos)
  {
    if s != [] {
      SortKeepsTies(s[1..], key, pos);
      SortPermutes(s[1..], key);
      forall y | y in SortDesc(s[1..], key) ensures pos(s[0]) < pos(y) {
        assert y in multiset(SortDesc(s[1..], key));
        assert y in multiset(s[1..]);
        var k :| 0 <= k < |s[1..]| && s[1..][k] == y;
        assert s[k + 1] == y;
      }
      InsertKeepsTies(s[0], SortDesc(s[1..], key), key, pos);
    }
  }
}
