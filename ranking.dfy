/** Tallying names in a plain object and keeping the three most frequent:
    `Object.entries(counts).sort((a, b) => b[1] - a[1]).slice(0, 3)`.
    A plain object enumerates its (non-index) keys in insertion order, so the
    entries come in order of first occurrence; the stable sort then keeps that
    order among equal counts. */
module Ranking {
  import opened StableSort

  datatype Entry = Entry(name: string, count: nat)

  function Min(a: int, b: int): int {
    if a < b then a else b
  }

  /** How many times `n` occurs in `names`. */
  function Occurrences(names: seq<string>, n: string): nat {
    if names == [] then 0
    else Occurrences(names[..|names| - 1], n) + (if names[|names| - 1] == n then 1 else 0)
  }

  /** The distinct names in order of first occurrence: the key order of the tally. */
  function FirstOccurrences(names: seq<string>): seq<string> {
    if names == [] then []
    else
      var prior := FirstOccurrences(names[..|names| - 1]);
      if names[|names| - 1] in prior then prior else prior + [names[|names| - 1]]
  }

  /** Position of the first occurrence of `n` (`|names|` when there is none). */
  function FirstIndex(names: seq<string>, n: string): nat {
    if n !in names then |names|
    else if n in names[..|names| - 1] then FirstIndex(names[..|names| - 1], n)
    else |names| - 1
  }

  /** The tally's entries: each distinct name with its number of occurrences. */
  function Entries(names: seq<string>): seq<Entry> {
    var fo := FirstOccurrences(names);
    seq(|fo|, i requires 0 <= i < |fo| => Entry(fo[i], Occurrences(names, fo[i])))
  }

  function CountKey(e: Entry): real {
    e.count as real
  }

  /** The entries sorted by count, descending (stable), cut to the first three. */
  function TopThree(names: seq<string>): seq<Entry> {
    var sorted := SortDesc(Entries(names), CountKey);
    sorted[..Min(3, |sorted|)]
  }

  // ---------------------------------------------------------------------------

  lemma {:induction false} FirstIndexIsFirst(names: seq<string>, n: string)
    requires n in names
    ensures FirstIndex(names, n) < |names| && names[FirstIndex(names, n)] == n
    ensures forall j :: 0 <= j < FirstIndex(names, n) ==> names[j] != n
  {
    var init := names[..|names| - 1];
    if n in init {
      FirstIndexIsFirst(init, n);
    }
  }

  lemma {:induction false} OccurrencesPositive(names: seq<string>, n: string)
    ensures Occurrences(names, n) > 0 <==> n in names
  {
    if names != [] {
      var init := names[..|names| - 1];
      OccurrencesPositive(init, n);
      assert names == init + [names[|names| - 1]];
    }
  }

  lemma {:induction false} OccurrencesAppend(a: seq<string>, b: seq<string>, n: string)
    ensures Occurrences(a + b, n) == Occurrences(a, n) + Occurrences(b, n)
  {
    if b != [] {
      var init := b[..|b| - 1];
      OccurrencesAppend(a, init, n);
      assert (a + b)[..|a + b| - 1] == a + init;
    } else {
      assert a + b == a;
    }
  }

  /** The tally's keys are exactly the names, once each, in first-occurrence order. */
  lemma {:induction false} FirstOccurrencesSpec(names: seq<string>)
    ensures forall n :: n in FirstOccurrences(names) <==> n in names
    ensures forall n :: n in FirstOccurrences(names) ==> n in names
    ensures forall i, j :: 0 <= i < j < |FirstOccurrences(names)| ==>
              FirstIndex(names, FirstOccurrences(names)[i]) < FirstIndex(names, FirstOccurrences(names)[j])
  {
    if names != [] {
      var init := names[..|names| - 1];
      var last := names[|names| - 1];
      var prior := FirstOccurrences(init);
      FirstOccurrencesSpec(init);
      assert names == init + [last];
      assert forall n :: n in names <==> n in init || n == last;
      forall n | n in init ensures FirstIndex(names, n) == FirstIndex(init, n) {
        assert init == names[..|names| - 1];
      }
      var fo := FirstOccurrences(names);
      if last in prior {
        assert fo == prior;
      } else {
        assert fo == prior + [last];
        assert FirstIndex(names, last) == |names| - 1;
        forall i | 0 <= i < |prior| ensures FirstIndex(names, prior[i]) < |names| - 1 {
          FirstIndexIsFirst(init, prior[i]);
        }
      }
    }
  }

  /** One more name joins the distinct names only when it is new. */
  lemma FirstOccurrencesSnoc(names: seq<string>, x: string)
    ensures x in FirstOccurrences(names) <==> x in names
    ensures FirstOccurrences(names + [x]) ==
            if x in names then FirstOccurrences(names) else FirstOccurrences(names) + [x]
  {
    FirstOccurrencesSpec(names);
    assert (names + [x])[..|names|] == names;
  }

  /** Position of the first occurrence of an entry's name. */
  function EntryPos(names: seq<string>): Entry -> int {
    (e: Entry) => FirstIndex(names, e.name)
  }

  lemma EntriesSpec(names: seq<string>)
    ensures forall e: Entry :: e in Entries(names) <==> e.name in names && e.count == Occurrences(names, e.name)
    ensures StrictlyIncreasing(Entries(names), EntryPos(names))
  {
    FirstOccurrencesSpec(names);
    var es := Entries(names);
    var fo := FirstOccurrences(names);
    forall e: Entry | e.name in names && e.count == Occurrences(names, e.name) ensures e in es {
      var k :| 0 <= k < |fo| && fo[k] == e.name;
      assert es[k] == e;
    }
  }

  /** The sorted tally: a permutation of the entries, in descending count order,
      equal counts in first-occurrence order. */
  lemma SortedEntriesSpec(names: seq<string>)
    ensures |SortDesc(Entries(names), CountKey)| == |FirstOccurrences(names)|
    ensures forall k :: 0 <= k < |SortDesc(Entries(names), CountKey)| ==>
              SortDesc(Entries(names), CountKey)[k].name in names &&
              SortDesc(Entries(names), CountKey)[k].count == Occurrences(names, SortDesc(Entries(names), CountKey)[k].name)
    ensures forall n :: n in names ==> Entry(n, Occurrences(names, n)) in SortDesc(Entries(names), CountKey)
    ensures Descending(SortDesc(Entries(names), CountKey), CountKey)
    ensures TiesOrdered(SortDesc(Entries(names), CountKey), CountKey, EntryPos(names))
  {
    var es := Entries(names);
    var sorted := SortDesc(es, CountKey);
    EntriesSpec(names);
    SortPermutes(es, CountKey);
    SortDescending(es, CountKey);
    SortKeepsTies(es, CountKey, EntryPos(names));
    forall k | 0 <= k < |sorted|
      ensures sorted[k].name in names && sorted[k].count == Occurrences(names, sorted[k].name)
    {
      assert sorted[k] in multiset(sorted);
      assert sorted[k] in es;
    }
    forall n | n in names ensures Entry(n, Occurrences(names, n)) in sorted {
      assert Entry(n, Occurrences(names, n)) in multiset(es);
    }
  }

  /** The kept entries carry their names' true counts, in non-increasing order,
      equal counts in first-seen order, each name once. */
  lemma TopThreeOrdered(names: seq<string>)
    ensures |TopThree(names)| == Min(3, |FirstOccurrences(names)|)
    ensures forall i :: 0 <= i < |TopThree(names)| ==>
              TopThree(names)[i].name in names &&
              TopThree(names)[i].count == Occurrences(names, TopThree(names)[i].name) &&
              TopThree(names)[i].count > 0
    ensures forall i, j :: 0 <= i < j < |TopThree(names)| ==>
              TopThree(names)[i].count >= TopThree(names)[j].count
    ensures forall i, j :: 0 <= i < j < |TopThree(names)| && TopThree(names)[i].count == TopThree(names)[j].count ==>
              FirstIndex(names, TopThree(names)[i].name) < FirstIndex(names, TopThree(names)[j].name)
    ensures forall i, j :: 0 <= i < j < |TopThree(names)| ==> TopThree(names)[i].name != TopThree(names)[j].name
  {
    var sorted := SortDesc(Entries(names), CountKey);
    var r := TopThree(names);
    SortedEntriesSpec(names);
    assert r == sorted[..Min(3, |sorted|)];
    forall i | 0 <= i < |r| ensures r[i].count > 0 {
      assert r[i] == sorted[i];
      OccurrencesPositive(names, r[i].name);
    }
    forall i, j | 0 <= i < j < |r|
      ensures r[i].count >= r[j].count
      ensures r[i].count == r[j].count ==> FirstIndex(names, r[i].name) < FirstIndex(names, r[j].name)
    {
      assert r[i] == sorted[i] && r[j] == sorted[j];
      assert CountKey(sorted[i]) >= CountKey(sorted[j]);
    }
  }

  /** A name left out of the three kept entries only happens when three are kept,
      and each kept entry has a larger count, or the same count and an earlier
      first occurrence. */
  lemma TopThreeComplete(names: seq<string>, n: string)
    requires n in names
    requires forall i :: 0 <= i < |TopThree(names)| ==> TopThree(names)[i].name != n
    ensures |TopThree(names)| == 3
    ensures forall i :: 0 <= i < 3 ==>
              || TopThree(names)[i].count > Occurrences(names, n)
              || (TopThree(names)[i].count == Occurrences(names, n) &&
                  FirstIndex(names, TopThree(names)[i].name) < FirstIndex(names, n))
  {
    var sorted := SortDesc(Entries(names), CountKey);
    var r := TopThree(names);
    SortedEntriesSpec(names);
    var e := Entry(n, Occurrences(names, n));
    var p :| 0 <= p < |sorted| && sorted[p] == e;
    assert forall k :: 0 <= k < |r| ==> sorted[k] == r[k];
    assert p >= |r|;
    forall i | 0 <= i < 3
      ensures || r[i].count > Occurrences(names, n)
              || (r[i].count == Occurrences(names, n) && FirstIndex(names, r[i].name) < FirstIndex(names, n))
    {
      assert r[i] == sorted[i];
      assert CountKey(sorted[i]) >= CountKey(sorted[p]);
    }
  }
}
