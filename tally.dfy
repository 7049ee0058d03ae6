// Counting the most frequent diagnoses and medications of a patient, as the
// statistics endpoint of the backend does: a tally object is filled in the
// order the rows arrive, its entries are sorted by count (descending, with a
// stable sort) and the first five are returned.

module Tally {
  import opened Common

  /** One [value, count] pair of Object.entries(tally). */
  type Entry = (string, nat)

  /** Counts every value of `values`, adding a key to the tally the first
      time it is seen (the forEach loop over the rows). `keys` is the
      tally's key order, that is the order Object.entries lists them in. */
  method TallyValues(values: seq<string>) returns (keys: seq<string>, counts: map<string, nat>)
    ensures keys == Distinct(values)
    ensures forall k :: k in counts <==> k in values
    ensures forall k :: k in counts ==> counts[k] == multiset(values)[k]
  {
    keys := [];
    counts := map[];
    var i := 0;
    while i < |values|
      invariant 0 <= i <= |values|
      invariant keys == Distinct(values[..i])
      invariant forall k :: k in counts <==> k in values[..i]
      invariant forall k :: k in counts ==> counts[k] == multiset(values[..i])[k]
    {
      var v := values[i];
      assert values[..i + 1] == values[..i] + [v];
      CountStep(values[..i], v, counts);
      DistinctSnoc(values[..i], v);
      if v in counts {
        counts := counts[v := counts[v] + 1];
      } else {
        keys := keys + [v];
        counts := counts[v := 1];
      }
      i := i + 1;
    }
    assert values[..i] == values;
  }

  /** One more value: its count goes up by one, or it enters with count 1. */
  lemma CountStep(seen: seq<string>, v: string, counts: map<string, nat>)
    requires forall k :: k in counts <==> k in seen
    requires forall k :: k in counts ==> counts[k] == multiset(seen)[k]
    ensures var c := if v in counts then counts[v := counts[v] + 1] else counts[v := 1];
            (forall k :: k in c <==> k in seen + [v]) && forall k :: k in c ==> c[k] == multiset(seen + [v])[k]
  {
    assert multiset(seen + [v]) == multiset(seen) + multiset{v};
  }

  lemma DistinctSnoc(seen: seq<string>, v: string)
    ensures Distinct(seen + [v]) == if v in Distinct(seen) then Distinct(seen) else Distinct(seen) + [v]
  {
    assert (seen + [v])[..|seen|] == seen;
  }

  /** Object.entries of the tally, in key order. */
  function Entries(keys: seq<string>, counts: map<string, nat>): (r: seq<Entry>)
    requires forall k :: k in keys ==> k in counts
    ensures |r| == |keys|
    ensures forall i :: 0 <= i < |r| ==> r[i] == (keys[i], counts[keys[i]])
  {
    seq(|keys|, i requires 0 <= i < |keys| => (keys[i], counts[keys[i]]))
  }

  // ---------------------------------------------------------------------
  // sort((a, b) => b[1] - a[1]): a stable sort by count, largest first

  /** Puts x in front of the first entry whose count it is at least. */
  function Insert(x: Entry, t: seq<Entry>): (r: seq<Entry>)
    ensures multiset(r) == multiset([x] + t)
  {
    if t == [] || x.1 >= t[0].1 then [x] + t
    else
      assert t == [t[0]] + t[1..];
      [t[0]] + Insert(x, t[1..])
  }

  function SortByCount(s: seq<Entry>): (r: seq<Entry>)
    ensures multiset(r) == multiset(s)
    ensures |r| == |s|
  {
    if s == [] then []
    else
      assert s == [s[0]] + s[1..];
      Insert(s[0], SortByCount(s[1..]))
  }

  /** a comes before b in the sorted entries: a larger count, or the same
      count and a key seen earlier in `values`. */
  predicate Before(a: Entry, b: Entry, values: seq<string>) {
    a.1 > b.1 || (a.1 == b.1 && FirstIndex(values, a.0) < FirstIndex(values, b.0))
  }

  predicate Ordered(t: seq<Entry>, values: seq<string>) {
    forall i, j :: 0 <= i < j < |t| ==> Before(t[i], t[j], values)
  }

  /** Entries listed in the order their keys were first seen. */
  predicate InFirstSeenOrder(s: seq<Entry>, values: seq<string>) {
    forall i, j :: 0 <= i < j < |s| ==> FirstIndex(values, s[i].0) < FirstIndex(values, s[j].0)
  }

  /** An entry that comes before every entry of an ordered list can be put
      in front of it. */
  lemma PrependOrdered(x: Entry, t: seq<Entry>, values: seq<string>)
    requires Ordered(t, values)
    requires forall i :: 0 <= i < |t| ==> Before(x, t[i], values)
    ensures Ordered([x] + t, values)
  {
    var r := [x] + t;
    forall i, j | 0 <= i < j < |r|
      ensures Before(r[i], r[j], values)
    {
      assert r[j] == t[j - 1];
      if i > 0 {
        assert r[i] == t[i - 1];
      }
    }
  }

  lemma {:induction false} InsertOrdered(x: Entry, t: seq<Entry>, values: seq<string>)
    requires Ordered(t, values)
    requires forall y :: y in t ==> FirstIndex(values, x.0) < FirstIndex(values, y.0)
    ensures Ordered(Insert(x, t), values)
  {
    if t == [] || x.1 >= t[0].1 {
      forall i | 0 <= i < |t|
        ensures Before(x, t[i], values)
      {
        if i > 0 {
          assert Before(t[0], t[i], values);
        }
        assert t[i] in t;
      }
      PrependOrdered(x, t, values);
    } else {
      var u := t[1..];
      assert Ordered(u, values) by {
        forall i, j | 0 <= i < j < |u|
          ensures Before(u[i], u[j], values)
        {
          assert u[i] == t[i + 1] && u[j] == t[j + 1];
        }
      }
      forall y | y in u ensures FirstIndex(values, x.0) < FirstIndex(values, y.0) {
        assert y in t;
      }
      InsertOrdered(x, u, values);
      var w := Insert(x, u);
      forall i | 0 <= i < |w|
        ensures Before(t[0], w[i], values)
      {
        var z := w[i];
        assert z in multiset([x] + u);
        if z != x {
          assert z in u;
          var k :| 0 <= k < |u| && u[k] == z;
          assert Before(t[0], t[k + 1], values);
        }
      }
      PrependOrdered(t[0], w, values);
    }
  }

  /** Sorting entries listed in first-seen order orders them by count, and
      equal counts stay in first-seen order (the sort is stable). */
  lemma {:induction false} SortByCountOrdered(s: seq<Entry>, values: seq<string>)
    requires InFirstSeenOrder(s, values)
    ensures Ordered(SortByCount(s), values)
  {
    if s != [] {
      var u := s[1..];
      assert InFirstSeenOrder(u, values) by {
        forall i, j | 0 <= i < j < |u|
          ensures FirstIndex(values, u[i].0) < FirstIndex(values, u[j].0)
        {
          assert u[i] == s[i + 1] && u[j] == s[j + 1];
        }
      }
      SortByCountOrdered(u, values);
      forall y | y in SortByCount(u)
        ensures FirstIndex(values, s[0].0) < FirstIndex(values, y.0)
      {
        assert y in multiset(u);
        var k :| 0 <= k < |u| && u[k] == y;
        assert s[k + 1] == y;
      }
      InsertOrdered(s[0], SortByCount(u), values);
    }
  }

  /** The tally's entries for `values`, in first-seen order. */
  function Tallied(values: seq<string>): (r: seq<Entry>)
    ensures |r| == |Distinct(values)|
    ensures forall i :: 0 <= i < |r| ==> r[i] == (Distinct(values)[i], multiset(values)[Distinct(values)[i]])
  {
    var d := Distinct(values);
    seq(|d|, i requires 0 <= i < |d| => (d[i], multiset(values)[d[i]]))
  }

  /** The entries sorted by count and cut to the first five. */
  function Top(values: seq<string>): seq<Entry> {
    var sorted := SortByCount(Tallied(values));
    sorted[..Min(5, |sorted|)]
  }

  /** The key is one of the top entries. */
  predicate Listed(top: seq<Entry>, x: string) {
    exists i :: 0 <= i < |top| && top[i].0 == x
  }

  lemma SortedTallyFacts(values: seq<string>)
    ensures Ordered(SortByCount(Tallied(values)), values)
    ensures forall e :: e in SortByCount(Tallied(values)) ==> e.0 in values && e.1 == multiset(values)[e.0]
  {
    var entries := Tallied(values);
    DistinctOrdered(values);
    assert InFirstSeenOrder(entries, values);
    SortByCountOrdered(entries, values);
    forall e | e in SortByCount(entries)
      ensures e.0 in values && e.1 == multiset(values)[e.0]
    {
      assert e in multiset(entries);
      var k :| 0 <= k < |entries| && entries[k] == e;
    }
  }

  /** The top entries carry true counts, in order, with no key twice. */
  lemma TopOrdered(values: seq<string>)
    ensures |Top(values)| == Min(5, |Distinct(values)|)
    ensures forall i :: 0 <= i < |Top(values)| ==>
              Top(values)[i].0 in values && Top(values)[i].1 == multiset(values)[Top(values)[i].0]
    ensures Ordered(Top(values), values)
    ensures forall i, j :: 0 <= i < j < |Top(values)| ==> Top(values)[i].0 != Top(values)[j].0
  {
    var sorted := SortByCount(Tallied(values));
    var top := Top(values);
    SortedTallyFacts(values);
    forall i | 0 <= i < |top|
      ensures top[i].0 in values && top[i].1 == multiset(values)[top[i].0]
    {
      assert top[i] == sorted[i];
    }
    forall i, j | 0 <= i < j < |top|
      ensures Before(top[i], top[j], values) && top[i].0 != top[j].0
    {
      assert top[i] == sorted[i] && top[j] == sorted[j];
    }
  }

  /** No value left out of the top entries beats one that is in them. */
  lemma TopMaximal(values: seq<string>, x: string)
    requires x in values && !Listed(Top(values), x)
    ensures forall i :: 0 <= i < |Top(values)| ==> Before(Top(values)[i], (x, multiset(values)[x]), values)
  {
    var sorted := SortByCount(Tallied(values));
    var top := Top(values);
    UnlistedAfterTop(values, x);
    var j :| |top| <= j < |sorted| && sorted[j] == (x, multiset(values)[x]);
    SortedTallyFacts(values);
    forall i | 0 <= i < |top|
      ensures Before(top[i], (x, multiset(values)[x]), values)
    {
      assert top[i] == sorted[i];
      assert Before(sorted[i], sorted[j], values);
    }
  }

  /** A value left out of the top entries sits after them in the sorted
      entries. */
  lemma UnlistedAfterTop(values: seq<string>, x: string)
    requires x in values && !Listed(Top(values), x)
    ensures exists j :: |Top(values)| <= j < |SortByCount(Tallied(values))| &&
                        SortByCount(Tallied(values))[j] == (x, multiset(values)[x])
  {
    var entries := Tallied(values);
    var sorted := SortByCount(entries);
    var top := Top(values);
    var k := FirstIndex(Distinct(values), x);
    assert entries[k] == (x, multiset(values)[x]);
    assert entries[k] in multiset(sorted);
    var j :| 0 <= j < |sorted| && sorted[j] == entries[k];
    forall i | 0 <= i < |top|
      ensures sorted[i] != sorted[j]
    {
      assert top[i] == sorted[i];
    }
    assert j >= |top|;
  }

  /** The five most frequent values with their counts, most frequent first,
      ties in the order the values were first seen. */
  method CommonValues(values: seq<string>) returns (top: seq<Entry>)
    ensures top == Top(values)
    ensures |top| == Min(5, |Distinct(values)|)
    ensures forall i :: 0 <= i < |top| ==> top[i].0 in values && top[i].1 == multiset(values)[top[i].0]
    ensures Ordered(top, values)
    ensures forall i, j :: 0 <= i < j < |top| ==> top[i].0 != top[j].0
    ensures forall x :: x in values && !Listed(top, x) ==>
              forall i :: 0 <= i < |top| ==> Before(top[i], (x, multiset(values)[x]), values)
  {
    var keys, counts := TallyValues(values);
    var entries := Entries(keys, counts);
    assert entries == Tallied(values);
    var sorted := SortByCount(entries);
    top := sorted[..Min(5, |sorted|)];
    TopOrdered(values);
    forall x | x in values && !Listed(top, x)
      ensures forall i :: 0 <= i < |top| ==> Before(top[i], (x, multiset(values)[x]), values)
    {
      TopMaximal(values, x);
    }
  }
}
