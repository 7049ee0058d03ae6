// The client's record search: a breadth-first walk from one medical id that
// collects the records carrying it. Only the start id is ever put on the
// queue, so the walk visits that one id and stops.

module Search {
  import opened Common

  /** The records whose medical id is strictly equal to `start`. A missing
      medical id (None) is equal only to a missing start id. */
  function Matching<R(!new)>(records: seq<R>, medicalIdOf: R -> Option<string>, start: Option<string>): seq<R> {
    Filter(records, r => medicalIdOf(r) == start)
  }

  /** bfsSearch: the queue starts with the start id; each id taken off the
      queue that was not visited yet is marked visited and the records
      carrying it are appended to the result. `rounds` counts the loop's
      iterations. */
  method BfsSearch<R(!new)>(records: seq<R>, medicalIdOf: R -> Option<string>, start: Option<string>)
    returns (result: seq<R>, ghost rounds: nat)
    ensures result == Matching(records, medicalIdOf, start)
    ensures rounds == 1
  {
    var queue := [start];
    var visited: set<Option<string>> := {};
    result := [];
    rounds := 0;
    while |queue| > 0
      invariant (queue == [start] && visited == {} && result == [] && rounds == 0) ||
                (queue == [] && visited == {start} && result == Matching(records, medicalIdOf, start) && rounds == 1)
      decreases |queue|
    {
      var current := queue[0];
      queue := queue[1..];
      if current !in visited {
        visited := visited + {current};
        var patientRecords := Filter(records, r => medicalIdOf(r) == current);
        result := result + patientRecords;
      }
      rounds := rounds + 1;
    }
  }

  /** The matching records keep their order in the input, every matching
      record is kept as many times as it occurs, no other record appears,
      and an empty input gives an empty result. */
  lemma {:induction false} MatchingCounts<R(!new)>(records: seq<R>, medicalIdOf: R -> Option<string>, start: Option<string>)
    ensures Subseq(Matching(records, medicalIdOf, start), records)
    ensures forall r :: multiset(Matching(records, medicalIdOf, start))[r] ==
                          if medicalIdOf(r) == start then multiset(records)[r] else 0
    ensures records == [] ==> Matching(records, medicalIdOf, start) == []
  {
    FilterIsSubseq(records, r => medicalIdOf(r) == start);
    FilterMultiplicity(records, r => medicalIdOf(r) == start);
  }

  lemma {:induction false} FilterMultiplicity<T(!new)>(s: seq<T>, p: T -> bool)
    ensures forall x :: multiset(Filter(s, p))[x] == if p(x) then multiset(s)[x] else 0
  {
    if s != [] {
      FilterMultiplicity(s[1..], p);
      assert s == [s[0]] + s[1..];
    }
  }
}
