/** Shared vocabulary of the model: optional values, the ASCII subset of the
    JavaScript string operations the client uses (toLowerCase, toUpperCase,
    includes, split, join, trim), and the Array.filter / new Set idioms,
    together with the facts about them that the page modules rely on. */
module Common {

  datatype Option<T> = None | Some(value: T)

  /** A status badge as the pages render it: its text and its colour class. */
  datatype Badge = Badge(text: string, colour: string)

  // ---------------------------------------------------------------------
  // Characters

  /** String.prototype.toLowerCase, restricted to ASCII letters. */
  function LowerChar(c: char): char {
    if 'A' <= c <= 'Z' then (c as int + 32) as char else c
  }

  /** String.prototype.toUpperCase, restricted to ASCII letters. */
  function UpperChar(c: char): char {
    if 'a' <= c <= 'z' then (c as int - 32) as char else c
  }

  /** The characters matched by the regular-expression class \s (ASCII part). */
  predicate IsSpace(c: char) {
    c == ' ' || c == '\t' || c == '\n' || c == '\r' || c == '\U{000B}' || c == '\U{000C}'
  }

  /** The characters matched by \d. */
  predicate IsDigit(c: char) {
    '0' <= c <= '9'
  }

  function Lower(s: string): (r: string)
    ensures |r| == |s|
    ensures forall i :: 0 <= i < |s| ==> r[i] == LowerChar(s[i])
  {
    if s == [] then [] else [LowerChar(s[0])] + Lower(s[1..])
  }

  function Upper(s: string): (r: string)
    ensures |r| == |s|
    ensures forall i :: 0 <= i < |s| ==> r[i] == UpperChar(s[i])
  {
    if s == [] then [] else [UpperChar(s[0])] + Upper(s[1..])
  }

  lemma {:induction false} LowerConcat(a: string, b: string)
    ensures Lower(a + b) == Lower(a) + Lower(b)
  {
    if a == [] {
      assert a + b == b;
    } else {
      assert (a + b)[0] == a[0] && (a + b)[1..] == a[1..] + b;
      LowerConcat(a[1..], b);
      assert Lower(a + b) == [LowerChar(a[0])] + (Lower(a[1..]) + Lower(b));
    }
  }

  /** Lower-casing twice is lower-casing once. */
  lemma LowerIdempotent(s: string)
    ensures Lower(Lower(s)) == Lower(s)
  {
  }

  /** Lower-casing forgets whether a letter was upper-cased first. */
  lemma LowerUpper(s: string)
    ensures Lower(Upper(s)) == Lower(s)
  {
  }

  // ---------------------------------------------------------------------
  // Substring search (String.prototype.includes)

  predicate OccursAt(needle: string, hay: string, i: int) {
    0 <= i && i + |needle| <= |hay| && hay[i..i + |needle|] == needle
  }

  /** hay.includes(needle) */
  predicate Includes(hay: string, needle: string) {
    exists i | 0 <= i <= |hay| - |needle| :: OccursAt(needle, hay, i)
  }

  /** a.toLowerCase().includes(b.toLowerCase()) */
  predicate IncludesIgnoreCase(hay: string, needle: string) {
    Includes(Lower(hay), Lower(needle))
  }

  lemma IncludesEmpty(hay: string)
    ensures Includes(hay, "")
  {
    assert OccursAt("", hay, 0);
  }

  lemma IncludesIgnoreCaseEmpty(hay: string)
    ensures IncludesIgnoreCase(hay, "")
  {
    IncludesEmpty(Lower(hay));
  }

  // ---------------------------------------------------------------------
  // Array.prototype.filter and order-preserving subsequences

  function Filter<T(!new)>(s: seq<T>, p: T -> bool): (r: seq<T>)
    ensures |r| <= |s|
    ensures forall x :: x in r <==> x in s && p(x)
  {
    if s == [] then [] else (if p(s[0]) then [s[0]] else []) + Filter(s[1..], p)
  }

  /** r can be obtained from s by deleting elements, keeping the order. */
  predicate Subseq<T(==)>(r: seq<T>, s: seq<T>) {
    if r == [] then true
    else if s == [] then false
    else if r[0] == s[0] then Subseq(r[1..], s[1..])
    else Subseq(r, s[1..])
  }

  lemma {:induction false} FilterIsSubseq<T(!new)>(s: seq<T>, p: T -> bool)
    ensures Subseq(Filter(s, p), s)
  {
    if s != [] {
      FilterIsSubseq(s[1..], p);
      if p(s[0]) {
        assert Filter(s, p) == [s[0]] + Filter(s[1..], p);
      } else {
        assert Filter(s, p) == Filter(s[1..], p);
        SubseqDropHead(Filter(s[1..], p), s);
      }
    }
  }

  /** Deleting the head of s keeps every subsequence of s[1..] a subsequence of s. */
  lemma {:induction false} SubseqDropHead<T>(r: seq<T>, s: seq<T>)
    requires s != [] && Subseq(r, s[1..])
    ensures Subseq(r, s)
    decreases |s|, 0
  {
    if r != [] && r[0] == s[0] {
      SubseqTail(r, s[1..]);
    }
  }

  lemma {:induction false} SubseqTail<T>(r: seq<T>, s: seq<T>)
    requires r != [] && Subseq(r, s)
    ensures Subseq(r[1..], s)
    decreases |s|, 1
  {
    if s != [] {
      if r[0] == s[0] {
        SubseqDropHead(r[1..], s);
      } else {
        SubseqTail(r, s[1..]);
        SubseqDropHead(r[1..], s);
      }
    }
  }

  lemma {:induction false} SubseqRefl<T>(s: seq<T>)
    ensures Subseq(s, s)
  {
    if s != [] {
      SubseqRefl(s[1..]);
    }
  }

  lemma {:induction false} FilterAll<T(!new)>(s: seq<T>, p: T -> bool)
    requires forall x :: x in s ==> p(x)
    ensures Filter(s, p) == s
  {
    if s != [] {
      FilterAll(s[1..], p);
    }
  }

  lemma {:induction false} FilterNone<T(!new)>(s: seq<T>, p: T -> bool)
    requires forall x :: x in s ==> !p(x)
    ensures Filter(s, p) == []
  {
    if s != [] {
      FilterNone(s[1..], p);
    }
  }

  /** Two filter stages in a row are one filter by the conjunction. */
  lemma {:induction false} FilterFilter<T(!new)>(s: seq<T>, p: T -> bool, q: T -> bool, both: T -> bool)
    requires forall x :: both(x) == (p(x) && q(x))
    ensures Filter(Filter(s, p), q) == Filter(s, both)
  {
    if s != [] {
      FilterFilter(s[1..], p, q, both);
      assert Filter(s, p) == (if p(s[0]) then [s[0]] else []) + Filter(s[1..], p);
      FilterConcat((if p(s[0]) then [s[0]] else []), Filter(s[1..], p), q);
    }
  }

  lemma {:induction false} FilterConcat<T(!new)>(a: seq<T>, b: seq<T>, p: T -> bool)
    ensures Filter(a + b, p) == Filter(a, p) + Filter(b, p)
  {
    if a == [] {
      assert a + b == b;
    } else {
      assert (a + b)[1..] == a[1..] + b;
      FilterConcat(a[1..], b, p);
    }
  }

  /** Filtering by equivalent predicates gives the same list. */
  lemma {:induction false} FilterExt<T(!new)>(s: seq<T>, p: T -> bool, q: T -> bool)
    requires forall x :: x in s ==> p(x) == q(x)
    ensures Filter(s, p) == Filter(s, q)
  {
    if s != [] {
      FilterExt(s[1..], p, q);
    }
  }

  /** One stage of a filter pipeline: a list that is s filtered by p, then
      filtered by q when the stage applies (and left alone when q keeps
      everything), is s filtered by both. */
  lemma FilterStage<T(!new)>(s: seq<T>, p: T -> bool, q: T -> bool, both: T -> bool, before: seq<T>,
                             after: seq<T>, applied: bool)
    requires before == Filter(s, p)
    requires forall x :: both(x) == (p(x) && q(x))
    requires applied ==> after == Filter(before, q)
    requires !applied ==> after == before && forall x :: q(x)
    ensures after == Filter(s, both)
  {
    if !applied {
      FilterAll(before, q);
    }
    FilterFilter(s, p, q, both);
  }

  /** Filtering never changes an element, so the result's elements at each
      index satisfy the predicate and come from s. */
  lemma FilterSatisfies<T(!new)>(s: seq<T>, p: T -> bool, i: int)
    requires 0 <= i < |Filter(s, p)|
    ensures p(Filter(s, p)[i]) && Filter(s, p)[i] in s
  {
    assert Filter(s, p)[i] in Filter(s, p);
  }

  lemma {:induction false} FilterDisjoint<T(!new)>(s: seq<T>, p: T -> bool, q: T -> bool)
    requires forall x :: !(p(x) && q(x))
    ensures forall x :: !(x in Filter(s, p) && x in Filter(s, q))
  {
  }

  /** A weaker predicate keeps at least as many elements. */
  lemma {:induction false} FilterCountMonotone<T(!new)>(s: seq<T>, p: T -> bool, q: T -> bool)
    requires forall x :: p(x) ==> q(x)
    ensures |Filter(s, p)| <= |Filter(s, q)|
  {
    if s != [] {
      FilterCountMonotone(s[1..], p, q);
    }
  }

  /** Three predicates no element satisfies two of keep no more elements
      together than there are. */
  lemma {:induction false} FilterCountsDisjoint<T(!new)>(s: seq<T>, p: T -> bool, q: T -> bool, r: T -> bool)
    requires forall x :: !(p(x) && q(x)) && !(p(x) && r(x)) && !(q(x) && r(x))
    ensures |Filter(s, p)| + |Filter(s, q)| + |Filter(s, r)| <= |s|
  {
    if s != [] {
      FilterCountsDisjoint(s[1..], p, q, r);
    }
  }

  // ---------------------------------------------------------------------
  // Distinct values in first-occurrence order ([...new Set(xs)])

  function Distinct<T(==,!new)>(s: seq<T>): (r: seq<T>)
    ensures forall x :: x in r <==> x in s
  {
    if s == [] then []
    else
      var d := Distinct(s[..|s| - 1]);
      assert s == s[..|s| - 1] + [s[|s| - 1]];
      if s[|s| - 1] in d then d else d + [s[|s| - 1]]
  }

  predicate NoDuplicates<T(==)>(s: seq<T>) {
    forall i, j :: 0 <= i < j < |s| ==> s[i] != s[j]
  }

  /** xs.map(f): the value f picks out of each element, in order. */
  function Column<T, U>(xs: seq<T>, f: T -> U): (r: seq<U>)
    ensures |r| == |xs| && forall i :: 0 <= i < |xs| ==> r[i] == f(xs[i])
  {
    seq(|xs|, i requires 0 <= i < |xs| => f(xs[i]))
  }

  /** [...new Set(xs.map(f))]: each value f picks out once, exactly the
      values that occur, in the order of their first occurrence. */
  function DistinctColumn<T, U(==,!new)>(xs: seq<T>, f: T -> U): (r: seq<U>)
    ensures NoDuplicates(r)
    ensures forall u :: u in r <==> exists i :: 0 <= i < |xs| && f(xs[i]) == u
    ensures forall i, j :: 0 <= i < j < |r| ==> FirstIndex(Column(xs, f), r[i]) < FirstIndex(Column(xs, f), r[j])
  {
    var c := Column(xs, f);
    DistinctOrdered(c);
    assert forall u :: u in c <==> exists i :: 0 <= i < |xs| && f(xs[i]) == u;
    Distinct(c)
  }

  /** Index of the first element satisfying p (Array.prototype.find /
      rows[0] of a query), or |s| when there is none. */
  function FirstWhere<T>(s: seq<T>, p: T -> bool): (k: nat)
    ensures k <= |s|
    ensures k < |s| ==> p(s[k])
    ensures forall i :: 0 <= i < k ==> !p(s[i])
  {
    if s == [] then 0 else if p(s[0]) then 0 else 1 + FirstWhere(s[1..], p)
  }

  /** Index of the first occurrence of x in s, or |s| when x does not occur. */
  function FirstIndex<T(==)>(s: seq<T>, x: T): (k: nat)
    ensures k <= |s|
    ensures k < |s| <==> x in s
    ensures k < |s| ==> s[k] == x && x !in s[..k]
  {
    if s == [] then 0 else if s[0] == x then 0 else 1 + FirstIndex(s[1..], x)
  }

  lemma {:induction false} FirstIndexPrefix<T>(s: seq<T>, n: nat, x: T)
    requires n <= |s| && x in s[..n]
    ensures FirstIndex(s, x) == FirstIndex(s[..n], x)
  {
    if s[0] != x {
      assert s[..n][1..] == s[1..][..n - 1];
      FirstIndexPrefix(s[1..], n - 1, x);
    }
  }

  /** The distinct list has no duplicates and lists the values in the order of
      their first occurrence. */
  lemma {:induction false} DistinctOrdered<T(!new)>(s: seq<T>)
    ensures NoDuplicates(Distinct(s))
    ensures forall i, j :: 0 <= i < j < |Distinct(s)| ==>
              FirstIndex(s, Distinct(s)[i]) < FirstIndex(s, Distinct(s)[j])
  {
    if s != [] {
      var n := |s| - 1;
      var p := s[..n];
      var d := Distinct(p);
      DistinctOrdered(p);
      assert s == p + [s[n]];
      forall y | y in d
        ensures FirstIndex(s, y) == FirstIndex(p, y) && FirstIndex(p, y) < n
      {
        FirstIndexPrefix(s, n, y);
      }
      if s[n] !in d {
        assert FirstIndex(s, s[n]) == n;
        var r := d + [s[n]];
        forall i, j | 0 <= i < j < |r|
          ensures FirstIndex(s, r[i]) < FirstIndex(s, r[j])
        {
          if j < |d| {
            assert r[i] == d[i] && r[j] == d[j];
          } else {
            assert r[i] in d;
          }
        }
      }
    }
  }

  // ---------------------------------------------------------------------
  // split / join / trim

  /** s.split(sep) for a one-character separator. */
  function Split(s: string, sep: char): (r: seq<string>)
    ensures |r| >= 1
    ensures forall w :: w in r ==> sep !in w
    decreases |s|
  {
    if sep !in s then [s]
    else
      var i := FirstIndex(s, sep);
      [s[..i]] + Split(s[i + 1..], sep)
  }

  /** pieces.join(sep) */
  function Join(pieces: seq<string>, sep: string): string {
    if pieces == [] then ""
    else if |pieces| == 1 then pieces[0]
    else pieces[0] + sep + Join(pieces[1..], sep)
  }

  lemma {:induction false} SplitJoin(pieces: seq<string>, sep: char)
    requires |pieces| >= 1
    requires forall w :: w in pieces ==> sep !in w
    ensures Split(Join(pieces, [sep]), sep) == pieces
  {
    if |pieces| > 1 {
      var w, tail := pieces[0], pieces[1..];
      assert pieces == [w] + tail;
      JoinCons(w, tail, [sep]);
      assert pieces[0] in pieces;
      SplitAtFirst(w, Join(tail, [sep]), sep);
      assert forall x :: x in tail ==> x in pieces;
      SplitJoin(tail, sep);
    }
  }

  /** Splitting at the first separator. */
  lemma SplitAtFirst(w: string, rest: string, sep: char)
    requires sep !in w
    ensures Split(w + [sep] + rest, sep) == [w] + Split(rest, sep)
  {
    var s := w + [sep] + rest;
    assert FirstIndex(s, sep) == |w| by {
      FirstIndexAfter(w, sep, [sep] + rest);
      assert s == w + ([sep] + rest);
    }
    assert s[|w|] == sep;
    assert s[..|w|] == w && s[|w| + 1..] == rest;
  }

  lemma {:induction false} FirstIndexAfter(w: string, c: char, t: string)
    requires c !in w && t != [] && t[0] == c
    ensures FirstIndex(w + t, c) == |w|
  {
    if w != [] {
      assert (w + t)[1..] == w[1..] + t;
      FirstIndexAfter(w[1..], c, t);
    }
  }

  lemma {:induction false} JoinSplit(s: string, sep: char)
    ensures Join(Split(s, sep), [sep]) == s
    decreases |s|
  {
    if sep in s {
      var i := FirstIndex(s, sep);
      var w, rest := s[..i], s[i + 1..];
      assert s == w + [sep] + rest;
      SplitAtFirst(w, rest, sep);
      JoinCons(w, Split(rest, sep), [sep]);
      JoinSplit(rest, sep);
    }
  }

  lemma JoinCons(w: string, rest: seq<string>, sep: string)
    requires |rest| >= 1
    ensures Join([w] + rest, sep) == w + sep + Join(rest, sep)
  {
    assert ([w] + rest)[1..] == rest;
  }

  /** The pieces of xs.join(', ') once split on ',': the first as it is,
      each later one behind a space. */
  function CommaSpaced(xs: seq<string>): (r: seq<string>)
    ensures |r| == |xs|
    ensures forall i :: 0 <= i < |xs| ==> r[i] == if i == 0 then xs[0] else " " + xs[i]
  {
    seq(|xs|, i requires 0 <= i < |xs| => if i == 0 then xs[0] else " " + xs[i])
  }

  /** Joining with ", " is joining the space-prefixed pieces with ",". */
  lemma {:induction false} JoinCommaSpace(xs: seq<string>)
    ensures Join(xs, ", ") == Join(CommaSpaced(xs), ",")
  {
    if |xs| > 1 {
      JoinCommaSpace(xs[1..]);
      var ys := CommaSpaced(xs[1..]);
      var zs := CommaSpaced(xs)[1..];
      assert zs == ys[0 := " " + ys[0]];
      JoinPrefixFirst(" ", ys, ",");
      assert Join(CommaSpaced(xs), ",") == xs[0] + "," + Join(zs, ",");
    }
  }

  lemma JoinPrefixFirst(p: string, xs: seq<string>, sep: string)
    requires |xs| >= 1
    ensures Join(xs[0 := p + xs[0]], sep) == p + Join(xs, sep)
  {
    var ys := xs[0 := p + xs[0]];
    if |xs| > 1 {
      assert ys[1..] == xs[1..];
    }
  }

  function TrimStart(s: string): (r: string)
    ensures r == [] || !IsSpace(r[0])
    ensures exists k :: 0 <= k <= |s| && r == s[k..] && forall i :: 0 <= i < k ==> IsSpace(s[i])
  {
    if s == [] then
      assert s == s[0..];
      s
    else if IsSpace(s[0]) then
      var r := TrimStart(s[1..]);
      var k :| 0 <= k <= |s| - 1 && r == s[1..][k..] && forall i :: 0 <= i < k ==> IsSpace(s[1..][i]);
      assert r == s[k + 1..];
      r
    else
      assert s == s[0..];
      s
  }

  function TrimEnd(s: string): (r: string)
    ensures r == [] || !IsSpace(r[|r| - 1])
    ensures exists k :: 0 <= k <= |s| && r == s[..k] && forall i :: k <= i < |s| ==> IsSpace(s[i])
  {
    if s == [] then
      assert s == s[..0];
      s
    else if IsSpace(s[|s| - 1]) then
      var r := TrimEnd(s[..|s| - 1]);
      var k :| 0 <= k <= |s| - 1 && r == s[..|s| - 1][..k] && forall i :: k <= i < |s| - 1 ==> IsSpace(s[i]);
      assert r == s[..k];
      r
    else
      assert s == s[..|s|];
      s
  }

  /** s.trim() */
  function Trim(s: string): string {
    TrimEnd(TrimStart(s))
  }

  predicate AllSpace(s: string) {
    forall i :: 0 <= i < |s| ==> IsSpace(s[i])
  }

  /** item.trim() is truthy exactly when item has a non-space character. */
  lemma TrimEmptyIffAllSpace(s: string)
    ensures Trim(s) == "" <==> AllSpace(s)
  {
    var t := TrimStart(s);
    TrimStartEmptyIffAllSpace(s);
    var m :| 0 <= m <= |t| && Trim(s) == t[..m] && forall i :: m <= i < |t| ==> IsSpace(t[i]);
    if t != "" {
      assert !IsSpace(t[0]);
      assert m > 0;
      assert Trim(s)[0] == t[0];
    }
  }

  lemma {:induction false} TrimStartEmptyIffAllSpace(s: string)
    ensures TrimStart(s) == "" <==> AllSpace(s)
  {
    if s != [] {
      if IsSpace(s[0]) {
        TrimStartEmptyIffAllSpace(s[1..]);
        assert AllSpace(s) <==> AllSpace(s[1..]) by {
          assert forall i :: 0 < i < |s| ==> s[i] == s[1..][i - 1];
        }
      } else {
        assert !AllSpace(s);
      }
    }
  }

  /** A leading space makes no difference to trim. */
  lemma TrimLeadingSpace(s: string)
    ensures Trim(" " + s) == Trim(s)
  {
    assert (" " + s)[1..] == s;
  }

  lemma TrimNoSpaceEnds(s: string)
    requires s != [] && !IsSpace(s[0]) && !IsSpace(s[|s| - 1])
    ensures Trim(s) == s
  {
    assert TrimStart(s) == s;
  }

  // ---------------------------------------------------------------------
  // Numbers as decimal text

  /** s.replace(/\D/g, ''): the digits of s, in order. */
  function Digits(s: string): (r: string)
    ensures forall i :: 0 <= i < |r| ==> IsDigit(r[i])
    ensures |r| <= |s|
  {
    FilterSatisfiesAll(s);
    Filter(s, IsDigit)
  }

  lemma FilterSatisfiesAll(s: string)
    ensures forall i :: 0 <= i < |Filter(s, IsDigit)| ==> IsDigit(Filter(s, IsDigit)[i])
  {
    forall i | 0 <= i < |Filter(s, IsDigit)| ensures IsDigit(Filter(s, IsDigit)[i]) {
      FilterSatisfies(s, IsDigit, i);
    }
  }

  function DigitChar(d: nat): char
    requires d < 10
  {
    "0123456789"[d]
  }

  /** String(n) for a non-negative integer. */
  function NatToString(n: nat): (r: string)
    ensures |r| >= 1
    ensures forall i :: 0 <= i < |r| ==> IsDigit(r[i])
  {
    if n < 10 then [DigitChar(n)] else NatToString(n / 10) + [DigitChar(n % 10)]
  }

  lemma {:induction false} NatToStringLength(n: nat, k: nat)
    requires Pow10(k) <= n < Pow10(k + 1)
    ensures |NatToString(n)| == k + 1
  {
    if k > 0 {
      NatToStringLength(n / 10, k - 1);
    }
  }

  function Pow10(k: nat): (p: nat)
    ensures p >= 1
  {
    if k == 0 then 1 else 10 * Pow10(k - 1)
  }

  function Min(a: int, b: int): int {
    if a <= b then a else b
  }

  function Max(a: int, b: int): int {
    if a >= b then a else b
  }
}
