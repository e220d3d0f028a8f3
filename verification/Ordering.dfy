/** The order of `Array.prototype.sort` on strings, and what sorting by it gives. */
module Ordering {
  predicate Less(a: string, b: string) {
    if |b| == 0 then false
    else if |a| == 0 then true
    else if a[0] != b[0] then a[0] < b[0]
    else Less(a[1..], b[1..])
  }

  lemma {:induction false} LessIrreflexive(a: string)
    ensures !Less(a, a)
  {
    if |a| > 0 {
      LessIrreflexive(a[1..]);
    }
  }

  lemma {:induction false} LessTransitive(a: string, b: string, c: string)
    requires Less(a, b) && Less(b, c)
    ensures Less(a, c)
  {
    if |a| > 0 && a[0] == b[0] == c[0] {
      LessTransitive(a[1..], b[1..], c[1..]);
    }
  }

  lemma {:induction false} LessTotal(a: string, b: string)
    ensures Less(a, b) || Less(b, a) || a == b
  {
    if |a| > 0 && |b| > 0 && a[0] == b[0] {
      LessTotal(a[1..], b[1..]);
      assert a == [a[0]] + a[1..] && b == [b[0]] + b[1..];
    }
  }

  predicate Sorted(s: seq<string>) {
    forall i, j :: 0 <= i < j < |s| ==> !Less(s[j], s[i])
  }

  predicate Distinct<T(==)>(s: seq<T>) {
    forall i, j :: 0 <= i < j < |s| ==> s[i] != s[j]
  }

  function Insert(x: string, s: seq<string>): (r: seq<string>)
    requires Sorted(s)
    ensures multiset(r) == multiset(s) + multiset{x}
    ensures Sorted(r)
    ensures |r| == |s| + 1
  {
    if |s| == 0 then [x]
    else if Less(s[0], x) then
      var rest := Insert(x, s[1..]);
      assert s == [s[0]] + s[1..];
      var r := [s[0]] + rest;
      InsertAfterHead(x, s, rest);
      r
    else
      InsertBeforeHead(x, s);
      [x] + s
  }

  lemma InsertAfterHead(x: string, s: seq<string>, rest: seq<string>)
    requires |s| > 0 && Sorted(s) && Less(s[0], x) && Sorted(rest)
    requires multiset(rest) == multiset(s[1..]) + multiset{x}
    ensures Sorted([s[0]] + rest)
  {
    forall j | 0 <= j < |rest| ensures !Less(rest[j], s[0]) {
      assert rest[j] in multiset(rest);
      if rest[j] == x {
        if Less(x, s[0]) {
          LessTransitive(s[0], x, s[0]);
          LessIrreflexive(s[0]);
        }
      } else {
        assert rest[j] in s[1..];
      }
    }
  }

  lemma InsertBeforeHead(x: string, s: seq<string>)
    requires |s| > 0 && Sorted(s) && !Less(s[0], x)
    ensures Sorted([x] + s)
  {
    forall j | 0 <= j < |s| ensures !Less(s[j], x) {
      if Less(s[j], x) {
        LessTotal(s[0], x);
        if Less(x, s[0]) {
          LessTransitive(s[j], x, s[0]);
        }
      }
    }
  }

  function Sort(s: seq<string>): (r: seq<string>)
    ensures Sorted(r) && multiset(r) == multiset(s) && |r| == |s|
  {
    if |s| == 0 then []
    else
      assert s == s[..|s| - 1] + [s[|s| - 1]];
      Insert(s[|s| - 1], Sort(s[..|s| - 1]))
  }

  lemma SortedHead(a: seq<string>, b: seq<string>)
    requires Sorted(a) && Sorted(b) && multiset(a) == multiset(b) && |a| > 0
    ensures |b| > 0 && a[0] == b[0]
  {
    assert |multiset(a)| == |a| && |multiset(b)| == |b|;
    assert a[0] in multiset(b) && b[0] in multiset(a);
    var i :| 0 <= i < |b| && b[i] == a[0];
    var j :| 0 <= j < |a| && a[j] == b[0];
    LessTotal(a[0], b[0]);
  }

  lemma MultisetTail(a: seq<string>)
    requires |a| > 0
    ensures multiset(a[1..]) == multiset(a) - multiset{a[0]}
  {
    assert a == [a[0]] + a[1..];
  }

  /** Two sorted sequences of the same strings are the same sequence. */
  lemma {:induction false} SortedUnique(a: seq<string>, b: seq<string>)
    requires Sorted(a) && Sorted(b) && multiset(a) == multiset(b)
    ensures a == b
  {
    if |a| == 0 {
      assert |multiset(b)| == 0;
    } else {
      SortedHead(a, b);
      MultisetTail(a);
      MultisetTail(b);
      SortedUnique(a[1..], b[1..]);
      assert a == [a[0]] + a[1..] && b == [b[0]] + b[1..];
    }
  }

  /** Sorting keeps a list free of duplicates, and sorted without duplicates is strictly increasing. */
  lemma {:induction false} DistinctByCount<T>(s: seq<T>)
    ensures Distinct(s) <==> forall x :: x in s ==> multiset(s)[x] == 1
  {
    if |s| > 0 {
      var front, last := s[..|s| - 1], s[|s| - 1];
      assert s == front + [last];
      DistinctByCount(front);
      if Distinct(s) {
        assert last !in front;
        forall x | x in s ensures multiset(s)[x] == 1 {
          if x != last {
            assert x in front;
          }
        }
      }
      if forall x :: x in s ==> multiset(s)[x] == 1 {
        assert last in s && multiset(s)[last] == 1;
        assert multiset(front)[last] == 0;
        forall x | x in front ensures multiset(front)[x] == 1 {
          assert x in s && multiset(s)[x] == 1;
        }
      }
    }
  }

  lemma SortDistinct(s: seq<string>)
    ensures Distinct(Sort(s)) <==> Distinct(s)
  {
    DistinctByCount(s);
    DistinctByCount(Sort(s));
    assert forall x :: x in s <==> x in multiset(s);
    assert forall x :: x in Sort(s) <==> x in multiset(Sort(s));
  }

  lemma StrictlyIncreasing(s: seq<string>, i: nat, j: nat)
    requires Sorted(s) && Distinct(s) && i < j < |s|
    ensures Less(s[i], s[j])
  {
    LessTotal(s[i], s[j]);
  }
}
