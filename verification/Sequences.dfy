/** Sums, selections and pages of sequences. */
module Sequences {

  function Sum<T>(s: seq<T>, f: T -> real): real {
    if |s| == 0 then 0.0 else Sum(s[..|s| - 1], f) + f(s[|s| - 1])
  }

  lemma {:induction false} SumWithout<T>(s: seq<T>, i: nat, f: T -> real)
    requires i < |s|
    ensures Sum(s, f) == Sum(s[..i] + s[i + 1..], f) + f(s[i])
  {
    var last := |s| - 1;
    if i == last {
      assert s[..i] + s[i + 1..] == s[..last];
    } else {
      SumWithout(s[..last], i, f);
      var rest := s[..i] + s[i + 1..];
      assert rest[..|rest| - 1] == s[..last][..i] + s[..last][i + 1..];
    }
  }

  lemma WithoutOne<T>(s: seq<T>, i: nat)
    requires i < |s|
    ensures multiset(s[..i] + s[i + 1..]) == multiset(s) - multiset{s[i]}
  {
    assert s == s[..i] + [s[i]] + s[i + 1..];
  }

  lemma {:induction false} SumPermutation<T>(a: seq<T>, b: seq<T>, f: T -> real)
    requires multiset(a) == multiset(b)
    ensures Sum(a, f) == Sum(b, f)
  {
    if |a| == 0 {
      assert |multiset(b)| == 0;
    } else {
      var last := |a| - 1;
      assert a[last] in multiset(b);
      var i :| 0 <= i < |b| && b[i] == a[last];
      WithoutOne(a, last);
      WithoutOne(b, i);
      assert a[..last] + a[last + 1..] == a[..last];
      SumPermutation(a[..last], b[..i] + b[i + 1..], f);
      SumWithout(b, i, f);
    }
  }

  /** The elements of `s` that satisfy `p`, in the order of `s`. */
  function Select<T>(s: seq<T>, p: T -> bool): (r: seq<T>)
    ensures |r| <= |s|
  {
    if |s| == 0 then []
    else
      var rest := Select(s[..|s| - 1], p);
      if p(s[|s| - 1]) then rest + [s[|s| - 1]] else rest
  }

  lemma {:induction false} SelectMembers<T(!new)>(s: seq<T>, p: T -> bool)
    ensures forall x :: x in Select(s, p) <==> x in s && p(x)
  {
    if |s| > 0 {
      SelectMembers(s[..|s| - 1], p);
      assert s == s[..|s| - 1] + [s[|s| - 1]];
    }
  }

  lemma SelectSnoc<T>(s: seq<T>, x: T, p: T -> bool)
    ensures Select(s + [x], p) == if p(x) then Select(s, p) + [x] else Select(s, p)
  {
    assert (s + [x])[..|s|] == s;
  }

  lemma {:induction false} SelectConcat<T>(a: seq<T>, b: seq<T>, p: T -> bool)
    ensures Select(a + b, p) == Select(a, p) + Select(b, p)
  {
    if |b| == 0 {
      assert a + b == a;
    } else {
      var init, x := b[..|b| - 1], b[|b| - 1];
      var left, right := Select(a, p), Select(init, p);
      SelectConcat(a, init, p);
      SelectSnoc(a + init, x, p);
      SelectSnoc(init, x, p);
      assert b == init + [x];
      assert a + b == (a + init) + [x];
      assert (left + right) + [x] == left + (right + [x]);
    }
  }

  lemma {:induction false} SelectCounts<T>(s: seq<T>, p: T -> bool, x: T)
    ensures multiset(Select(s, p))[x] == if p(x) then multiset(s)[x] else 0
  {
    if |s| > 0 {
      SelectCounts(s[..|s| - 1], p, x);
      assert s == s[..|s| - 1] + [s[|s| - 1]];
    }
  }

  lemma SelectPermutation<T(!new)>(a: seq<T>, b: seq<T>, p: T -> bool)
    requires multiset(a) == multiset(b)
    ensures multiset(Select(a, p)) == multiset(Select(b, p))
  {
    forall x ensures multiset(Select(a, p))[x] == multiset(Select(b, p))[x] {
      SelectCounts(a, p, x);
      SelectCounts(b, p, x);
    }
  }

  /** `OFFSET offset LIMIT limit`. */
  function Page<T>(s: seq<T>, offset: nat, limit: nat): (r: seq<T>)
    ensures |r| <= limit
    ensures offset == 0 && |s| <= limit ==> r == s
  {
    if offset >= |s| then []
    else if offset + limit >= |s| then s[offset..]
    else s[offset..offset + limit]
  }

  /** A page holds the rows from `offset` on, `limit` of them while there are so many. */
  lemma PageRows<T>(s: seq<T>, offset: nat, limit: nat)
    ensures |Page(s, offset, limit)|
         == if |s| <= offset then 0 else if |s| - offset < limit then |s| - offset else limit
    ensures forall i :: 0 <= i < |Page(s, offset, limit)| ==> Page(s, offset, limit)[i] == s[offset + i]
  {
  }

  /** A row that the first page does not hold comes after a full page. */
  lemma OffPage<T>(s: seq<T>, limit: nat, j: nat)
    requires j < |s| && s[j] !in Page(s, 0, limit)
    ensures j >= |Page(s, 0, limit)| == limit
  {
    hide Page;
    RowsOnPage(s, limit);
    PageRows(s, 0, limit);
  }

  lemma RowsOnPage<T>(s: seq<T>, limit: nat)
    ensures forall j :: 0 <= j < |s| && j < limit ==> s[j] in Page(s, 0, limit)
  {
    hide Page;
    PageRows(s, 0, limit);
    forall j | 0 <= j < |s| && j < limit ensures s[j] in Page(s, 0, limit) {
      assert Page(s, 0, limit)[j] == s[0 + j];
    }
  }

  /** Two pages in a row are one. */
  lemma PagesJoin<T>(s: seq<T>, offset: nat, m: nat, n: nat)
    ensures Page(s, offset, m) + Page(s, offset + m, n) == Page(s, offset, m + n)
  {
  }
}
