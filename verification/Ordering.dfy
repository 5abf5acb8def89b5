/** The total order every ordered read and every sort of the platform uses: an instant
    first, then a text compared code point by code point. */
module Ordering {

  /** `(trade_timestamp, event_id)`, `(received_at, event_id)`, `(validated_at, event_id)`
      and `(window_start, symbol)` are all keys of this shape. */
  datatype Key = Key(time: int, id: string)

  predicate TextLe(a: string, b: string) {
    |a| == 0 || (|b| > 0 && (a[0] < b[0] || (a[0] == b[0] && TextLe(a[1..], b[1..]))))
  }

  predicate KeyLe(a: Key, b: Key) {
    a.time < b.time || (a.time == b.time && TextLe(a.id, b.id))
  }

  lemma {:induction false} TextTotal(a: string, b: string)
    ensures TextLe(a, b) || TextLe(b, a)
  {
    if |a| > 0 && |b| > 0 {
      TextTotal(a[1..], b[1..]);
    }
  }

  lemma {:induction false} TextAntisymmetric(a: string, b: string)
    requires TextLe(a, b) && TextLe(b, a)
    ensures a == b
  {
    if |a| > 0 && |b| > 0 {
      TextAntisymmetric(a[1..], b[1..]);
      assert a == [a[0]] + a[1..] && b == [b[0]] + b[1..];
    }
  }

  lemma {:induction false} TextTransitive(a: string, b: string, c: string)
    requires TextLe(a, b) && TextLe(b, c)
    ensures TextLe(a, c)
  {
    if |a| > 0 && a[0] == b[0] == c[0] {
      TextTransitive(a[1..], b[1..], c[1..]);
    }
  }

  /** `KeyLe` is a total order, so a sort by a key that tells its elements apart has one result. */
  lemma KeyTotalOrder(a: Key, b: Key, c: Key)
    ensures KeyLe(a, b) || KeyLe(b, a)
    ensures KeyLe(a, b) && KeyLe(b, a) ==> a == b
    ensures KeyLe(a, b) && KeyLe(b, c) ==> KeyLe(a, c)
  {
    TextTotal(a.id, b.id);
    if KeyLe(a, b) && KeyLe(b, a) {
      TextAntisymmetric(a.id, b.id);
    }
    if KeyLe(a, b) && KeyLe(b, c) && a.time == b.time == c.time {
      TextTransitive(a.id, b.id, c.id);
    }
  }

  /** `a` comes no later than `b` in a dictionary: it is a beginning of `b`, or at the first place where
      the two differ it has the smaller character. */
  ghost predicate InDictionaryOrder(a: string, b: string) {
    exists n: nat :: SameUpTo(a, b, n) && (n == |a| || (n < |b| && a[n] < b[n]))
  }

  /** The first `n` characters agree. */
  predicate SameUpTo(a: string, b: string, n: nat) { n <= |a| && n <= |b| && a[..n] == b[..n] }

  lemma FirstAgrees(a: string, b: string, n: nat)
    requires SameUpTo(a, b, n) && n > 0
    ensures |a| > 0 && |b| > 0 && a[0] == b[0]
  {
    assert a[..n][0] == b[..n][0];
  }

  lemma {:induction false} TextLeMeaning(a: string, b: string)
    ensures TextLe(a, b) <==> InDictionaryOrder(a, b)
  {
    if |a| == 0 {
      assert SameUpTo(a, b, 0);
    } else if |b| == 0 || a[0] != b[0] {
      assert |b| > 0 && a[0] < b[0] ==> SameUpTo(a, b, 0);
      if n: nat :| SameUpTo(a, b, n) && (n == |a| || (n < |b| && a[n] < b[n])) {
        if n > 0 {
          FirstAgrees(a, b, n);
        }
      }
    } else {
      TextLeMeaning(a[1..], b[1..]);
      if m: nat :| SameUpTo(a[1..], b[1..], m) && (m == |a| - 1 || (m < |b| - 1 && a[1..][m] < b[1..][m])) {
        assert a[..m + 1] == [a[0]] + a[1..][..m] && b[..m + 1] == [b[0]] + b[1..][..m];
        assert SameUpTo(a, b, m + 1);
      }
      if n: nat :| SameUpTo(a, b, n) && (n == |a| || (n < |b| && a[n] < b[n])) {
        assert n > 0;
        assert a[1..][..n - 1] == a[..n][1..] && b[1..][..n - 1] == b[..n][1..];
        assert SameUpTo(a[1..], b[1..], n - 1);
      }
    }
  }

  /** An instant and a text that come no later than others: earlier, or at the same instant and no later
      in a dictionary. */
  ghost predicate NoLater(time: int, id: string, time': int, id': string) {
    time < time' || (time == time' && InDictionaryOrder(id, id'))
  }

  lemma KeyLeMeaning(a: Key, b: Key)
    ensures KeyLe(a, b) <==> NoLater(a.time, a.id, b.time, b.id)
  {
    TextLeMeaning(a.id, b.id);
  }

  ghost predicate SortedBy<T(!new)>(s: seq<T>, key: T -> Key) {
    forall i, j :: 0 <= i < j < |s| ==> KeyLe(key(s[i]), key(s[j]))
  }

  /** The key tells the elements of `s` apart. */
  ghost predicate Separates<T(!new)>(s: seq<T>, key: T -> Key) {
    forall x, y :: x in s && y in s && key(x) == key(y) ==> x == y
  }

  function Place<T>(x: T, s: seq<T>, key: T -> Key): seq<T> {
    if |s| == 0 || KeyLe(key(x), key(s[0])) then [x] + s
    else [s[0]] + Place(x, s[1..], key)
  }

  /** A stable sort by `key`. */
  function SortBy<T>(s: seq<T>, key: T -> Key): seq<T> {
    if |s| == 0 then [] else Place(s[0], SortBy(s[1..], key), key)
  }

  lemma {:induction false} PlaceSorts<T(!new)>(x: T, s: seq<T>, key: T -> Key)
    requires SortedBy(s, key)
    ensures SortedBy(Place(x, s, key), key)
    ensures multiset(Place(x, s, key)) == multiset(s) + multiset{x}
  {
    if |s| == 0 {
    } else if KeyLe(key(x), key(s[0])) {
      forall j | 0 < j < |s| ensures KeyLe(key(x), key(s[j])) {
        KeyTotalOrder(key(x), key(s[0]), key(s[j]));
      }
    } else {
      PlaceSorts(x, s[1..], key);
      var rest := Place(x, s[1..], key);
      assert s == [s[0]] + s[1..];
      KeyTotalOrder(key(x), key(s[0]), key(x));
      forall j | 0 <= j < |rest| ensures KeyLe(key(s[0]), key(rest[j])) {
        assert rest[j] in multiset(rest);
        assert rest[j] in s[1..] || rest[j] == x;
      }
    }
  }

  lemma {:induction false} SortByCorrect<T(!new)>(s: seq<T>, key: T -> Key)
    ensures SortedBy(SortBy(s, key), key)
    ensures multiset(SortBy(s, key)) == multiset(s)
    ensures |SortBy(s, key)| == |s|
  {
    if |s| > 0 {
      SortByCorrect(s[1..], key);
      PlaceSorts(s[0], SortBy(s[1..], key), key);
      assert s == [s[0]] + s[1..];
    }
    assert |multiset(SortBy(s, key))| == |multiset(s)|;
  }

  lemma TailMultiset<T>(s: seq<T>)
    requires |s| > 0
    ensures multiset(s[1..]) == multiset(s) - multiset{s[0]}
  {
    assert s == [s[0]] + s[1..];
  }

  /** The head of a sorted sequence has the least key. */
  lemma HeadIsLeast<T(!new)>(s: seq<T>, key: T -> Key, x: T)
    requires SortedBy(s, key) && x in s
    ensures KeyLe(key(s[0]), key(x))
  {
    KeyTotalOrder(key(x), key(x), key(x));
  }

  lemma {:induction false} SortedIsUnique<T(!new)>(a: seq<T>, b: seq<T>, key: T -> Key)
    requires SortedBy(a, key) && SortedBy(b, key)
    requires multiset(a) == multiset(b) && Separates(a, key)
    ensures a == b
  {
    if |a| == 0 {
      assert |multiset(b)| == 0;
    } else {
      assert a[0] in multiset(b) && b != [];
      assert b[0] in multiset(a);
      HeadIsLeast(a, key, b[0]);
      HeadIsLeast(b, key, a[0]);
      KeyTotalOrder(key(a[0]), key(b[0]), key(b[0]));
      assert a[0] == b[0];
      TailMultiset(a);
      TailMultiset(b);
      SortedIsUnique(a[1..], b[1..], key);
      assert a == [a[0]] + a[1..] && b == [b[0]] + b[1..];
    }
  }

  /** A sort by a separating key depends on what is sorted, not on the order it came in. */
  lemma SortIgnoresOrder<T(!new)>(a: seq<T>, b: seq<T>, key: T -> Key)
    requires multiset(a) == multiset(b) && Separates(a, key)
    ensures SortBy(a, key) == SortBy(b, key)
  {
    SortByCorrect(a, key);
    SortByCorrect(b, key);
    forall x | x in SortBy(a, key) ensures x in a {
      assert x in multiset(SortBy(a, key));
    }
    SortedIsUnique(SortBy(a, key), SortBy(b, key), key);
  }

  /** `a` is `b` with some elements left out. */
  predicate Thinned<T(==)>(a: seq<T>, b: seq<T>) {
    |a| == 0 || (|b| > 0 && ((a[0] == b[0] && Thinned(a[1..], b[1..])) || Thinned(a, b[1..])))
  }

  lemma {:induction false} ThinnedMembers<T>(a: seq<T>, b: seq<T>, x: T)
    requires Thinned(a, b) && x in a
    ensures x in b
  {
    if a[0] == b[0] && Thinned(a[1..], b[1..]) {
      if x != a[0] {
        ThinnedMembers(a[1..], b[1..], x);
      }
    } else {
      ThinnedMembers(a, b[1..], x);
    }
  }

  lemma ThinnedCons<T>(x: T, a: seq<T>, b: seq<T>)
    requires Thinned(a, b)
    ensures Thinned([x] + a, [x] + b)
  {
    assert ([x] + a)[1..] == a && ([x] + b)[1..] == b;
  }

  lemma ThinnedSkip<T>(y: T, a: seq<T>, b: seq<T>)
    requires Thinned(a, b)
    ensures Thinned(a, [y] + b)
  {
    assert ([y] + b)[1..] == b;
  }

  /** Placing the same element in both keeps the order of both. */
  lemma {:induction false} PlaceThinned<T(!new)>(x: T, a: seq<T>, b: seq<T>, key: T -> Key)
    requires Thinned(a, b) && SortedBy(b, key)
    ensures Thinned(Place(x, a, key), Place(x, b, key))
    decreases |b|
  {
    if |b| == 0 {
    } else if KeyLe(key(x), key(b[0])) {
      if |a| > 0 && !KeyLe(key(x), key(a[0])) {
        ThinnedMembers(a, b, a[0]);
        HeadIsLeast(b, key, a[0]);
        KeyTotalOrder(key(x), key(b[0]), key(a[0]));
        assert false;
      }
      ThinnedCons(x, a, b);
    } else if |a| > 0 && a[0] == b[0] && Thinned(a[1..], b[1..]) {
      PlaceThinned(x, a[1..], b[1..], key);
      ThinnedCons(a[0], Place(x, a[1..], key), Place(x, b[1..], key));
    } else {
      PlaceThinned(x, a, b[1..], key);
      ThinnedSkip(b[0], Place(x, a, key), Place(x, b[1..], key));
    }
  }

  /** Sorting more only inserts. */
  lemma {:induction false} SortIsThinned<T(!new)>(a: seq<T>, b: seq<T>, key: T -> Key)
    ensures Thinned(SortBy(a, key), SortBy(a + b, key))
  {
    if |a| > 0 {
      SortIsThinned(a[1..], b, key);
      assert (a + b)[1..] == a[1..] + b && (a + b)[0] == a[0];
      SortByCorrect(a[1..] + b, key);
      PlaceThinned(a[0], SortBy(a[1..], key), SortBy(a[1..] + b, key), key);
    }
  }
}
