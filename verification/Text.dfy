/** Byte strings: the character classes of the program's patterns, the order Go uses to
    sort strings, and sorting by a string key. */
module Text {

  predicate IsLower(c: char) { 'a' <= c <= 'z' }

  predicate IsDigit(c: char) { '0' <= c <= '9' }

  predicate IsBase32(s: string, n: nat) {
    |s| == n && forall i | 0 <= i < |s| :: IsLower(s[i]) || '2' <= s[i] <= '7'
  }

  predicate IsHex(s: string, n: nat) {
    |s| == n && forall i | 0 <= i < |s| :: 'a' <= s[i] <= 'f' || IsDigit(s[i])
  }

  /** The ASCII part of what TrimSpace removes. */
  predicate IsSpace(c: char) {
    c == ' ' || c == '\t' || c == '\n' || c == '\r' || c as int == 11 || c as int == 12
  }

  predicate Trimmed(s: string) {
    |s| > 0 ==> !IsSpace(s[0]) && !IsSpace(s[|s| - 1])
  }

  // ----- Order -----

  predicate Less(a: string, b: string)
    decreases |a|
  {
    |b| > 0 && (|a| == 0 || a[0] < b[0] || (a[0] == b[0] && Less(a[1..], b[1..])))
  }

  /** The order of the first characters that differ, and a text before what continues it. */
  lemma {:induction false} LessAtFirstDifference(a: string, b: string)
    ensures Less(a, b) <==> exists k | 0 <= k <= |a| && k < |b| :: a[..k] == b[..k] && (k < |a| ==> a[k] < b[k])
    decreases |a|
  {
    forall k | 0 < k <= |a| && k < |b| && a[..k] == b[..k] ensures a[0] == b[0] {
      assert a[..k][0] == b[..k][0];
    }
    if |a| > 0 && |b| > 0 && a[0] == b[0] {
      LessAtFirstDifference(a[1..], b[1..]);
      if Less(a, b) {
        var k :| 0 <= k <= |a[1..]| && k < |b[1..]| && a[1..][..k] == b[1..][..k] && (k < |a[1..]| ==> a[1..][k] < b[1..][k]);
        assert a[..k + 1] == [a[0]] + a[1..][..k] && b[..k + 1] == [b[0]] + b[1..][..k];
      }
      if k :| 0 <= k <= |a| && k < |b| && a[..k] == b[..k] && (k < |a| ==> a[k] < b[k]) {
        assert a[1..][..k - 1] == a[..k][1..] && b[1..][..k - 1] == b[..k][1..];
      }
    } else if |b| > 0 && (|a| == 0 || a[0] < b[0]) {
      assert a[..0] == b[..0];
    }
  }

  lemma {:induction false} LessIrreflexive(a: string)
    ensures !Less(a, a)
    decreases |a|
  {
    if |a| > 0 { LessIrreflexive(a[1..]); }
  }

  lemma {:induction false} LessTransitive(a: string, b: string, c: string)
    requires Less(a, b) && Less(b, c)
    ensures Less(a, c)
    decreases |a|
  {
    if |a| > 0 && a[0] == b[0] && b[0] == c[0] {
      LessTransitive(a[1..], b[1..], c[1..]);
    }
  }

  lemma {:induction false} LessTotal(a: string, b: string)
    ensures Less(a, b) || a == b || Less(b, a)
    decreases |a|
  {
    if |a| > 0 && |b| > 0 && a[0] == b[0] {
      LessTotal(a[1..], b[1..]);
      assert a == [a[0]] + a[1..] && b == [b[0]] + b[1..];
    }
  }

  /** Less-or-equal is transitive, in the negated form the sorting lemmas use. */
  lemma NotLessTransitive(a: string, b: string, c: string)
    requires !Less(b, a) && !Less(c, b)
    ensures !Less(c, a)
  {
    LessTotal(a, b);
    LessTotal(b, c);
    if Less(c, a) {
      if a == b {
      } else {
        LessTransitive(c, a, b);
      }
    }
  }

  // ----- Sorting by a key -----

  ghost predicate Sorted<T>(key: T -> string, xs: seq<T>) {
    forall i, j | 0 <= i < j < |xs| :: !Less(key(xs[j]), key(xs[i]))
  }

  ghost predicate StrictlySorted<T>(key: T -> string, xs: seq<T>) {
    forall i, j | 0 <= i < j < |xs| :: Less(key(xs[i]), key(xs[j]))
  }

  ghost predicate DistinctKeys<T>(key: T -> string, xs: seq<T>) {
    forall i, j | 0 <= i < j < |xs| :: key(xs[i]) != key(xs[j])
  }

  function Insert<T>(key: T -> string, x: T, xs: seq<T>): (r: seq<T>)
    ensures |r| == |xs| + 1
    ensures multiset(r) == multiset(xs) + multiset{x}
  {
    if xs == [] || !Less(key(xs[0]), key(x)) then
      assert [x] + xs == [x] + xs;
      [x] + xs
    else
      assert xs == [xs[0]] + xs[1..];
      [xs[0]] + Insert(key, x, xs[1..])
  }

  function SortBy<T>(key: T -> string, xs: seq<T>): (r: seq<T>)
    ensures |r| == |xs|
    ensures multiset(r) == multiset(xs)
  {
    if xs == [] then []
    else
      assert xs == [xs[0]] + xs[1..];
      Insert(key, xs[0], SortBy(key, xs[1..]))
  }

  lemma {:induction false} InsertSorted<T>(key: T -> string, x: T, xs: seq<T>)
    requires Sorted(key, xs)
    ensures Sorted(key, Insert(key, x, xs))
  {
    if xs == [] || !Less(key(xs[0]), key(x)) {
      var r := [x] + xs;
      forall i, j | 0 <= i < j < |r| ensures !Less(key(r[j]), key(r[i])) {
        if i == 0 && j > 1 {
          NotLessTransitive(key(x), key(xs[0]), key(xs[j - 1]));
        }
      }
    } else {
      InsertSorted(key, x, xs[1..]);
      var rest := Insert(key, x, xs[1..]);
      var r := [xs[0]] + rest;
      forall i, j | 0 <= i < j < |r| ensures !Less(key(r[j]), key(r[i])) {
        if i == 0 {
          assert r[j] in multiset(rest);
          if r[j] == x {
            LessNotBoth(key(xs[0]), key(x));
          } else {
            assert r[j] in multiset(xs[1..]);
            var k :| 0 <= k < |xs[1..]| && xs[1..][k] == r[j];
            assert xs[k + 1] == r[j];
          }
        }
      }
    }
  }

  lemma LessNotBoth(a: string, b: string)
    requires Less(a, b)
    ensures !Less(b, a)
  {
    if Less(b, a) {
      LessTransitive(a, b, a);
      LessIrreflexive(a);
    }
  }

  lemma {:induction false} SortBySorted<T>(key: T -> string, xs: seq<T>)
    ensures Sorted(key, SortBy(key, xs))
  {
    if xs != [] {
      SortBySorted(key, xs[1..]);
      InsertSorted(key, xs[0], SortBy(key, xs[1..]));
    }
  }

  /** The head of a sorted sequence has the least key. */
  lemma HeadIsLeast<T>(key: T -> string, a: seq<T>, x: T)
    requires Sorted(key, a) && x in a
    ensures !Less(key(x), key(a[0]))
  {
    var i :| 0 <= i < |a| && a[i] == x;
    if i == 0 { LessIrreflexive(key(a[0])); }
  }

  lemma SameHead<T>(key: T -> string, a: seq<T>, b: seq<T>)
    requires Sorted(key, a) && Sorted(key, b) && multiset(a) == multiset(b) && a != []
    ensures b != [] && key(a[0]) == key(b[0]) && b[0] in a
  {
    assert a[0] in multiset(b);
    assert b[0] in multiset(a);
    HeadIsLeast(key, a, b[0]);
    HeadIsLeast(key, b, a[0]);
    LessTotal(key(a[0]), key(b[0]));
  }

  lemma TailMultiset<T>(a: seq<T>)
    requires a != []
    ensures multiset(a[1..]) == multiset(a) - multiset{a[0]}
  {
    assert a == [a[0]] + a[1..];
  }

  /** Elements with the same key are equal. */
  ghost predicate KeyTells<T>(key: T -> string, a: seq<T>) {
    forall x, y | x in a && y in a && key(x) == key(y) :: x == y
  }

  lemma TailKeyTells<T>(key: T -> string, a: seq<T>)
    requires KeyTells(key, a) && a != []
    ensures KeyTells(key, a[1..])
  {
    forall x | x in a[1..] ensures x in a { }
  }

  lemma EmptyMultiset<T>(b: seq<T>)
    requires multiset(b) == multiset{}
    ensures b == []
  {
    assert |b| == |multiset(b)|;
  }

  lemma HeadsEqual<T>(key: T -> string, a: seq<T>, b: seq<T>)
    requires Sorted(key, a) && Sorted(key, b) && multiset(a) == multiset(b) && a != [] && KeyTells(key, a)
    ensures b != [] && a[0] == b[0]
  {
    SameHead(key, a, b);
  }

  lemma SameTails<T>(a: seq<T>, b: seq<T>)
    requires a != [] && b != [] && a[0] == b[0] && multiset(a) == multiset(b)
    ensures multiset(a[1..]) == multiset(b[1..])
  {
    TailMultiset(a);
    TailMultiset(b);
  }

  lemma SameSplit<T>(a: seq<T>, b: seq<T>)
    requires a != [] && b != [] && a[0] == b[0] && a[1..] == b[1..]
    ensures a == b
  {
    assert a == [a[0]] + a[1..] && b == [b[0]] + b[1..];
  }

  /** Two sorted arrangements of the same elements are the same sequence, when elements
      with the same key are equal. */
  lemma {:induction false} SortedUnique<T>(key: T -> string, a: seq<T>, b: seq<T>)
    requires Sorted(key, a) && Sorted(key, b) && multiset(a) == multiset(b) && KeyTells(key, a)
    ensures a == b
  {
    hide Less, Sorted, KeyTells;
    if a == [] {
      EmptyMultiset(b);
    } else {
      HeadsEqual(key, a, b);
      TailSorted(key, a);
      TailSorted(key, b);
      TailKeyTells(key, a);
      SameTails(a, b);
      SortedUnique(key, a[1..], b[1..]);
      SameSplit(a, b);
    }
  }

  lemma TailSorted<T>(key: T -> string, a: seq<T>)
    requires Sorted(key, a) && a != []
    ensures Sorted(key, a[1..])
  {
  }

  /** Sorting forgets the order of its input. */
  lemma SortForgetsOrder<T>(key: T -> string, a: seq<T>, b: seq<T>)
    requires multiset(a) == multiset(b) && KeyTells(key, a)
    ensures SortBy(key, a) == SortBy(key, b)
  {
    SortBySorted(key, a);
    SortBySorted(key, b);
    var r := SortBy(key, a);
    forall x | x in r ensures x in a {
      assert x in multiset(r);
    }
    SortedUnique(key, r, SortBy(key, b));
  }

  lemma {:induction false} InsertDistinct<T>(key: T -> string, x: T, xs: seq<T>)
    requires DistinctKeys(key, xs) && forall i | 0 <= i < |xs| :: key(xs[i]) != key(x)
    ensures DistinctKeys(key, Insert(key, x, xs))
    ensures forall i | 0 <= i < |xs| + 1 :: Insert(key, x, xs)[i] == x || Insert(key, x, xs)[i] in xs
  {
    if xs != [] && Less(key(xs[0]), key(x)) {
      InsertDistinct(key, x, xs[1..]);
      var rest := Insert(key, x, xs[1..]);
      forall i | 0 <= i < |rest| ensures key(rest[i]) != key(xs[0]) {
        if rest[i] != x {
          var k :| 0 <= k < |xs[1..]| && xs[1..][k] == rest[i];
          assert xs[k + 1] == rest[i];
        }
      }
    }
  }

  /** Sorting elements with distinct keys gives a strictly sorted sequence. */
  lemma {:induction false} SortByStrict<T>(key: T -> string, xs: seq<T>)
    requires DistinctKeys(key, xs)
    ensures StrictlySorted(key, SortBy(key, xs))
    ensures forall x :: x in SortBy(key, xs) <==> x in xs
  {
    SortByDistinct(key, xs);
    SortBySorted(key, xs);
    var r := SortBy(key, xs);
    forall i, j | 0 <= i < j < |r| ensures Less(key(r[i]), key(r[j])) {
      LessTotal(key(r[i]), key(r[j]));
    }
  }

  lemma {:induction false} SortByDistinct<T>(key: T -> string, xs: seq<T>)
    requires DistinctKeys(key, xs)
    ensures DistinctKeys(key, SortBy(key, xs))
    ensures forall x :: x in SortBy(key, xs) <==> x in xs
  {
    if xs != [] {
      SortByDistinct(key, xs[1..]);
      var rest := SortBy(key, xs[1..]);
      forall i | 0 <= i < |rest| ensures key(rest[i]) != key(xs[0]) {
        assert rest[i] in multiset(rest) && multiset(rest) == multiset(xs[1..]);
        assert rest[i] in xs[1..];
      }
      InsertDistinct(key, xs[0], rest);
    }
    forall x ensures x in SortBy(key, xs) <==> x in xs {
      assert x in multiset(SortBy(key, xs)) <==> x in multiset(xs);
    }
  }
}
