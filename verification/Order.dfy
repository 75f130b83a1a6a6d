/** Strict total orders, their lexicographic extension, and what a sort by one of them determines. */
module Order {

  ghost predicate StrictTotal<T(!new)>(less: (T, T) -> bool) {
    && (forall x :: !less(x, x))
    && (forall x, y, z :: less(x, y) && less(y, z) ==> less(x, z))
    && (forall x, y :: x != y ==> less(x, y) || less(y, x))
  }

  /** Dictionary order: a proper prefix comes first, otherwise the first difference decides. */
  predicate Lex<T(==)>(less: (T, T) -> bool, a: seq<T>, b: seq<T>) {
    b != [] && (a == [] || less(a[0], b[0]) || (a[0] == b[0] && Lex(less, a[1..], b[1..])))
  }

  lemma {:induction false} LexIrreflexive<T(!new)>(less: (T, T) -> bool, a: seq<T>)
    requires StrictTotal(less)
    ensures !Lex(less, a, a)
  {
    if a == [] {
    } else {
      LexIrreflexive(less, a[1..]);
    }
  }

  lemma {:induction false} LexTransitive<T(!new)>(less: (T, T) -> bool, a: seq<T>, b: seq<T>, c: seq<T>)
    requires StrictTotal(less) && Lex(less, a, b) && Lex(less, b, c)
    ensures Lex(less, a, c)
  {
    if a != [] && a[0] == b[0] && b[0] == c[0] {
      if !less(a[0], b[0]) && !less(b[0], c[0]) {
        LexTransitive(less, a[1..], b[1..], c[1..]);
      }
    }
  }

  lemma {:induction false} LexConnected<T(!new)>(less: (T, T) -> bool, a: seq<T>, b: seq<T>)
    requires StrictTotal(less) && a != b
    ensures Lex(less, a, b) || Lex(less, b, a)
  {
    if a != [] && b != [] && a[0] == b[0] {
      assert a == [a[0]] + a[1..] && b == [b[0]] + b[1..];
      LexConnected(less, a[1..], b[1..]);
    }
  }

  predicate CharLess(x: char, y: char) { x < y }

  /** The order of Go's `<` on strings. */
  predicate StringLess(a: string, b: string) { Lex(CharLess, a, b) }

  lemma StringLessIsStrictTotal()
    ensures StrictTotal(StringLess)
  {
    forall a: string ensures !StringLess(a, a) { LexIrreflexive(CharLess, a); }
    forall a: string, b: string, c: string | StringLess(a, b) && StringLess(b, c) ensures StringLess(a, c) {
      LexTransitive(CharLess, a, b, c);
    }
    forall a: string, b: string | a != b ensures StringLess(a, b) || StringLess(b, a) { LexConnected(CharLess, a, b); }
  }

  /** a and b agree up to some character, and there a ends and b goes on, or a's is the smaller. */
  ghost predicate DictionaryBefore(a: string, b: string) { exists k :: DecidesAt(a, b, k) }

  ghost predicate DecidesAt(a: string, b: string, k: int) {
    && 0 <= k <= |a| && k < |b| && a[..k] == b[..k]
    && (k < |a| ==> a[k] < b[k])
  }

  lemma {:induction false} StringLessIsDictionary(a: string, b: string)
    ensures StringLess(a, b) <==> DictionaryBefore(a, b)
  {
    if a == [] || b == [] {
      assert b != [] ==> DecidesAt(a, b, 0);
    } else {
      StringLessIsDictionary(a[1..], b[1..]);
      assert a[0] < b[0] ==> DecidesAt(a, b, 0);
      forall k | DecidesAt(a, b, k) && k > 0 ensures a[0] == b[0] && DecidesAt(a[1..], b[1..], k - 1) {
        DecidesEarlier(a, b, k);
      }
      forall k | a[0] == b[0] && DecidesAt(a[1..], b[1..], k) ensures DecidesAt(a, b, k + 1) { DecidesLater(a, b, k); }
    }
  }

  lemma DecidesLater(a: string, b: string, k: int)
    requires a != [] && b != [] && a[0] == b[0] && DecidesAt(a[1..], b[1..], k)
    ensures DecidesAt(a, b, k + 1)
  {
    assert a[..k + 1] == [a[0]] + a[1..][..k] && b[..k + 1] == [b[0]] + b[1..][..k];
  }

  lemma DecidesEarlier(a: string, b: string, k: int)
    requires a != [] && b != [] && DecidesAt(a, b, k) && k > 0
    ensures a[0] == b[0] && DecidesAt(a[1..], b[1..], k - 1)
  {
    assert a[..k][0] == b[..k][0];
    assert a[1..][..k - 1] == a[..k][1..] && b[1..][..k - 1] == b[..k][1..];
  }

  /** What a comparison sort promises: no later element is less than an earlier one. */
  ghost predicate Sorted<T>(less: (T, T) -> bool, s: seq<T>) {
    forall i, j :: 0 <= i < j < |s| ==> !less(s[j], s[i])
  }

  /** The weakest demand a comparison sort makes on its comparator. */
  ghost predicate StrictWeak<T(!new)>(less: (T, T) -> bool) {
    && (forall x, y :: less(x, y) ==> !less(y, x))
    && (forall x, y, z :: less(x, y) && !less(z, y) ==> less(x, z))
  }

  /** Puts x behind every element that is not greater. */
  function Insert<T>(less: (T, T) -> bool, s: seq<T>, x: T): seq<T> {
    if s == [] then [x]
    else if less(x, s[|s| - 1]) then Insert(less, s[..|s| - 1], x) + [s[|s| - 1]]
    else s + [x]
  }

  /** A stable sort. */
  function Sort<T>(less: (T, T) -> bool, s: seq<T>): seq<T> {
    if s == [] then [] else Insert(less, Sort(less, s[..|s| - 1]), s[|s| - 1])
  }

  lemma SortNext<T>(less: (T, T) -> bool, s: seq<T>, i: nat)
    requires i < |s|
    ensures Sort(less, s[..i + 1]) == Insert(less, Sort(less, s[..i]), s[i])
  {
    assert s[..i + 1][..i] == s[..i];
  }

  lemma {:induction false} InsertAddsOne<T>(less: (T, T) -> bool, s: seq<T>, x: T)
    ensures multiset(Insert(less, s, x)) == multiset(s) + multiset{x}
  {
    if s == [] {
    } else {
      assert s == s[..|s| - 1] + [s[|s| - 1]];
      InsertAddsOne(less, s[..|s| - 1], x);
    }
  }

  lemma {:induction false} SortPermutes<T>(less: (T, T) -> bool, s: seq<T>)
    ensures multiset(Sort(less, s)) == multiset(s)
    ensures |Sort(less, s)| == |s|
  {
    if s == [] {
    } else {
      assert s == s[..|s| - 1] + [s[|s| - 1]];
      SortPermutes(less, s[..|s| - 1]);
      InsertAddsOne(less, Sort(less, s[..|s| - 1]), s[|s| - 1]);
    }
    assert |multiset(Sort(less, s))| == |Sort(less, s)| && |multiset(s)| == |s|;
  }

  lemma {:induction false} InsertKeepsSorted<T(!new)>(less: (T, T) -> bool, s: seq<T>, x: T)
    requires StrictWeak(less) && Sorted(less, s)
    ensures Sorted(less, Insert(less, s, x))
  {
    if s != [] && less(x, s[|s| - 1]) {
      var init, last := s[..|s| - 1], s[|s| - 1];
      InsertKeepsSorted(less, init, x);
      InsertAddsOne(less, init, x);
      var r := Insert(less, init, x);
      forall i | 0 <= i < |r| ensures !less(last, r[i]) {
        assert r[i] in multiset(r);
        assert r[i] in multiset(init) || r[i] == x;
        if r[i] != x { assert r[i] in init; }
      }
    }
  }

  lemma {:induction false} SortSorts<T(!new)>(less: (T, T) -> bool, s: seq<T>)
    requires StrictWeak(less)
    ensures Sorted(less, Sort(less, s))
  {
    if s == [] {
    } else {
      SortSorts(less, s[..|s| - 1]);
      InsertKeepsSorted(less, Sort(less, s[..|s| - 1]), s[|s| - 1]);
    }
  }

  /** The elements of s that satisfy p, in order. */
  function Keep<T>(p: T -> bool, s: seq<T>): seq<T> {
    if s == [] then []
    else if p(s[|s| - 1]) then Keep(p, s[..|s| - 1]) + [s[|s| - 1]]
    else Keep(p, s[..|s| - 1])
  }

  lemma KeepSnoc<T(!new)>(p: T -> bool, s: seq<T>, x: T)
    ensures Keep(p, s + [x]) == Keep(p, s) + if p(x) then [x] else []
  {
    assert (s + [x])[..|s|] == s;
  }

  lemma {:induction false} InsertIsStable<T(!new)>(less: (T, T) -> bool, s: seq<T>, x: T, p: T -> bool)
    requires forall y, z :: p(y) && p(z) ==> !less(y, z)
    ensures Keep(p, Insert(less, s, x)) == Keep(p, s) + if p(x) then [x] else []
  {
    if s == [] {
      KeepSnoc(p, [], x);
      assert [] + [x] == [x];
    } else {
      var init, last := s[..|s| - 1], s[|s| - 1];
      assert s == init + [last];
      KeepSnoc(p, init, last);
      if less(x, last) {
        assert !(p(x) && p(last));
        InsertIsStable(less, init, x, p);
        KeepSnoc(p, Insert(less, init, x), last);
        assert Insert(less, s, x) == Insert(less, init, x) + [last];
      } else {
        KeepSnoc(p, s, x);
      }
    }
  }

  /** Elements the comparator cannot tell apart keep the order they arrived in. */
  lemma {:induction false} SortIsStable<T(!new)>(less: (T, T) -> bool, s: seq<T>, p: T -> bool)
    requires forall y, z :: p(y) && p(z) ==> !less(y, z)
    ensures Keep(p, Sort(less, s)) == Keep(p, s)
  {
    if s == [] {
    } else {
      var init, last := s[..|s| - 1], s[|s| - 1];
      SortIsStable(less, init, p);
      InsertIsStable(less, Sort(less, init), last, p);
    }
  }

  lemma TotalIsWeak<T(!new)>(less: (T, T) -> bool)
    requires StrictTotal(less)
    ensures StrictWeak(less)
  {
    forall x, y, z | less(x, y) && !less(z, y) ensures less(x, z) {
      if z != y { assert less(y, z); }
    }
  }

  lemma HeadIsLeast<T(!new)>(less: (T, T) -> bool, a: seq<T>, b: seq<T>)
    requires Sorted(less, b) && StrictTotal(less) && multiset(a) == multiset(b) && a != [] && b != []
    ensures a[0] == b[0] || less(b[0], a[0])
  {
    assert a[0] in multiset(b);
    var j :| 0 <= j < |b| && b[j] == a[0];
    if j > 0 { assert !less(b[j], b[0]); }
  }

  lemma SameTails<T>(a: seq<T>, b: seq<T>)
    requires a != [] && b != [] && a[0] == b[0] && multiset(a) == multiset(b)
    ensures multiset(a[1..]) == multiset(b[1..])
    ensures a[1..] == b[1..] ==> a == b
  {
    assert a == [a[0]] + a[1..] && b == [b[0]] + b[1..];
    assert multiset(a[1..]) == multiset(a) - multiset{a[0]};
    assert multiset(b[1..]) == multiset(b) - multiset{b[0]};
  }

  lemma TailSorted<T>(less: (T, T) -> bool, s: seq<T>)
    requires Sorted(less, s) && s != []
    ensures Sorted(less, s[1..])
  {
    var t := s[1..];
    forall i, j | 0 <= i < j < |t| ensures !less(t[j], t[i]) { assert t[i] == s[i + 1] && t[j] == s[j + 1]; }
  }

  lemma SameHead<T(!new)>(less: (T, T) -> bool, a: seq<T>, b: seq<T>)
    requires StrictTotal(less) && Sorted(less, a) && Sorted(less, b) && multiset(a) == multiset(b) && a != []
    ensures b != [] && a[0] == b[0]
  {
    assert |multiset(a)| == |a| && |multiset(b)| == |b|;
    HeadIsLeast(less, a, b);
    HeadIsLeast(less, b, a);
  }

  /** Under a strict total order a multiset has exactly one sorted arrangement. */
  lemma {:induction false} SortedArrangementIsUnique<T(!new)>(less: (T, T) -> bool, a: seq<T>, b: seq<T>)
    requires StrictTotal(less)
    requires Sorted(less, a) && Sorted(less, b) && multiset(a) == multiset(b)
    ensures a == b
  {
    if a == [] {
      assert |multiset(b)| == |b|;
    } else {
      SameHead(less, a, b);
      SameTails(a, b);
      TailSorted(less, a);
      TailSorted(less, b);
      SortedArrangementIsUnique(less, a[1..], b[1..]);
    }
  }
}
