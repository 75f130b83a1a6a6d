/** internal/colony/topology.go: the canonical order of a topology's edges. */
module Topologies {
  import opened Order

  datatype Edge = Edge(kind: string, from: string, to: string, beeFrom: string, dispatch: string, implied: bool,
                       intent: string, matches: map<string, string>)

  /* sortedMapKeys */

  /** The keys of a map in ascending order. */
  ghost function KeyList(keys: set<string>): (list: seq<string>)
    ensures multiset(list) == multiset(keys) && Sorted(StringLess, list)
  {
    if keys == {} then []
    else
      var k :| k in keys;
      var init := KeyList(keys - {k});
      StringLessIsStrictTotal();
      TotalIsWeak(StringLess);
      InsertAddsOne(StringLess, init, k);
      InsertKeepsSorted(StringLess, init, k);
      assert multiset(keys) == multiset(keys - {k}) + multiset{k};
      Insert(StringLess, init, k)
  }

  /** Whatever order the map is walked in, its sorted keys are the same. */
  method SortedMapKeys(m: map<string, string>) returns (keys: seq<string>)
    ensures keys == KeyList(m.Keys)
  {
    var walked: seq<string>, left := [], m.Keys;
    while left != {}
      invariant multiset(walked) + multiset(left) == multiset(m.Keys)
      decreases left
    {
      var k :| k in left;
      assert multiset(left) == multiset(left - {k}) + multiset{k};
      walked, left := walked + [k], left - {k};
    }
    keys := Sort(StringLess, walked);
    StringLessIsStrictTotal();
    TotalIsWeak(StringLess);
    SortPermutes(StringLess, walked);
    SortSorts(StringLess, walked);
    SortedArrangementIsUnique(StringLess, keys, KeyList(m.Keys));
  }

  lemma KeyListHoldsKeys(m: map<string, string>, k: string)
    ensures k in KeyList(m.Keys) <==> k in m
  {
    assert k in KeyList(m.Keys) <==> k in multiset(KeyList(m.Keys));
    assert k in multiset(m.Keys) <==> k in m.Keys;
  }

  /* The key an edge is ordered by. */

  function Unary(n: nat): string { if n == 0 then "" else "1" + Unary(n - 1) }

  ghost function Pairs(m: map<string, string>, keys: seq<string>): seq<string>
    requires forall k <- keys :: k in m
  {
    if keys == [] then [] else [keys[0]] + ([m[keys[0]]] + Pairs(m, keys[1..]))
  }

  /** The size first, then the pairs in key order. */
  ghost function MatchKey(m: map<string, string>): seq<string> {
    var keys := KeyList(m.Keys);
    assert forall k <- keys :: k in m by { forall k <- keys ensures k in m { KeyListHoldsKeys(m, k); } }
    [Unary(|keys|)] + Pairs(m, keys)
  }

  /** An implicit edge comes before an explicit one. */
  function ImpliedKey(implied: bool): string { if implied then "" else "1" }

  ghost function FromImplied(e: Edge): seq<string> { [ImpliedKey(e.implied)] + ([e.intent] + MatchKey(e.matches)) }

  ghost function Key(e: Edge): seq<string> {
    [e.kind] + ([e.from] + ([e.to] + ([e.beeFrom] + ([e.dispatch] + FromImplied(e)))))
  }

  ghost predicate KeyLess(a: seq<string>, b: seq<string>) { Lex(StringLess, a, b) }

  ghost predicate EdgeLess(a: Edge, b: Edge) { KeyLess(Key(a), Key(b)) }

  /** One comparison of the chain: the first field that differs decides. */
  lemma LexCons(x: string, s: seq<string>, y: string, t: seq<string>)
    ensures KeyLess([x] + s, [y] + t) == if x != y then StringLess(x, y) else KeyLess(s, t)
  {
    StringLessIsStrictTotal();
    assert ([x] + s)[1..] == s && ([y] + t)[1..] == t;
  }

  lemma {:induction false} UnaryOrders(m: nat, n: nat)
    ensures StringLess(Unary(m), Unary(n)) <==> m < n
    ensures Unary(m) == Unary(n) <==> m == n
  {
    if m > 0 && n > 0 {
      UnaryOrders(m - 1, n - 1);
      assert Unary(m)[1..] == Unary(m - 1) && Unary(n)[1..] == Unary(n - 1);
    }
  }

  method MatchLess(a: map<string, string>, b: map<string, string>) returns (r: bool)
    ensures r == KeyLess(MatchKey(a), MatchKey(b))
  {
    var akeys := SortedMapKeys(a);
    var bkeys := SortedMapKeys(b);
    forall k <- akeys ensures k in a { KeyListHoldsKeys(a, k); }
    forall k <- bkeys ensures k in b { KeyListHoldsKeys(b, k); }
    UnaryOrders(|akeys|, |bkeys|);
    LexCons(Unary(|akeys|), Pairs(a, akeys), Unary(|bkeys|), Pairs(b, bkeys));
    if |akeys| != |bkeys| { return |akeys| < |bkeys|; }
    for i := 0 to |akeys|
      invariant KeyLess(Pairs(a, akeys), Pairs(b, bkeys)) == KeyLess(Pairs(a, akeys[i..]), Pairs(b, bkeys[i..]))
    {
      var k := akeys[i];
      assert k in akeys && bkeys[i] in bkeys;
      PairsCons(a, akeys[i..], b, bkeys[i..]);
      assert akeys[i..][1..] == akeys[i + 1..] && bkeys[i..][1..] == bkeys[i + 1..];
      if k != bkeys[i] { return StringLess(k, bkeys[i]); }
      if a[k] != b[bkeys[i]] { return StringLess(a[k], b[bkeys[i]]); }
    }
    return false;
  }

  lemma PairsCons(a: map<string, string>, s: seq<string>, b: map<string, string>, t: seq<string>)
    requires s != [] && t != [] && (forall k <- s :: k in a) && (forall k <- t :: k in b)
    ensures KeyLess(Pairs(a, s), Pairs(b, t))
      == if s[0] != t[0] then StringLess(s[0], t[0])
         else if a[s[0]] != b[t[0]] then StringLess(a[s[0]], b[t[0]])
         else KeyLess(Pairs(a, s[1..]), Pairs(b, t[1..]))
  {
    LexCons(s[0], [a[s[0]]] + Pairs(a, s[1..]), t[0], [b[t[0]]] + Pairs(b, t[1..]));
    LexCons(a[s[0]], Pairs(a, s[1..]), b[t[0]], Pairs(b, t[1..]));
  }

  /** Up to the i-th the pairs agree; there the smaller key comes first, and of equal keys the smaller value. */
  ghost predicate DifferAt(a: map<string, string>, s: seq<string>, b: map<string, string>, t: seq<string>, i: int)
    requires (forall k <- s :: k in a) && (forall k <- t :: k in b)
  {
    && 0 <= i < |s| && i < |t| && s[..i] == t[..i] && (forall j :: 0 <= j < i ==> a[s[j]] == b[t[j]])
    && (StringLess(s[i], t[i]) || (s[i] == t[i] && StringLess(a[s[i]], b[t[i]])))
  }

  lemma {:induction false} PairsOrder(a: map<string, string>, s: seq<string>, b: map<string, string>, t: seq<string>)
    requires |s| == |t| && (forall k <- s :: k in a) && (forall k <- t :: k in b)
    ensures KeyLess(Pairs(a, s), Pairs(b, t)) <==> exists i :: DifferAt(a, s, b, t, i)
  {
    if s == [] {
    } else {
      PairsCons(a, s, b, t);
      StringLessIsStrictTotal();
      var agree := s[0] == t[0] && a[s[0]] == b[t[0]];
      if agree {
        PairsOrder(a, s[1..], b, t[1..]);
        if i :| DifferAt(a, s[1..], b, t[1..], i) { DifferLater(a, s, b, t, i); }
      } else {
        assert DifferAt(a, s, b, t, 0) <==> KeyLess(Pairs(a, s), Pairs(b, t));
      }
      forall i | DifferAt(a, s, b, t, i) && i > 0 ensures agree && DifferAt(a, s[1..], b, t[1..], i - 1) {
        DifferEarlier(a, s, b, t, i);
      }
    }
  }

  lemma DifferLater(a: map<string, string>, s: seq<string>, b: map<string, string>, t: seq<string>, i: int)
    requires |s| == |t| && s != [] && (forall k <- s :: k in a) && (forall k <- t :: k in b)
    requires s[0] == t[0] && a[s[0]] == b[t[0]] && DifferAt(a, s[1..], b, t[1..], i)
    ensures DifferAt(a, s, b, t, i + 1)
  {
    assert s[..i + 1] == [s[0]] + s[1..][..i] && t[..i + 1] == [t[0]] + t[1..][..i];
    assert forall j :: 0 < j < |s| ==> s[j] == s[1..][j - 1] && t[j] == t[1..][j - 1];
  }

  lemma DifferEarlier(a: map<string, string>, s: seq<string>, b: map<string, string>, t: seq<string>, i: int)
    requires |s| == |t| && s != [] && (forall k <- s :: k in a) && (forall k <- t :: k in b)
    requires DifferAt(a, s, b, t, i) && i > 0
    ensures s[0] == t[0] && a[s[0]] == b[t[0]] && DifferAt(a, s[1..], b, t[1..], i - 1)
  {
    assert s[..i][0] == t[..i][0];
    assert s[1..][..i - 1] == s[..i][1..] && t[1..][..i - 1] == t[..i][1..];
    assert forall j :: 0 < j < |s| ==> s[j] == s[1..][j - 1] && t[j] == t[1..][j - 1];
  }

  lemma KeyListLength(m: map<string, string>)
    ensures |KeyList(m.Keys)| == |m|
  {
    assert |multiset(KeyList(m.Keys))| == |KeyList(m.Keys)| && |multiset(m.Keys)| == |m.Keys| == |m|;
  }

  /** Of two maps the smaller one comes first; of two of a size, the one that is less at the first of their sorted pairs
      that differ. */
  lemma MatchesInOrder(a: map<string, string>, b: map<string, string>)
    ensures forall k <- KeyList(a.Keys) :: k in a
    ensures forall k <- KeyList(b.Keys) :: k in b
    ensures KeyLess(MatchKey(a), MatchKey(b))
       <==> |a| < |b| || (|a| == |b| && exists i :: DifferAt(a, KeyList(a.Keys), b, KeyList(b.Keys), i))
  {
    var (s, t) := (KeyList(a.Keys), KeyList(b.Keys));
    forall k <- s ensures k in a { KeyListHoldsKeys(a, k); }
    forall k <- t ensures k in b { KeyListHoldsKeys(b, k); }
    KeyListLength(a);
    KeyListLength(b);
    UnaryOrders(|s|, |t|);
    LexCons(Unary(|s|), Pairs(a, s), Unary(|t|), Pairs(b, t));
    if |s| == |t| { PairsOrder(a, s, b, t); }
  }

  /** The comparator sort.Slice is given. */
  method EdgeBefore(a: Edge, b: Edge) returns (r: bool)
    ensures r == EdgeLess(a, b)
  {
    FieldsDecide(a, b);
    if a.kind != b.kind { return StringLess(a.kind, b.kind); }
    if a.from != b.from { return StringLess(a.from, b.from); }
    if a.to != b.to { return StringLess(a.to, b.to); }
    if a.beeFrom != b.beeFrom { return StringLess(a.beeFrom, b.beeFrom); }
    if a.dispatch != b.dispatch { return StringLess(a.dispatch, b.dispatch); }
    if a.implied != b.implied { return a.implied; }
    if a.intent != b.intent { return StringLess(a.intent, b.intent); }
    r := MatchLess(a.matches, b.matches);
  }

  lemma ImpliedDecides(a: Edge, b: Edge)
    ensures KeyLess(FromImplied(a), FromImplied(b))
      == if a.implied != b.implied then a.implied
         else if a.intent != b.intent then StringLess(a.intent, b.intent)
         else KeyLess(MatchKey(a.matches), MatchKey(b.matches))
  {
    var (aIntent, bIntent) := ([a.intent] + MatchKey(a.matches), [b.intent] + MatchKey(b.matches));
    LexCons(ImpliedKey(a.implied), aIntent, ImpliedKey(b.implied), bIntent);
    LexCons(a.intent, MatchKey(a.matches), b.intent, MatchKey(b.matches));
  }

  lemma FieldsDecide(a: Edge, b: Edge)
    ensures EdgeLess(a, b)
      == if a.kind != b.kind then StringLess(a.kind, b.kind)
         else if a.from != b.from then StringLess(a.from, b.from)
         else if a.to != b.to then StringLess(a.to, b.to)
         else if a.beeFrom != b.beeFrom then StringLess(a.beeFrom, b.beeFrom)
         else if a.dispatch != b.dispatch then StringLess(a.dispatch, b.dispatch)
         else if a.implied != b.implied then a.implied
         else if a.intent != b.intent then StringLess(a.intent, b.intent)
         else KeyLess(MatchKey(a.matches), MatchKey(b.matches))
  {
    var a5, b5 := FromImplied(a), FromImplied(b);
    var a4, b4 := [a.dispatch] + a5, [b.dispatch] + b5;
    var a3, b3 := [a.beeFrom] + a4, [b.beeFrom] + b4;
    var a2, b2 := [a.to] + a3, [b.to] + b3;
    var a1, b1 := [a.from] + a2, [b.from] + b2;
    LexCons(a.kind, a1, b.kind, b1);
    LexCons(a.from, a2, b.from, b2);
    LexCons(a.to, a3, b.to, b3);
    LexCons(a.beeFrom, a4, b.beeFrom, b4);
    LexCons(a.dispatch, a5, b.dispatch, b5);
    ImpliedDecides(a, b);
  }

  /* The order is strict and total on edges. */

  lemma {:induction false} PairsInjective(a: map<string, string>, s: seq<string>,
                                          b: map<string, string>, t: seq<string>)
    requires (forall k <- s :: k in a) && (forall k <- t :: k in b)
    requires |s| == |t| && Pairs(a, s) == Pairs(b, t)
    ensures s == t && forall k <- s :: a[k] == b[k]
  {
    if s == [] {
    } else {
      var p, q := Pairs(a, s), Pairs(b, t);
      assert p[0] == s[0] && q[0] == t[0] && p[1] == a[s[0]] && q[1] == b[t[0]];
      assert p[2..] == Pairs(a, s[1..]) && q[2..] == Pairs(b, t[1..]);
      PairsInjective(a, s[1..], b, t[1..]);
      assert s == [s[0]] + s[1..] && t == [t[0]] + t[1..];
    }
  }

  lemma MatchKeyParts(a: map<string, string>, b: map<string, string>)
    requires MatchKey(a) == MatchKey(b)
    ensures var (s, t) := (KeyList(a.Keys), KeyList(b.Keys));
      && |s| == |t| && (forall k <- s :: k in a) && (forall k <- t :: k in b)
      && Pairs(a, s) == Pairs(b, t)
  {
    var s, t := KeyList(a.Keys), KeyList(b.Keys);
    forall k <- s ensures k in a { KeyListHoldsKeys(a, k); }
    forall k <- t ensures k in b { KeyListHoldsKeys(b, k); }
    assert MatchKey(a)[0] == Unary(|s|) && MatchKey(b)[0] == Unary(|t|);
    UnaryOrders(|s|, |t|);
    assert MatchKey(a)[1..] == Pairs(a, s) && MatchKey(b)[1..] == Pairs(b, t);
  }

  lemma MatchKeyInjective(a: map<string, string>, b: map<string, string>)
    requires MatchKey(a) == MatchKey(b)
    ensures a == b
  {
    MatchKeyParts(a, b);
    forall k <- KeyList(a.Keys) ensures k in a { KeyListHoldsKeys(a, k); }
    forall k <- KeyList(b.Keys) ensures k in b { KeyListHoldsKeys(b, k); }
    PairsInjective(a, KeyList(a.Keys), b, KeyList(b.Keys));
    forall k: string ensures (k in a <==> k in b) && (k in a ==> a[k] == b[k]) {
      KeyListHoldsKeys(a, k);
      KeyListHoldsKeys(b, k);
    }
  }

  lemma ConsInjective(x: string, s: seq<string>, y: string, t: seq<string>)
    requires [x] + s == [y] + t
    ensures x == y && s == t
  {
    assert ([x] + s)[0] == x && ([y] + t)[0] == y;
    assert ([x] + s)[1..] == s && ([y] + t)[1..] == t;
  }

  lemma KeyInjective(a: Edge, b: Edge)
    requires Key(a) == Key(b)
    ensures a == b
  {
    var a5, b5 := FromImplied(a), FromImplied(b);
    var a4, b4 := [a.dispatch] + a5, [b.dispatch] + b5;
    var a3, b3 := [a.beeFrom] + a4, [b.beeFrom] + b4;
    var a2, b2 := [a.to] + a3, [b.to] + b3;
    var a1, b1 := [a.from] + a2, [b.from] + b2;
    ConsInjective(a.kind, a1, b.kind, b1);
    ConsInjective(a.from, a2, b.from, b2);
    ConsInjective(a.to, a3, b.to, b3);
    ConsInjective(a.beeFrom, a4, b.beeFrom, b4);
    ConsInjective(a.dispatch, a5, b.dispatch, b5);
    var (aIntent, bIntent) := ([a.intent] + MatchKey(a.matches), [b.intent] + MatchKey(b.matches));
    ConsInjective(ImpliedKey(a.implied), aIntent, ImpliedKey(b.implied), bIntent);
    ConsInjective(a.intent, MatchKey(a.matches), b.intent, MatchKey(b.matches));
    MatchKeyInjective(a.matches, b.matches);
  }

  /** The comparator is a strict total order on edge values: it tells any two different edges apart. */
  lemma EdgeLessIsStrictTotal()
    ensures StrictTotal(EdgeLess)
  {
    StringLessIsStrictTotal();
    forall a ensures !EdgeLess(a, a) { LexIrreflexive(StringLess, Key(a)); }
    forall a, b, c | EdgeLess(a, b) && EdgeLess(b, c) ensures EdgeLess(a, c) {
      LexTransitive(StringLess, Key(a), Key(b), Key(c));
    }
    forall a, b | a != b ensures EdgeLess(a, b) || EdgeLess(b, a) {
      if Key(a) == Key(b) { KeyInjective(a, b); }
      LexConnected(StringLess, Key(a), Key(b));
    }
  }

  method InsertEdge(s: seq<Edge>, x: Edge) returns (r: seq<Edge>)
    ensures r == Insert(EdgeLess, s, x)
  {
    if s == [] { return [x]; }
    var last := s[|s| - 1];
    var less := EdgeBefore(x, last);
    if less {
      r := InsertEdge(s[..|s| - 1], x);
      r := r + [last];
    } else {
      r := s + [x];
    }
  }

  /** The canonical order is sorted by the comparator, and keeps every edge as often as it was there. */
  lemma {:induction false} CanonicalIsSorted(edges: seq<Edge>)
    ensures Sorted(EdgeLess, Sort(EdgeLess, edges))
    ensures multiset(Sort(EdgeLess, edges)) == multiset(edges)
  {
    EdgeLessIsStrictTotal();
    TotalIsWeak(EdgeLess);
    SortPermutes(EdgeLess, edges);
    SortSorts(EdgeLess, edges);
  }

  /** Sorting any permutation of the same edges, by any sort, gives the same sequence. */
  lemma {:induction false} OneCanonicalOrder(edges: seq<Edge>, sorted: seq<Edge>)
    requires multiset(sorted) == multiset(edges) && Sorted(EdgeLess, sorted)
    ensures sorted == Sort(EdgeLess, edges)
  {
    EdgeLessIsStrictTotal();
    CanonicalIsSorted(edges);
    SortedArrangementIsUnique(EdgeLess, sorted, Sort(EdgeLess, edges));
  }

  lemma SortKeepsLength(edges: seq<Edge>)
    ensures |Sort(EdgeLess, edges)| == |edges|
  {
    SortPermutes(EdgeLess, edges);
  }

  method SortEdges(edges: seq<Edge>) returns (sorted: seq<Edge>)
    ensures sorted == Sort(EdgeLess, edges)
  {
    sorted := [];
    assert edges[..0] == [];
    for i := 0 to |edges|
      invariant sorted == Sort(EdgeLess, edges[..i])
    {
      SortNext(EdgeLess, edges, i);
      sorted := InsertEdge(sorted, edges[i]);
    }
    assert edges[..|edges|] == edges;
  }

  /** sortTopologyEdges: the slice it was given is left in canonical order. What sort.Slice does inside is not
      modelled; an insertion sort stands for it. */
  method SortTopologyEdges(edges: array<Edge>)
    modifies edges
    ensures edges[..] == Sort(EdgeLess, old(edges[..]))
  {
    SortKeepsLength(edges[..]);
    var sorted := SortEdges(edges[..]);
    forall i | 0 <= i < edges.Length { edges[i] := sorted[i]; }
    assert edges[..] == sorted;
  }
}
