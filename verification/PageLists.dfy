/** Mapping a list of pages one after the other, whatever their numbers and entries. */
module PageLists {
  import opened Riscv
  import opened PageTree
  import opened Heap
  import opened AddressSpace

  type PageNo = v: int | 0 <= v < VPNS

  /** m after the first n pages have been entered. */
  function Entered(m: map<int, Word>, vs: seq<PageNo>, ws: seq<Word>, n: nat): (r: map<int, Word>)
    requires n <= |vs| == |ws|
  {
    if n == 0 then m else Entered(m, vs, ws, n - 1)[vs[n - 1] := ws[n - 1]]
  }

  /** None of the first n pages is mapped in m or occurs twice. */
  predicate Fresh(m: map<int, Word>, vs: seq<PageNo>, n: nat)
    requires n <= |vs|
  {
    forall j :: 0 <= j < n ==> FreshAt(m, vs, j)
  }

  predicate FreshAt(m: map<int, Word>, vs: seq<PageNo>, j: nat)
    requires j < |vs|
  {
    vs[j] !in m && forall k :: 0 <= k < j ==> vs[k] != vs[j]
  }

  /** The tables on the paths to the first n pages. */
  function ListKeys(vs: seq<PageNo>, n: nat): (r: set<Key>)
    requires n <= |vs|
  {
    if n == 0 then {} else ListKeys(vs, n - 1) + PathBelow(vs[n - 1], 2)
  }

  lemma {:induction false} EnteredKeys(m: map<int, Word>, vs: seq<PageNo>, ws: seq<Word>, n: nat)
    requires n <= |vs| == |ws|
    ensures forall v :: v in Entered(m, vs, ws, n) <==> v in m || exists k :: 0 <= k < n && vs[k] == v
  {
    if n > 0 { EnteredKeys(m, vs, ws, n - 1); }
  }

  lemma FreshNext(m: map<int, Word>, vs: seq<PageNo>, ws: seq<Word>, i: nat)
    requires i < |vs| == |ws| && Fresh(m, vs, i)
    ensures vs[i] !in Entered(m, vs, ws, i) <==> Fresh(m, vs, i + 1)
  {
    EnteredKeys(m, vs, ws, i);
    assert vs[i] !in Entered(m, vs, ws, i) <==> FreshAt(m, vs, i);
    assert Fresh(m, vs, i + 1) ==> FreshAt(m, vs, i);
  }

  lemma {:induction false} KeysPrefix(vs: seq<PageNo>, i: nat, n: nat)
    requires i <= n <= |vs|
    ensures ListKeys(vs, i) <= ListKeys(vs, n)
    decreases n
  {
    if i < n { KeysPrefix(vs, i, n - 1); }
  }

  // ----- counting

  lemma CountMore(keys: set<Key>, got: set<Key>, more: set<Key>)
    ensures |(got + more) - keys| == |got - keys| + |more - (keys + got)|
  {
    assert (got + more) - keys == (got - keys) + (more - (keys + got));
  }

  lemma CardSubset<T>(a: set<T>, b: set<T>)
    requires a <= b
    ensures |a| <= |b|
  {
    assert b == a + (b - a);
  }

  lemma DropDrop(s: seq<int>, t: nat, u: nat)
    requires t + u <= |s|
    ensures s[t..][u..] == s[t + u..]
  {
  }

  /** The free list has paid one page for every key in `need` that was not there before. */
  predicate Paid(keys: set<Key>, need: set<Key>, free: seq<int>, keys': set<Key>, free': seq<int>) {
    |need - keys| <= |free| && keys' == keys + need && free' == free[|need - keys|..]
  }

  lemma PaidTwice(keys: set<Key>, got: set<Key>, more: set<Key>, free: seq<int>,
                  mid: set<Key>, midFree: seq<int>, keys': set<Key>, free': seq<int>)
    requires Paid(keys, got, free, mid, midFree) && Paid(mid, more, midFree, keys', free')
    ensures Paid(keys, got + more, free, keys', free')
  {
    CountMore(keys, got, more);
    DropDrop(free, |got - keys|, |more - mid|);
  }

  // ----- on the heap

  ghost predicate CanMapList(h: Heap, root: int, vs: seq<PageNo>, n: nat)
    requires root in h.trees && n <= |vs|
  {
    Fresh(MapOf(h, root), vs, n) && |ListKeys(vs, n) - h.trees[root].Keys| <= |h.free|
  }

  /** The tree at root has got the first n pages of the list. */
  ghost predicate ListEntered(h: Heap, g: Heap, root: int, vs: seq<PageNo>, ws: seq<Word>, n: nat)
    requires root in h.trees && root in g.trees && n <= |vs| == |ws|
  {
    && MapOf(g, root) == Entered(MapOf(h, root), vs, ws, n)
    && Paid(h.trees[root].Keys, ListKeys(vs, n), h.free, g.trees[root].Keys, g.free)
  }

  ghost predicate MapsList(h: Heap, g: Heap, root: int, vs: seq<PageNo>, ws: seq<Word>, n: nat)
    requires root in h.trees && n <= |vs| == |ws|
  {
    Rooted(g, root) && OthersSame(h, g, root) && ListEntered(h, g, root, vs, ws, n)
  }

  lemma CanMapPrefix(h: Heap, root: int, vs: seq<PageNo>, i: nat, n: nat)
    requires root in h.trees && i <= n <= |vs| && CanMapList(h, root, vs, n)
    ensures CanMapList(h, root, vs, i)
  {
    KeysPrefix(vs, i, n);
    CardSubset(ListKeys(vs, i) - h.trees[root].Keys, ListKeys(vs, n) - h.trees[root].Keys);
  }

  /** After i pages, the next one can be mapped exactly when the longer list could be from the start. */
  lemma CanMapNext(h: Heap, g: Heap, root: int, vs: seq<PageNo>, ws: seq<Word>, i: nat)
    requires root in h.trees && root in g.trees && i < |vs| == |ws|
    requires CanMapList(h, root, vs, i) && ListEntered(h, g, root, vs, ws, i)
    ensures CanMap(g, root, vs[i]) <==> CanMapList(h, root, vs, i + 1)
  {
    FreshNext(MapOf(h, root), vs, ws, i);
    CountMore(h.trees[root].Keys, ListKeys(vs, i), PathBelow(vs[i], 2));
  }

  lemma EnteredNext(h: Heap, g: Heap, h': Heap, root: int, vs: seq<PageNo>, ws: seq<Word>, i: nat)
    requires root in h.trees && root in g.trees && root in h'.trees && i < |vs| == |ws|
    requires ListEntered(h, g, root, vs, ws, i)
    requires MapOf(h', root) == MapOf(g, root)[vs[i] := ws[i]]
    requires CostOk(g.trees[root].Keys, g.free, vs[i], 2, h'.trees[root].Keys, h'.free, true)
    ensures ListEntered(h, h', root, vs, ws, i + 1)
  {
    PaidTwice(h.trees[root].Keys, ListKeys(vs, i), PathBelow(vs[i], 2), h.free,
              g.trees[root].Keys, g.free, h'.trees[root].Keys, h'.free);
  }

  lemma MapsNext(h: Heap, g: Heap, h': Heap, root: int, vs: seq<PageNo>, ws: seq<Word>, i: nat)
    requires root in h.trees && i < |vs| == |ws|
    requires MapsList(h, g, root, vs, ws, i) && MapsOne(g, h', root, vs[i], ws[i])
    ensures MapsList(h, h', root, vs, ws, i + 1)
  {
    OthersTrans(h, g, h', root);
    EnteredNext(h, g, h', root, vs, ws, i);
  }

  lemma MapsNothing(h: Heap, root: int, vs: seq<PageNo>, ws: seq<Word>)
    requires Rooted(h, root) && |vs| == |ws|
    ensures MapsList(h, h, root, vs, ws, 0) && CanMapList(h, root, vs, 0)
  {
    assert h.trees[root].Keys + {} == h.trees[root].Keys;
  }

  /** If the next page cannot be mapped, the whole list could not be from the start. */
  lemma Stuck(h: Heap, g: Heap, root: int, vs: seq<PageNo>, ws: seq<Word>, i: nat)
    requires root in h.trees && root in g.trees && i < |vs| == |ws|
    requires CanMapList(h, root, vs, i) && ListEntered(h, g, root, vs, ws, i)
    ensures !CanMap(g, root, vs[i]) ==> !CanMapList(h, root, vs, |vs|)
    ensures CanMap(g, root, vs[i]) ==> CanMapList(h, root, vs, i + 1)
  {
    CanMapNext(h, g, root, vs, ws, i);
    if CanMapList(h, root, vs, |vs|) { CanMapPrefix(h, root, vs, i + 1, |vs|); }
  }

  // ----- one list after another

  lemma FreshJoin(m: map<int, Word>, vs: seq<PageNo>, ws: seq<Word>, us: seq<PageNo>)
    requires |vs| == |ws| && Fresh(m, vs, |vs|)
    ensures Fresh(Entered(m, vs, ws, |vs|), us, |us|) <==> Fresh(m, vs + us, |vs + us|)
  {
    var e, all := Entered(m, vs, ws, |vs|), vs + us;
    EnteredKeys(m, vs, ws, |vs|);
    if Fresh(e, us, |us|) {
      forall j | 0 <= j < |all| ensures FreshAt(m, all, j) {
        if j < |vs| { assert FreshAt(m, vs, j); } else { assert FreshAt(e, us, j - |vs|); }
      }
    }
    if Fresh(m, all, |all|) {
      forall j | 0 <= j < |us| ensures FreshAt(e, us, j) {
        assert FreshAt(m, all, |vs| + j);
        forall k | 0 <= k < |vs| ensures vs[k] != us[j] { assert all[k] == vs[k]; }
        forall k | 0 <= k < j ensures us[k] != us[j] { assert all[|vs| + k] == us[k]; }
      }
    }
  }

  lemma {:induction false} EnteredJoin(m: map<int, Word>, vs: seq<PageNo>, ws: seq<Word>, us: seq<PageNo>,
        xs: seq<Word>, n: nat)
    requires |vs| == |ws| && |us| == |xs| && n <= |vs| + |us|
    ensures Entered(m, vs + us, ws + xs, n) ==
            if n <= |vs| then Entered(m, vs, ws, n) else Entered(Entered(m, vs, ws, |vs|), us, xs, n - |vs|)
  {
    if n > 0 { EnteredJoin(m, vs, ws, us, xs, n - 1); }
  }

  lemma {:induction false} KeysJoin(vs: seq<PageNo>, us: seq<PageNo>, n: nat)
    requires n <= |vs| + |us|
    ensures ListKeys(vs + us, n) == if n <= |vs| then ListKeys(vs, n) else ListKeys(vs, |vs|) + ListKeys(us, n - |vs|)
  {
    if n > |vs| {
      KeysJoin(vs, us, n - 1);
      assert (vs + us)[n - 1] == us[n - 1 - |vs|];
    } else if n > 0 {
      KeysJoin(vs, us, n - 1);
      assert (vs + us)[n - 1] == vs[n - 1];
    }
  }

  lemma JoinKeys(vs: seq<PageNo>, us: seq<PageNo>)
    ensures ListKeys(vs + us, |vs + us|) == ListKeys(vs, |vs|) + ListKeys(us, |us|)
  {
    KeysJoin(vs, us, |vs + us|);
    if us == [] { assert ListKeys(us, 0) == {}; }
  }

  lemma JoinEntered(m: map<int, Word>, vs: seq<PageNo>, ws: seq<Word>, us: seq<PageNo>, xs: seq<Word>)
    requires |vs| == |ws| && |us| == |xs|
    ensures Entered(m, vs + us, ws + xs, |vs + us|) == Entered(Entered(m, vs, ws, |vs|), us, xs, |us|)
  {
    EnteredJoin(m, vs, ws, us, xs, |vs + us|);
  }

  lemma CountJoin(keys: set<Key>, vs: seq<PageNo>, us: seq<PageNo>)
    ensures |ListKeys(vs + us, |vs + us|) - keys| == |ListKeys(vs, |vs|) - keys| +
      |ListKeys(us, |us|) - (keys + ListKeys(vs, |vs|))|
  {
    JoinKeys(vs, us);
    CountMore(keys, ListKeys(vs, |vs|), ListKeys(us, |us|));
  }

  lemma CanMapJoin(h: Heap, g: Heap, root: int, vs: seq<PageNo>, ws: seq<Word>, us: seq<PageNo>)
    requires root in h.trees && root in g.trees && |vs| == |ws|
    requires CanMapList(h, root, vs, |vs|) && ListEntered(h, g, root, vs, ws, |vs|)
    ensures CanMapList(g, root, us, |us|) <==> CanMapList(h, root, vs + us, |vs + us|)
  {
    FreshJoin(MapOf(h, root), vs, ws, us);
    CountJoin(h.trees[root].Keys, vs, us);
  }

  lemma MapsJoin(h: Heap, g: Heap, h': Heap, root: int, vs: seq<PageNo>, ws: seq<Word>, us: seq<PageNo>, xs: seq<Word>)
    requires root in h.trees && |vs| == |ws| && |us| == |xs|
    requires MapsList(h, g, root, vs, ws, |vs|) && MapsList(g, h', root, us, xs, |us|)
    ensures MapsList(h, h', root, vs + us, ws + xs, |vs + us|)
  {
    OthersTrans(h, g, h', root);
    EnteredTwice(h, g, h', root, vs, ws, us, xs);
  }

  lemma EnteredTwice(h: Heap, g: Heap, h': Heap, root: int, vs: seq<PageNo>, ws: seq<Word>, us: seq<PageNo>,
        xs: seq<Word>)
    requires root in h.trees && root in g.trees && root in h'.trees && |vs| == |ws| && |us| == |xs|
    requires ListEntered(h, g, root, vs, ws, |vs|) && ListEntered(g, h', root, us, xs, |us|)
    ensures ListEntered(h, h', root, vs + us, ws + xs, |vs + us|)
  {
    JoinEntered(MapOf(h, root), vs, ws, us, xs);
    JoinKeys(vs, us);
    PaidTwice(h.trees[root].Keys, ListKeys(vs, |vs|), ListKeys(us, |us|), h.free,
              g.trees[root].Keys, g.free, h'.trees[root].Keys, h'.free);
  }

  /** A list that cannot be mapped cannot be mapped with more at its end either. */
  lemma CannotMapMore(h: Heap, root: int, vs: seq<PageNo>, us: seq<PageNo>)
    requires root in h.trees && CanMapList(h, root, vs + us, |vs + us|)
    ensures CanMapList(h, root, vs, |vs|)
  {
    CanMapPrefix(h, root, vs + us, |vs|, |vs + us|);
    KeysJoin(vs, us, |vs|);
    forall j | 0 <= j < |vs| ensures FreshAt(MapOf(h, root), vs, j) {
      assert FreshAt(MapOf(h, root), vs + us, j);
      forall k | 0 <= k < j ensures vs[k] != vs[j] { assert (vs + us)[k] == vs[k]; }
    }
  }
}
