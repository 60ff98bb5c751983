/** The trie of AVL trees as a value: a node has perhaps a content, and a child for each
    of some bytes. What the trie stands for is a map from byte strings to values.
 */
module TrieSpec {
  import opened Options

  type Byte = k: int | 0 <= k < 256
  type Path = seq<Byte>
  /** A `void *`; 0 is NULL. */
  type Ptr = nat

  datatype Trie = Trie(has: bool, val: Ptr, kids: map<Byte, Trie>)

  const EMPTY := Trie(false, 0, map[])

  /** The node at the end of a path. */
  ghost function Sub(t: Trie, p: Path): Option<Trie>
    decreases |p|
  {
    if p == [] then Some(t)
    else if p[0] in t.kids then Sub(t.kids[p[0]], p[1..])
    else None
  }

  /** All paths that lead to a node. */
  ghost function Paths(t: Trie): set<Path>
    decreases t
  {
    {[]} + set k, q | k in t.kids && q in Paths(t.kids[k]) :: [k] + q
  }

  ghost predicate Stores(t: Trie, p: Path) {
    Sub(t, p).Some? && Sub(t, p).value.has
  }

  /** The map a trie stands for. */
  ghost function Contents(t: Trie): map<Path, Ptr> {
    map p | p in Paths(t) && Stores(t, p) :: Sub(t, p).value.val
  }

  /** Below the root no node is without both a content and a child. */
  ghost predicate Pruned(t: Trie)
    decreases t
  {
    forall k :: k in t.kids ==> (t.kids[k].has || t.kids[k].kids != map[]) && Pruned(t.kids[k])
  }

  // ---------- the operations ----------

  ghost function Kid(t: Trie, k: Byte): Trie {
    if k in t.kids then t.kids[k] else EMPTY
  }

  ghost function Insert(t: Trie, p: Path, v: Ptr): Trie
    decreases |p|
  {
    if p == [] then t.(has := true, val := v)
    else t.(kids := t.kids[p[0] := Insert(Kid(t, p[0]), p[1..], v)])
  }

  ghost function Remove(t: Trie, p: Path): Trie
    decreases |p|
  {
    if p == [] then t.(has := false)
    else if p[0] !in t.kids then t
    else
      var kid := t.kids[p[0]];
      if |p| == 1 then
        if kid.kids == map[] then t.(kids := t.kids - {p[0]})
        else t.(kids := t.kids[p[0] := kid.(has := false)])
      else if kid.kids == map[] then t
      else
        var kid' := Remove(kid, p[1..]);
        if !kid'.has && kid'.kids == map[] then t.(kids := t.kids - {p[0]})
        else t.(kids := t.kids[p[0] := kid'])
  }

  // ---------- the map ----------

  lemma {:induction false} PathsAreSubs(t: Trie, p: Path)
    ensures p in Paths(t) <==> Sub(t, p).Some?
    decreases |p|
  {
    if p != [] {
      assert p == [p[0]] + p[1..];
      if p[0] in t.kids { PathsAreSubs(t.kids[p[0]], p[1..]); }
      if p in Paths(t) {
        var k, q :| k in t.kids && q in Paths(t.kids[k]) && p == [k] + q;
        assert p[1..] == q;
      }
    }
  }

  /** Membership and value in `Contents`, in terms of `Sub`. */
  lemma {:induction false} ContentsAt(t: Trie, p: Path)
    ensures p in Contents(t) <==> Stores(t, p)
    ensures p in Contents(t) ==> Contents(t)[p] == Sub(t, p).value.val
  {
    PathsAreSubs(t, p);
  }

  lemma {:induction false} InsertAtPath(t: Trie, p: Path, v: Ptr, q: Path)
    ensures Stores(Insert(t, p, v), q) <==> q == p || Stores(t, q)
    ensures Stores(Insert(t, p, v), q) ==>
              Sub(Insert(t, p, v), q).value.val == if q == p then v else Sub(t, q).value.val
    decreases |p|
  {
    if p != [] && q != [] && q[0] == p[0] {
      InsertAtPath(Kid(t, p[0]), p[1..], v, q[1..]);
      assert q == p <==> q[1..] == p[1..] by {
        assert q == [q[0]] + q[1..] && p == [p[0]] + p[1..];
      }
      assert Stores(Kid(t, p[0]), q[1..]) <==> Stores(t, q);
    }
  }

  /** Insertion is map update. */
  lemma {:induction false} InsertUpdates(t: Trie, p: Path, v: Ptr)
    ensures Contents(Insert(t, p, v)) == Contents(t)[p := v]
  {
    var m, m' := Contents(t), Contents(Insert(t, p, v));
    forall q ensures q in m' <==> q in m[p := v]
             ensures q in m' ==> m'[q] == m[p := v][q]
    {
      InsertAtPath(t, p, v, q);
      ContentsAt(t, q);
      ContentsAt(Insert(t, p, v), q);
    }
  }

  lemma {:induction false} RemoveAtPath(t: Trie, p: Path, q: Path)
    ensures Stores(Remove(t, p), q) <==> q != p && Stores(t, q)
    ensures Stores(Remove(t, p), q) ==> Sub(Remove(t, p), q).value.val == Sub(t, q).value.val
    decreases |p|
  {
    if p != [] && q != [] && q[0] == p[0] && p[0] in t.kids {
      var kid := t.kids[p[0]];
      assert q == p <==> q[1..] == p[1..] by {
        assert q == [q[0]] + q[1..] && p == [p[0]] + p[1..];
      }
      assert Stores(t, q) <==> Stores(kid, q[1..]);
      if |p| == 1 {
        assert p[1..] == [];
        if kid.kids != map[] {
          assert Sub(Remove(t, p), q) == Sub(kid.(has := false), q[1..]);
        } else {
          assert Sub(Remove(t, p), q) == None;
        }
      } else if kid.kids != map[] {
        RemoveAtPath(kid, p[1..], q[1..]);
      }
    }
  }

  /** Removal is map deletion. */
  lemma {:induction false} RemoveDeletes(t: Trie, p: Path)
    ensures Contents(Remove(t, p)) == Contents(t) - {p}
  {
    var m, m' := Contents(t), Contents(Remove(t, p));
    forall q ensures q in m' <==> q in m - {p}
             ensures q in m' ==> m'[q] == m[q]
    {
      RemoveAtPath(t, p, q);
      ContentsAt(t, q);
      ContentsAt(Remove(t, p), q);
    }
  }

  // ---------- pruning ----------

  lemma {:induction false} InsertKeepsPruned(t: Trie, p: Path, v: Ptr)
    requires Pruned(t)
    ensures Pruned(Insert(t, p, v))
    ensures Insert(t, p, v).has || Insert(t, p, v).kids != map[]
    decreases |p|
  {
    if p != [] {
      InsertKeepsPruned(Kid(t, p[0]), p[1..], v);
      assert p[0] in Insert(t, p, v).kids;
    }
  }

  lemma {:induction false} RemoveKeepsPruned(t: Trie, p: Path)
    requires Pruned(t)
    ensures Pruned(Remove(t, p))
    decreases |p|
  {
    if p != [] && p[0] in t.kids && |p| > 1 {
      RemoveKeepsPruned(t.kids[p[0]], p[1..]);
    }
  }

  /** `p` leads towards a stored key. */
  ghost predicate OnTheWay(t: Trie, p: Path) {
    exists q :: q in Contents(t) && p <= q
  }

  /** From every node with a content or a child, some stored key can be reached. */
  lemma {:induction false} ReachKey(t: Trie) returns (q: Path)
    requires Pruned(t) && (t.has || t.kids != map[])
    ensures Stores(t, q)
    decreases t
  {
    if t.has {
      q := [];
    } else {
      var k :| k in t.kids;
      var r := ReachKey(t.kids[k]);
      q := [k] + r;
      assert q[1..] == r;
    }
  }

  lemma {:induction false} SubOfConcat(t: Trie, p: Path, q: Path)
    requires Sub(t, p).Some?
    ensures Sub(t, p + q) == Sub(Sub(t, p).value, q)
    decreases |p|
  {
    if p == [] {
      assert p + q == q;
    } else {
      assert (p + q)[1..] == p[1..] + q;
      SubOfConcat(t.kids[p[0]], p[1..], q);
    }
  }

  lemma {:induction false} SubOfPruned(t: Trie, p: Path)
    requires Pruned(t) && Sub(t, p).Some?
    ensures Pruned(Sub(t, p).value)
    ensures p != [] ==> Sub(t, p).value.has || Sub(t, p).value.kids != map[]
    decreases |p|
  {
    if p != [] {
      SubOfPruned(t.kids[p[0]], p[1..]);
    }
  }

  /** Prefixes of existing paths exist. */
  lemma {:induction false} PrefixExists(t: Trie, p: Path, q: Path)
    requires p <= q && Sub(t, q).Some?
    ensures Sub(t, p).Some?
    decreases |p|
  {
    if p != [] {
      PrefixExists(t.kids[q[0]], p[1..], q[1..]);
    }
  }

  /** In a pruned trie the nodes are the root and the prefixes of the stored keys. */
  lemma {:induction false} PrunedNodes(t: Trie, p: Path)
    requires Pruned(t)
    ensures p in Paths(t) <==> p == [] || OnTheWay(t, p)
  {
    PathsAreSubs(t, p);
    if p in Paths(t) && p != [] {
      SubOfPruned(t, p);
      var q := ReachKey(Sub(t, p).value);
      SubOfConcat(t, p, q);
      ContentsAt(t, p + q);
    }
    if OnTheWay(t, p) {
      var q :| q in Contents(t) && p <= q;
      ContentsAt(t, q);
      PrefixExists(t, p, q);
    }
  }

  lemma {:induction false} KidOnTheWay(t: Trie, k: Byte, p: Path)
    requires k in t.kids && OnTheWay(t, [k] + p)
    ensures OnTheWay(t.kids[k], p)
  {
    hide Contents;
    var q :| q in Contents(t) && [k] + p <= q;
    ContentsAt(t, q);
    assert q[0] == k && p <= q[1..];
    ContentsAt(t.kids[k], q[1..]);
  }

  lemma {:induction false} KidReachesKey(t: Trie)
    requires OnTheWay(t, [])
    ensures t.has || t.kids != map[]
  {
    hide Contents;
    var q :| q in Contents(t) && [] <= q;
    ContentsAt(t, q);
  }

  /** ... and only in a pruned trie. */
  lemma {:induction false} OnlyPrunedNodes(t: Trie)
    requires forall p :: p in Paths(t) ==> p == [] || OnTheWay(t, p)
    ensures Pruned(t)
    decreases t
  {
    forall k | k in t.kids
      ensures (t.kids[k].has || t.kids[k].kids != map[]) && Pruned(t.kids[k])
    {
      hide OnTheWay, Pruned;
      forall p | p in Paths(t.kids[k])
        ensures OnTheWay(t.kids[k], p)
      {
        assert [k] + p in Paths(t);
        KidOnTheWay(t, k, p);
      }
      assert [] in Paths(t.kids[k]);
      KidReachesKey(t.kids[k]);
      OnlyPrunedNodes(t.kids[k]);
    }
  }

  /** Equal maps have equal node sets once pruned. */
  lemma {:induction false} NodesFollowMap(t: Trie, u: Trie)
    requires Pruned(t) && Pruned(u) && Contents(t) == Contents(u)
    ensures Paths(t) == Paths(u)
  {
    forall p ensures p in Paths(t) <==> p in Paths(u) {
      PrunedNodes(t, p);
      PrunedNodes(u, p);
    }
  }

  /** Removing a key that was just added restores the map and the set of nodes. */
  lemma {:induction false} InsertThenRemove(t: Trie, p: Path, v: Ptr)
    requires Pruned(t) && p !in Contents(t)
    ensures Contents(Remove(Insert(t, p, v), p)) == Contents(t)
    ensures Paths(Remove(Insert(t, p, v), p)) == Paths(t)
  {
    InsertUpdates(t, p, v);
    RemoveDeletes(Insert(t, p, v), p);
    InsertKeepsPruned(t, p, v);
    RemoveKeepsPruned(Insert(t, p, v), p);
    NodesFollowMap(Remove(Insert(t, p, v), p), t);
  }

  // ---------- longest existing prefix ----------

  /** The node `mavl_search_prev` hands back: the walk stops at the first missing step, with
      no result when the node it stopped at has no children at all.
   */
  ghost function SearchPrev(t: Trie, p: Path): Option<Trie>
    decreases |p|
  {
    if p == [] then Some(t)
    else if t.kids == map[] then None
    else if p[0] !in t.kids then Some(t)
    else SearchPrev(t.kids[p[0]], p[1..])
  }

  /** Length of the longest prefix of `p` that leads to a node. */
  ghost function Depth(t: Trie, p: Path): (n: nat)
    ensures n <= |p|
    decreases |p|
  {
    if p == [] || p[0] !in t.kids then 0 else 1 + Depth(t.kids[p[0]], p[1..])
  }

  lemma {:induction false} DepthIsLongest(t: Trie, p: Path, n: nat)
    requires n <= |p|
    ensures Sub(t, p[..n]).Some? <==> n <= Depth(t, p)
    decreases |p|
  {
    if p != [] && p[0] in t.kids && n > 0 {
      DepthIsLongest(t.kids[p[0]], p[1..], n - 1);
      assert p[..n][1..] == p[1..][..n - 1];
    }
  }

  /** The longest existing prefix decides the result, the exception included. */
  lemma {:induction false} SearchPrevIsLongestPrefix(t: Trie, p: Path)
    ensures var n := Depth(t, p);
            Sub(t, p[..n]).Some?
            && SearchPrev(t, p) == if n < |p| && Sub(t, p[..n]).value.kids == map[] then None else Sub(t, p[..n])
    decreases |p|
  {
    var n := Depth(t, p);
    if p != [] && p[0] in t.kids {
      SearchPrevIsLongestPrefix(t.kids[p[0]], p[1..]);
      assert p[..n][1..] == p[1..][..n - 1];
    }
  }

  /** When the whole path exists both searches agree. */
  lemma {:induction false} SearchPrevAgrees(t: Trie, p: Path)
    requires Sub(t, p).Some?
    ensures SearchPrev(t, p) == Sub(t, p)
  {
    DepthIsLongest(t, p, |p|);
    assert p[..|p|] == p;
    SearchPrevIsLongestPrefix(t, p);
  }
}
