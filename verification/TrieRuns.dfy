/** Whole runs of insertions and removals of byte strings, from the empty trie. */
module TrieRuns {
  import opened TrieSpec

  datatype Edit = Put(key: Path, value: Ptr) | Del(key: Path)

  ghost function Edited(t: Trie, edits: seq<Edit>): Trie
    decreases |edits|
  {
    if edits == [] then t
    else match edits[0]
      case Put(p, v) => Edited(Insert(t, p, v), edits[1..])
      case Del(p) => Edited(Remove(t, p), edits[1..])
  }

  /** The plain map after the edits. */
  ghost function Folded(m: map<Path, Ptr>, edits: seq<Edit>): map<Path, Ptr>
    decreases |edits|
  {
    if edits == [] then m
    else match edits[0]
      case Put(p, v) => Folded(m[p := v], edits[1..])
      case Del(p) => Folded(m - {p}, edits[1..])
  }

  lemma {:induction false} EditsKeepTrie(t: Trie, edits: seq<Edit>)
    requires Pruned(t)
    ensures Pruned(Edited(t, edits)) && Contents(Edited(t, edits)) == Folded(Contents(t), edits)
    decreases |edits|
  {
    hide Pruned, Contents, Insert, Remove;
    if edits != [] {
      match edits[0]
      case Put(p, v) =>
        InsertKeepsPruned(t, p, v);
        InsertUpdates(t, p, v);
        EditsKeepTrie(Insert(t, p, v), edits[1..]);
      case Del(p) =>
        RemoveKeepsPruned(t, p);
        RemoveDeletes(t, p);
        EditsKeepTrie(Remove(t, p), edits[1..]);
    }
  }

  lemma EmptyContents()
    ensures Contents(EMPTY) == map[] && Pruned(EMPTY)
  {
    forall p ensures p !in Contents(EMPTY) {
      ContentsAt(EMPTY, p);
    }
  }

  /** Two runs from the empty trie that make the same map make the same set of nodes: the map of
      the edits, and its keys' prefixes with the root.
   */
  lemma {:induction false} NodesForgetHistory(a: seq<Edit>, b: seq<Edit>)
    requires Folded(map[], a) == Folded(map[], b)
    ensures Contents(Edited(EMPTY, a)) == Contents(Edited(EMPTY, b)) == Folded(map[], a)
    ensures Paths(Edited(EMPTY, a)) == Paths(Edited(EMPTY, b))
    ensures forall p :: p in Paths(Edited(EMPTY, a)) <==> p == [] || exists q :: q in Folded(map[], a) && p <= q
  {
    EmptyContents();
    EditsKeepTrie(EMPTY, a);
    EditsKeepTrie(EMPTY, b);
    hide Pruned, Contents, Paths, Edited;
    NodesFollowMap(Edited(EMPTY, a), Edited(EMPTY, b));
    forall p ensures p in Paths(Edited(EMPTY, a)) <==> p == [] || exists q :: q in Folded(map[], a) && p <= q {
      PrunedNodes(Edited(EMPTY, a), p);
    }
  }
}
