/** Whole runs of insertions and removals, from the empty tree. */
module AvlRuns {
  import opened AvlSpec
  import opened AvlHeight

  datatype Edit<V> = Put(key: Key, value: V) | Del(key: Key)

  /** The tree after the edits; new nodes are numbered from `next` on. */
  function Edited<V>(t: Tree<nat, V>, next: nat, edits: seq<Edit<V>>): Tree<nat, V>
    decreases |edits|
  {
    if edits == [] then t
    else match edits[0]
      case Put(k, v) => Edited(Insert(t, k, v, next), next + 1, edits[1..])
      case Del(k) => Edited(Remove(t, k), next, edits[1..])
  }

  /** The plain map after the edits. */
  function Folded<V>(m: map<Key, V>, edits: seq<Edit<V>>): map<Key, V>
    decreases |edits|
  {
    if edits == [] then m
    else match edits[0]
      case Put(k, v) => Folded(m[k := v], edits[1..])
      case Del(k) => Folded(m - {k}, edits[1..])
  }

  ghost function Values<V>(t: Tree<nat, V>): map<Key, V> {
    map k | k in Entries(t) :: Entries(t)[k].value
  }

  /** After any edits of a good tree: order, distinct nodes, and balance under the height of the
      code hold, and the tree is the map that the edits make.
   */
  lemma {:induction false} EditsKeepTree<V>(t: Tree<nat, V>, next: nat, edits: seq<Edit<V>>)
    requires Good(t) && forall i :: i in Ids(t) ==> i < next
    ensures Good(Edited(t, next, edits)) && Values(Edited(t, next, edits)) == Folded(Values(t), edits)
    decreases |edits|
  {
    if edits != [] {
      hide Good, Insert, Remove, Entries;
      match edits[0]
      case Put(k, v) =>
        PutKeepsTree(t, next, k, v);
        EditsKeepTree(Insert(t, k, v, next), next + 1, edits[1..]);
      case Del(k) =>
        DelKeepsTree(t, next, k);
        EditsKeepTree(Remove(t, k), next, edits[1..]);
    }
  }

  lemma PutKeepsTree<V>(t: Tree<nat, V>, next: nat, k: Key, v: V)
    requires Good(t) && forall i :: i in Ids(t) ==> i < next
    ensures Good(Insert(t, k, v, next)) && forall i :: i in Ids(Insert(t, k, v, next)) ==> i < next + 1
    ensures Values(Insert(t, k, v, next)) == Values(t)[k := v]
  {
    hide Insert, Entries, Ids, Ordered, Distinct, Balanced, H;
    InsertUpdatesMap(t, k, v, next);
    InsertKeepsIds(t, k, v, next);
    InsertKeepsBalance(t, k, v, next);
  }

  lemma DelKeepsTree<V>(t: Tree<nat, V>, next: nat, k: Key)
    requires Good(t) && forall i :: i in Ids(t) ==> i < next
    ensures Good(Remove(t, k)) && forall i :: i in Ids(Remove(t, k)) ==> i < next
    ensures Values(Remove(t, k)) == Values(t) - {k}
  {
    hide Remove, Entries, Ids, Ordered, Distinct, Balanced, H;
    RemoveUpdatesMap(t, k);
    RemoveKeepsIds(t, k);
    RemoveKeepsBalance(t, k);
  }

  /** From the empty tree, whatever is inserted and removed, the height byte stays in range and
      a search visits at most 46 nodes.
   */
  lemma {:induction false} EditedHeight<V>(edits: seq<Edit<V>>)
    ensures Good(Edited(Nil, 0, edits)) && Values(Edited(Nil, 0, edits)) == Folded(map[], edits)
    ensures H(Edited(Nil, 0, edits)) <= 45
  {
    assert Values<V>(Nil) == map[];
    EditsKeepTree(Nil, 0, edits);
    HeightOfIntKeys(Edited(Nil, 0, edits));
  }

  /** The usual rule, with an empty side one lower than a leaf, does not hold: 1, 2, 3 inserted
      in order stay a chain of three.
   */
  lemma ChainOfThree<V>(v: V)
    ensures Edited(Nil, 0, [Put(1, v), Put(2, v), Put(3, v)])
         == Node(Nil, 0, 1, v, Node(Nil, 1, 2, v, Node(Nil, 2, 3, v, Nil)))
  {
    var one := Node(Nil, 0, 1, v, Nil);
    var pair := Node(Nil, 1, 2, v, Nil);
    var two := one.(right := pair);
    var three := one.(right := pair.(right := Node(Nil, 2, 3, v, Nil)));
    assert Insert(one, 2, v, 1) == two;
    assert Insert(pair, 3, v, 2) == three.right;
    assert Insert(two, 3, v, 2) == three;
    assert Edited(three, 3, []) == three;
    OneEdit(two, 2, Put(3, v), []);
    OneEdit(one, 1, Put(2, v), [Put(3, v)]);
    OneEdit(Nil, 0, Put(1, v), [Put(2, v), Put(3, v)]);
  }

  lemma OneEdit<V>(t: Tree<nat, V>, next: nat, e: Edit<V>, rest: seq<Edit<V>>)
    requires e.Put?
    ensures Edited(t, next, [e] + rest) == Edited(Insert(t, e.key, e.value, next), next + 1, rest)
  {
    assert ([e] + rest)[1..] == rest;
  }
}
