/** The AVL tree on the heap: node objects whose `left`, `right`, `h` and `value`
    are overwritten in place. Every method is tied to an operation of `AvlSpec` on the
    tree its nodes form; the height byte and the signed `char` of the balance factor
    are computed with their wrap-around.
 */
module Avl {
  import opened AvlSpec
  import opened AvlHeight

  type Uchar = n: int | 0 <= n < 256

  /** Conversion to a signed 8-bit `char`. */
  function ToChar(n: int): (c: int)
    ensures -128 <= c < 128 && (c - n) % 256 == 0
    ensures -128 <= n < 128 ==> c == n
  {
    if n % 256 < 128 then n % 256 else n % 256 - 256
  }

  class AvlNode<V> {
    var key: Key
    var h: Uchar
    var left: AvlNode?<V>
    var right: AvlNode?<V>
    var value: V

    constructor (key: Key, value: V)
      ensures this.key == key && this.value == value
      ensures h == 0 && left == null && right == null
    {
      this.key, this.value := key, value;
      h, left, right := 0, null, null;
    }
  }

  type Shape<V> = Tree<AvlNode<V>, V>

  /** The nodes under `n` form the tree `t`, with correct cached heights. */
  ghost predicate IsTree<V>(n: AvlNode?<V>, t: Shape<V>)
    reads Ids(t)
  {
    match t
    case Nil => n == null
    case Node(l, id, k, v, r) =>
      && n == id && id.key == k && id.value == v && id.h as int == H(t)
      && IsTree(id.left, l) && IsTree(id.right, r)
  }

  /** As `IsTree`, except that the cached height of the root may be out of date. */
  ghost predicate IsStale<V>(n: AvlNode<V>, t: Shape<V>)
    reads Ids(t)
  {
    && t.Node? && n == t.id && n.key == t.key && n.value == t.value
    && IsTree(n.left, t.left) && IsTree(n.right, t.right)
  }

  lemma {:induction false} Unfold<V>(n: AvlNode<V>, t: Shape<V>)
    requires IsTree(n, t)
    ensures IsStale(n, t)
  {
  }

  /** The nodes of a tree at hand are allocated. */
  lemma {:induction false} Allocated<V>(t: Shape<V>)
    ensures forall n :: n in Ids(t) ==> allocated(n)
  {
    if t.Node? {
      Allocated(t.left);
      Allocated(t.right);
    }
  }

  // ---------- heights and rotations ----------

  method RecalcH<V>(node: AvlNode<V>, ghost t: Shape<V>)
    requires IsStale(node, t) && Distinct(t) && H(t) <= 120
    modifies node`h
    ensures IsTree(node, t) && IsStale(node, t)
  {
    node.h := 0;
    if node.left != null {
      node.h := (node.left.h + 1) % 256;
    }
    if node.right != null && node.right.h >= node.h {
      node.h := (node.right.h + 1) % 256;
    }
  }

  function BalanceFactor<V>(l: AvlNode?<V>, r: AvlNode?<V>): int
    reads l, r
  {
    var lh := ToChar(if l != null then l.h else 0);
    var rh := ToChar(if r != null then r.h else 0);
    ToChar(lh - rh)
  }

  /** The signed 8-bit subtraction does not wrap on trees this low. */
  lemma BalanceFactorIsExact<V>(l: AvlNode?<V>, r: AvlNode?<V>, tl: Shape<V>, tr: Shape<V>)
    requires IsTree(l, tl) && IsTree(r, tr) && H(tl) <= 120 && H(tr) <= 120
    ensures BalanceFactor(l, r) == H(tl) - H(tr)
  {
  }

  lemma RotateHeight<V>(t: Shape<V>)
    requires t.Node?
    ensures t.left.Node? ==> H(RotateRight(t)) <= H(t) + 1 && H(RotateRight(t).right) <= H(t)
    ensures t.right.Node? ==> H(RotateLeft(t)) <= H(t) + 1 && H(RotateLeft(t).left) <= H(t)
  {
  }

  method RotateRightAt<V>(p: AvlNode<V>, ghost t: Shape<V>) returns (q: AvlNode<V>)
    requires IsStale(p, t) && t.left.Node? && Distinct(t) && H(t) <= 110
    modifies Ids(t)
    ensures IsTree(q, RotateRight(t))
  {
    ghost var u := RotateRight(t);
    RotateRightKeepsIds(t);
    RotateHeight(t);
    Allocated(u.left);
    q := p.left;
    p.left := q.right;
    q.right := p;
    assert IsTree(q.left, u.left) && IsStale(p, u.right);
    RecalcH(p, u.right);
    assert IsTree(q.left, u.left) && IsTree(q.right, u.right);
    RecalcH(q, u);
  }

  method RotateLeftAt<V>(p: AvlNode<V>, ghost t: Shape<V>) returns (q: AvlNode<V>)
    requires IsStale(p, t) && t.right.Node? && Distinct(t) && H(t) <= 110
    modifies Ids(t)
    ensures IsTree(q, RotateLeft(t))
  {
    ghost var u := RotateLeft(t);
    RotateLeftKeepsIds(t);
    RotateHeight(t);
    Allocated(u.right);
    q := p.right;
    p.right := q.left;
    q.left := p;
    assert IsTree(q.right, u.right) && IsStale(p, u.left);
    RecalcH(p, u.left);
    assert IsTree(q.left, u.left) && IsTree(q.right, u.right);
    RecalcH(q, u);
  }

  // ---------- balancing ----------

  /** The inner rotation of the double rotation to the right. */
  method RotateLeftChild<V>(p: AvlNode<V>, ghost t: Shape<V>)
    requires IsTree(p, t) && t.left.Node? && t.left.right.Node? && Distinct(t) && H(t) <= 100
    modifies Ids(t)
    ensures IsStale(p, t.(left := RotateLeft(t.left)))
  {
    Allocated(t);
    RotateLeftKeepsIds(t.left);
    var l := RotateLeftAt(p.left, t.left);
    p.left := l;
  }

  /** The inner rotation of the double rotation to the left. */
  method RotateRightChild<V>(p: AvlNode<V>, ghost t: Shape<V>)
    requires IsTree(p, t) && t.right.Node? && t.right.left.Node? && Distinct(t) && H(t) <= 100
    modifies Ids(t)
    ensures IsStale(p, t.(right := RotateRight(t.right)))
  {
    Allocated(t);
    RotateRightKeepsIds(t.right);
    var r := RotateRightAt(p.right, t.right);
    p.right := r;
  }

  lemma {:induction false} LeftChildRotation<V>(t: Shape<V>)
    requires t.Node? && t.left.Node? && t.left.right.Node? && Distinct(t)
    ensures var u := t.(left := RotateLeft(t.left));
            Distinct(u) && Ids(u) == Ids(t) && H(u) <= H(t) + 1
  {
    RotateLeftKeepsIds(t.left);
    RotateHeight(t.left);
  }

  lemma {:induction false} RightChildRotation<V>(t: Shape<V>)
    requires t.Node? && t.right.Node? && t.right.left.Node? && Distinct(t)
    ensures var u := t.(right := RotateRight(t.right));
            Distinct(u) && Ids(u) == Ids(t) && H(u) <= H(t) + 1
  {
    RotateRightKeepsIds(t.right);
    RotateHeight(t.right);
  }

  method BalanceAt<V>(p: AvlNode<V>, ghost t: Shape<V>) returns (q: AvlNode<V>)
    requires IsStale(p, t) && Distinct(t) && H(t) <= 100
    modifies Ids(t)
    ensures IsTree(q, Balance(t))
  {
    Allocated(t);
    RecalcH(p, t);
    ghost var u := t;
    BalanceFactorIsExact(p.left, p.right, t.left, t.right);
    var bf := BalanceFactor(p.left, p.right);
    if bf >= 2 {
      Unfold(p.left, t.left);
      BalanceFactorIsExact(p.left.left, p.left.right, t.left.left, t.left.right);
      var lbf := BalanceFactor(p.left.left, p.left.right);
      if lbf < 0 {
        LeftChildRotation(t);
        RotateLeftChild(p, t);
        u := t.(left := RotateLeft(t.left));
      }
      q := RotateRightAt(p, u);
    } else if bf <= -2 {
      Unfold(p.right, t.right);
      BalanceFactorIsExact(p.right.left, p.right.right, t.right.left, t.right.right);
      var rbf := BalanceFactor(p.right.left, p.right.right);
      if rbf > 0 {
        RightChildRotation(t);
        RotateRightChild(p, t);
        u := t.(right := RotateRight(t.right));
      }
      q := RotateLeftAt(p, u);
    } else {
      q := p;
    }
  }

  /** `base` gets the left subtree `l` and is rebalanced. */
  method RelinkLeft<V>(base: AvlNode<V>, l: AvlNode?<V>, ghost u: Shape<V>) returns (root: AvlNode<V>)
    requires u.Node? && base == u.id && base.key == u.key && base.value == u.value
    requires IsTree(l, u.left) && IsTree(base.right, u.right) && Distinct(u) && H(u) <= 100
    modifies Ids(u)
    ensures IsTree(root, Balance(u))
  {
    Allocated(u);
    base.left := l;
    root := BalanceAt(base, u);
  }

  /** `base` gets the right subtree `r` and is rebalanced. */
  method RelinkRight<V>(base: AvlNode<V>, r: AvlNode?<V>, ghost u: Shape<V>) returns (root: AvlNode<V>)
    requires u.Node? && base == u.id && base.key == u.key && base.value == u.value
    requires IsTree(base.left, u.left) && IsTree(r, u.right) && Distinct(u) && H(u) <= 100
    modifies Ids(u)
    ensures IsTree(root, Balance(u))
  {
    Allocated(u);
    base.right := r;
    root := BalanceAt(base, u);
  }

  // ---------- search ----------

  /** The search loop finds the node of the key, or nothing when the key is absent,
      and visits at most one node more than the height. */
  method Search<V>(base: AvlNode?<V>, key: Key, ghost t: Shape<V>) returns (r: AvlNode?<V>, ghost visited: nat)
    requires IsTree(base, t) && Ordered(t)
    ensures if key in Entries(t) then r == Entries(t)[key].id && r.value == Entries(t)[key].value else r == null
    ensures visited <= H(t) + 1
  {
    var n := base;
    ghost var u := t;
    visited := 0;
    while n != null
      invariant IsTree(n, u) && Ordered(u)
      invariant key in Entries(t) <==> key in Entries(u)
      invariant key in Entries(t) ==> Entries(t)[key] == Entries(u)[key]
      invariant visited + (if u.Nil? then 0 else H(u) + 1) <= H(t) + 1
      decreases u
    {
      visited := visited + 1;
      if key == n.key { return n, visited; }
      if key < n.key {
        n, u := n.left, u.left;
      } else if key > n.key {
        n, u := n.right, u.right;
      }
    }
    r := null;
  }

  // ---------- insertion ----------

  lemma {:induction false} InsertKeepsGood<V>(t: Shape<V>, key: Key, value: V, id: AvlNode<V>)
    requires Good(t) && (key in Entries(t) || id !in Ids(t))
    ensures Good(Insert(t, key, value, id)) && Insert(t, key, value, id).Node?
    ensures Ids(Insert(t, key, value, id)) == Ids(t) + if key in Entries(t) then {} else {id}
    ensures H(Insert(t, key, value, id)) <= 45
  {
    InsertUpdatesMap(t, key, value, id);
    InsertKeepsBalance(t, key, value, id);
    InsertKeepsIds(t, key, value, id);
    HeightOfIntKeys(Insert(t, key, value, id));
  }

  lemma {:induction false} InsertLeft<V>(t: Shape<V>, key: Key, value: V, id: AvlNode<V>)
    requires t.Node? && Good(t) && key < t.key && (key in Entries(t.left) || id !in Ids(t))
    ensures var u := t.(left := Insert(t.left, key, value, id));
            Distinct(u) && H(u) <= 46 && Ids(u) <= Ids(t) + {id}
            && (key in Entries(t.left) ==> Ids(u) == Ids(t)) && Insert(t, key, value, id) == Balance(u)
  {
    InsertKeepsGood(t.left, key, value, id);
    HeightOfIntKeys(t.right);
  }

  lemma {:induction false} InsertRight<V>(t: Shape<V>, key: Key, value: V, id: AvlNode<V>)
    requires t.Node? && Good(t) && key > t.key && (key in Entries(t.right) || id !in Ids(t))
    ensures var u := t.(right := Insert(t.right, key, value, id));
            Distinct(u) && H(u) <= 46 && Ids(u) <= Ids(t) + {id}
            && (key in Entries(t.right) ==> Ids(u) == Ids(t)) && Insert(t, key, value, id) == Balance(u)
  {
    InsertKeepsGood(t.right, key, value, id);
    HeightOfIntKeys(t.left);
  }

  /** Inserts or overwrites. When the key was absent, `stored'` is the one new node; when it
      was present, no node is added and what the caller passed as `stored` comes back.
   */
  method InsertAt<V>(base: AvlNode?<V>, key: Key, value: V, stored: AvlNode?<V>, ghost t: Shape<V>)
    returns (root: AvlNode<V>, stored': AvlNode?<V>)
    requires IsTree(base, t) && Good(t)
    modifies Ids(t)
    ensures key !in Entries(t) ==>
              stored' != null && fresh(stored') && IsTree(root, Insert(t, key, value, stored'))
    ensures key in Entries(t) ==>
              stored' == stored && IsTree(root, Insert(t, key, value, Entries(t)[key].id))
    decreases t
  {
    if base == null {
      root := new AvlNode(key, value);
      return root, root;
    }
    Allocated(t);
    if base.key == key {
      base.value := value;
      return base, stored;
    }
    EntriesBySide(t, key);
    if key < base.key {
      var l;
      l, stored' := InsertAt(base.left, key, value, stored, t.left);
      ghost var id := if key in Entries(t.left) then Entries(t.left)[key].id else stored';
      InsertLeft(t, key, value, id);
      root := RelinkLeft(base, l, t.(left := Insert(t.left, key, value, id)));
    } else {
      var r;
      r, stored' := InsertAt(base.right, key, value, stored, t.right);
      ghost var id := if key in Entries(t.right) then Entries(t.right)[key].id else stored';
      InsertRight(t, key, value, id);
      root := RelinkRight(base, r, t.(right := Insert(t.right, key, value, id)));
    }
  }

  // ---------- removal ----------

  lemma {:induction false} RemoveKeepsGood<V>(t: Shape<V>, key: Key)
    requires Good(t)
    ensures Good(Remove(t, key)) && H(Remove(t, key)) <= 45
    ensures Ids(Remove(t, key)) <= Ids(t)
  {
    RemoveUpdatesMap(t, key);
    RemoveKeepsBalance(t, key);
    RemoveKeepsIds(t, key);
    HeightOfIntKeys(Remove(t, key));
  }

  lemma {:induction false} RemoveMinKeepsGood<V>(t: Shape<V>)
    requires t.Node? && Good(t)
    ensures Good(RemoveMin(t)) && H(RemoveMin(t)) <= 45
    ensures Ids(RemoveMin(t)) == Ids(t) - {FindMin(t).id} && FindMin(t).id in Ids(t)
  {
    RemoveMinUpdatesMap(t);
    RemoveMinKeepsBalance(t);
    RemoveMinKeepsIds(t);
    HeightOfIntKeys(RemoveMin(t));
  }

  method FindMinAt<V>(node: AvlNode<V>, ghost t: Shape<V>) returns (m: AvlNode<V>)
    requires IsTree(node, t)
    ensures m == FindMin(t).id && m.key == FindMin(t).key && m.value == FindMin(t).value
    decreases t
  {
    if node.left != null {
      m := FindMinAt(node.left, t.left);
    } else {
      m := node;
    }
  }

  method RemoveMinAt<V>(node: AvlNode<V>, ghost t: Shape<V>) returns (root: AvlNode?<V>)
    requires IsTree(node, t) && Good(t)
    modifies Ids(t)
    ensures IsTree(root, RemoveMin(t))
    ensures FindMin(t).id.key == FindMin(t).key && FindMin(t).id.value == FindMin(t).value
    decreases t
  {
    if node.left == null { return node.right; }
    Allocated(t);
    RemoveMinKeepsGood(t.left);
    HeightOfIntKeys(t.right);
    var l := RemoveMinAt(node.left, t.left);
    root := RelinkLeft(node, l, t.(left := RemoveMin(t.left)));
  }

  lemma {:induction false} RemoveLeft<V>(t: Shape<V>, key: Key)
    requires t.Node? && Good(t) && key < t.key
    ensures var u := t.(left := Remove(t.left, key));
            Distinct(u) && H(u) <= 46 && Ids(u) <= Ids(t) && Remove(t, key) == Balance(u)
  {
    RemoveKeepsGood(t.left, key);
    HeightOfIntKeys(t.right);
  }

  lemma {:induction false} RemoveRight<V>(t: Shape<V>, key: Key)
    requires t.Node? && Good(t) && key > t.key
    ensures var u := t.(right := Remove(t.right, key));
            Distinct(u) && H(u) <= 46 && Ids(u) <= Ids(t) && Remove(t, key) == Balance(u)
  {
    RemoveKeepsGood(t.right, key);
    HeightOfIntKeys(t.left);
  }

  lemma {:induction false} SuccessorIsGood<V>(t: Shape<V>)
    requires t.Node? && t.right.Node? && Good(t)
    ensures Distinct(Successor(t)) && H(Successor(t)) <= 46
    ensures Ids(Successor(t)) == Ids(t) - {t.id} && FindMin(t.right).id in Ids(t.right)
  {
    RemoveMinKeepsGood(t.right);
    HeightOfIntKeys(t.left);
  }

  /** The node holding the least key of `r` takes the place of the removed node; it may be
      the root of `r` itself.
   */
  method PromoteSuccessor<V>(l: AvlNode?<V>, r: AvlNode<V>, ghost t: Shape<V>) returns (root: AvlNode<V>)
    requires t.Node? && t.right.Node? && Good(t) && IsTree(l, t.left) && IsTree(r, t.right)
    modifies Ids(t)
    ensures IsTree(root, Balance(Successor(t)))
  {
    Allocated(t);
    SuccessorIsGood(t);
    var m := FindMinAt(r, t.right);
    var rest := RemoveMinAt(r, t.right);
    m.right := rest;
    root := RelinkLeft(m, l, Successor(t));
  }

  /** Removes the node of the key by relinking; `freed` lists the nodes given to `free`. */
  method RemoveAt<V>(base: AvlNode?<V>, key: Key, ghost t: Shape<V>)
    returns (root: AvlNode?<V>, ghost freed: seq<AvlNode<V>>)
    requires IsTree(base, t) && Good(t)
    modifies Ids(t)
    ensures IsTree(root, Remove(t, key))
    ensures freed == if key in Entries(t) then [Entries(t)[key].id] else []
    decreases t
  {
    if base == null { return null, []; }
    Allocated(t);
    EntriesBySide(t, key);
    if key < base.key {
      RemoveLeft(t, key);
      var l;
      l, freed := RemoveAt(base.left, key, t.left);
      root := RelinkLeft(base, l, t.(left := Remove(t.left, key)));
    } else if key > base.key {
      RemoveRight(t, key);
      var r;
      r, freed := RemoveAt(base.right, key, t.right);
      root := RelinkRight(base, r, t.(right := Remove(t.right, key)));
    } else {
      var l, r := base.left, base.right;
      freed := [base];
      if r == null { return l, freed; }
      if l == null { return r, freed; }
      root := PromoteSuccessor(l, r, t);
    }
  }

  // ---------- overwriting a value ----------

  lemma {:induction false} EntryIdInIds<V>(t: Shape<V>, key: Key)
    requires key in Entries(t)
    ensures Entries(t)[key].id in Ids(t)
  {
    if t.key != key {
      if key in Entries(t.right) { EntryIdInIds(t.right, key); } else { EntryIdInIds(t.left, key); }
    }
  }

  /** `IsTree` without the values. */
  ghost predicate HasLinks<V>(n: AvlNode?<V>, t: Shape<V>)
    reads Ids(t)`key, Ids(t)`h, Ids(t)`left, Ids(t)`right
  {
    match t
    case Nil => n == null
    case Node(l, id, k, v, r) =>
      n == id && id.key == k && id.h as int == H(t) && HasLinks(id.left, l) && HasLinks(id.right, r)
  }

  ghost predicate HasValues<V>(t: Shape<V>)
    reads Ids(t), set k | k in Entries(t) :: Entries(t)[k].id
  {
    forall k :: k in Entries(t) ==> Entries(t)[k].id.value == Entries(t)[k].value
  }

  lemma {:induction false} LinksAndValues<V>(n: AvlNode?<V>, t: Shape<V>)
    requires Ordered(t)
    ensures IsTree(n, t) <==> HasLinks(n, t) && HasValues(t)
    decreases t
  {
    if t.Node? {
      LinksAndValues(t.id.left, t.left);
      LinksAndValues(t.id.right, t.right);
      assert HasValues(t) <==> t.id.value == t.value && HasValues(t.left) && HasValues(t.right) by {
        assert t.key in Entries(t);
        forall k | k in Entries(t.left) ensures k in Entries(t) && Entries(t)[k] == Entries(t.left)[k] {
          EntriesBySide(t, k);
        }
        forall k | k in Entries(t.right) ensures k in Entries(t) && Entries(t)[k] == Entries(t.right)[k] {
          EntriesBySide(t, k);
        }
      }
    }
  }

  /** Different keys sit in different nodes. */
  lemma {:induction false} KeysHaveOwnNodes<V>(t: Shape<V>, j: Key, k: Key)
    requires Ordered(t) && Distinct(t) && j in Entries(t) && k in Entries(t) && j < k
    ensures Entries(t)[j].id != Entries(t)[k].id
  {
    EntriesBySide(t, j);
    EntriesBySide(t, k);
    if k < t.key {
      KeysHaveOwnNodes(t.left, j, k);
    } else if t.key < j {
      KeysHaveOwnNodes(t.right, j, k);
    } else {
      if j < t.key { EntryIdInIds(t.left, j); }
      if t.key < k { EntryIdInIds(t.right, k); }
    }
  }

  lemma {:induction false} LinksIgnoreValue<V>(n: AvlNode?<V>, t: Shape<V>, key: Key, value: V)
    requires HasLinks(n, t)
    ensures HasLinks(n, SetValue(t, key, value))
  {
    SetValueKeepsShape(t, key, value);
    if t.Node? {
      if key < t.key {
        LinksIgnoreValue(t.id.left, t.left, key, value);
      } else if key > t.key {
        LinksIgnoreValue(t.id.right, t.right, key, value);
      }
    }
  }

  /** Writing the `value` field of the node of `key` is `SetValue`. */
  method WriteValue<V>(n: AvlNode<V>, value: V, ghost base: AvlNode?<V>, ghost t: Shape<V>, ghost key: Key)
    requires IsTree(base, t) && Good(t) && key in Entries(t) && Entries(t)[key].id == n
    modifies n`value
    ensures n.value == value && IsTree(base, SetValue(t, key, value)) && Good(SetValue(t, key, value))
    ensures Entries(SetValue(t, key, value)) == Entries(t)[key := Entry(n, value)]
    ensures Ids(SetValue(t, key, value)) == Ids(t)
  {
    ghost var u := SetValue(t, key, value);
    SetValueUpdatesMap(t, key, value);
    SetValueKeepsShape(t, key, value);
    LinksAndValues(base, t);
    LinksIgnoreValue(base, t, key, value);
    n.value := value;
    forall k | k in Entries(u)
      ensures Entries(u)[k].id.value == Entries(u)[k].value
    {
      if k < key { KeysHaveOwnNodes(t, k, key); } else if key < k { KeysHaveOwnNodes(t, key, k); }
    }
    LinksAndValues(base, u);
  }
}
