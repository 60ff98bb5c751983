/** The shape of an AVL tree as a value, and what the operations do to it.

    A tree remembers, at every position, which node object sits there (`id`), so
    that statements about node objects (which survive, which is handed back) are
    statements about values. The heap module `Avl` ties node objects to such trees.

    Keys are machine integers; an `unsigned char` key is one of them.
 */
module AvlSpec {
  const KEY_MIN := -0x8000_0000
  const KEY_LIMIT := 0x8000_0000

  type Key = k: int | KEY_MIN <= k < KEY_LIMIT

  datatype Entry<N, V> = Entry(id: N, value: V)

  datatype Tree<N, V> =
    | Nil
    | Node(left: Tree<N, V>, id: N, key: Key, value: V, right: Tree<N, V>)

  /** The map a tree stands for: each key with its node object and its value. */
  ghost function Entries<N, V>(t: Tree<N, V>): map<Key, Entry<N, V>> {
    match t
    case Nil => map[]
    case Node(l, id, k, v, r) => (Entries(l) + Entries(r))[k := Entry(id, v)]
  }

  ghost function Ids<N, V>(t: Tree<N, V>): set<N> {
    match t
    case Nil => {}
    case Node(l, id, _, _, r) => Ids(l) + {id} + Ids(r)
  }

  /** Search order. */
  ghost predicate Ordered<N, V>(t: Tree<N, V>) {
    match t
    case Nil => true
    case Node(l, _, k, _, r) =>
      && Ordered(l)
      && Ordered(r)
      && (forall x :: x in Entries(l) ==> x < k)
      && (forall x :: x in Entries(r) ==> k < x)
  }

  /** No node object occurs twice. */
  ghost predicate Distinct<N, V>(t: Tree<N, V>) {
    match t
    case Nil => true
    case Node(l, id, _, _, r) =>
      Distinct(l) && Distinct(r) && id !in Ids(l) && id !in Ids(r) && Ids(l) !! Ids(r)
  }

  /** Height as the code measures it: both the empty tree and a leaf have height 0. */
  function H<N, V>(t: Tree<N, V>): nat {
    match t
    case Nil => 0
    case Node(l, _, _, _, r) =>
      var hl := if l.Nil? then 0 else H(l) + 1;
      if r.Nil? || H(r) < hl then hl else H(r) + 1
  }

  ghost predicate Balanced<N, V>(t: Tree<N, V>) {
    match t
    case Nil => true
    case Node(l, _, _, _, r) => Balanced(l) && Balanced(r) && -1 <= H(l) - H(r) <= 1
  }

  /** What every operation keeps. */
  ghost predicate Good<N, V>(t: Tree<N, V>) {
    Ordered(t) && Distinct(t) && Balanced(t)
  }

  // ---------- the operations ----------

  function RotateRight<N, V>(p: Tree<N, V>): Tree<N, V>
    requires p.Node? && p.left.Node?
  {
    p.left.(right := p.(left := p.left.right))
  }

  function RotateLeft<N, V>(p: Tree<N, V>): Tree<N, V>
    requires p.Node? && p.right.Node?
  {
    p.right.(left := p.(right := p.right.left))
  }

  function Balance<N, V>(p: Tree<N, V>): Tree<N, V>
    requires p.Node?
  {
    var bf := H(p.left) - H(p.right);
    if bf >= 2 then
      RotateRight(if H(p.left.left) < H(p.left.right) then p.(left := RotateLeft(p.left)) else p)
    else if bf <= -2 then
      RotateLeft(if H(p.right.left) > H(p.right.right) then p.(right := RotateRight(p.right)) else p)
    else
      p
  }

  function Insert<N, V>(t: Tree<N, V>, key: Key, value: V, id: N): Tree<N, V> {
    match t
    case Nil => Node(Nil, id, key, value, Nil)
    case Node(l, _, k, _, r) =>
      if key == k then t.(value := value)
      else if key < k then Balance(t.(left := Insert(l, key, value, id)))
      else Balance(t.(right := Insert(r, key, value, id)))
  }

  /** The subtree rooted at the leftmost node. */
  function FindMin<N, V>(t: Tree<N, V>): (m: Tree<N, V>)
    requires t.Node?
    ensures m.Node? && m.left.Nil?
  {
    if t.left.Nil? then t else FindMin(t.left)
  }

  function RemoveMin<N, V>(t: Tree<N, V>): Tree<N, V>
    requires t.Node?
  {
    if t.left.Nil? then t.right else Balance(t.(left := RemoveMin(t.left)))
  }

  /** The node that takes the place of a removed root with two children. */
  function Successor<N, V>(t: Tree<N, V>): (m: Tree<N, V>)
    requires t.Node? && t.right.Node?
  {
    var m := FindMin(t.right);
    Node(t.left, m.id, m.key, m.value, RemoveMin(t.right))
  }

  function Remove<N, V>(t: Tree<N, V>, key: Key): Tree<N, V> {
    match t
    case Nil => Nil
    case Node(l, _, k, _, r) =>
      if key < k then Balance(t.(left := Remove(l, key)))
      else if key > k then Balance(t.(right := Remove(r, key)))
      else if r.Nil? then l
      else if l.Nil? then r
      else Balance(Successor(t))
  }

  // ---------- balancing ----------

  lemma MapRotation<K, E>(a: map<K, E>, q: K, x: E, b: map<K, E>, p: K, y: E, c: map<K, E>)
    requires q != p && q !in c
    ensures (((a + b)[q := x]) + c)[p := y] == (a + (b + c)[p := y])[q := x]
  {
  }

  lemma {:induction false} RotateRightKeepsMap<N, V>(p: Tree<N, V>)
    requires p.Node? && p.left.Node? && Ordered(p)
    ensures Ordered(RotateRight(p)) && Entries(RotateRight(p)) == Entries(p)
  {
    var q := p.left;
    var a, b, c := Entries(q.left), Entries(q.right), Entries(p.right);
    var x, y := Entry(q.id, q.value), Entry(p.id, p.value);
    assert q.key in Entries(q);
    assert forall z :: z in b ==> z in Entries(q);
    MapRotation(a, q.key, x, b, p.key, y, c);
  }

  lemma {:induction false} RotateLeftKeepsMap<N, V>(p: Tree<N, V>)
    requires p.Node? && p.right.Node? && Ordered(p)
    ensures Ordered(RotateLeft(p)) && Entries(RotateLeft(p)) == Entries(p)
  {
    var q := p.right;
    var a, b, c := Entries(p.left), Entries(q.left), Entries(q.right);
    var x, y := Entry(p.id, p.value), Entry(q.id, q.value);
    assert q.key in Entries(q);
    assert forall z :: z in b ==> z in Entries(q);
    MapRotation(a, p.key, x, b, q.key, y, c);
  }

  lemma {:induction false} RotateRightKeepsIds<N, V>(p: Tree<N, V>)
    requires p.Node? && p.left.Node? && Distinct(p)
    ensures Distinct(RotateRight(p)) && Ids(RotateRight(p)) == Ids(p)
  {
  }

  lemma {:induction false} RotateLeftKeepsIds<N, V>(p: Tree<N, V>)
    requires p.Node? && p.right.Node? && Distinct(p)
    ensures Distinct(RotateLeft(p)) && Ids(RotateLeft(p)) == Ids(p)
  {
  }

  /** Balancing moves nodes but keeps the map, the search order and the node objects. */
  lemma {:induction false} BalanceKeepsMap<N, V>(p: Tree<N, V>)
    requires p.Node? && Ordered(p)
    ensures Ordered(Balance(p)) && Entries(Balance(p)) == Entries(p)
  {
    var bf := H(p.left) - H(p.right);
    if bf >= 2 {
      if H(p.left.left) < H(p.left.right) {
        RotateLeftKeepsMap(p.left);
        RotateRightKeepsMap(p.(left := RotateLeft(p.left)));
      } else {
        RotateRightKeepsMap(p);
      }
    } else if bf <= -2 {
      if H(p.right.left) > H(p.right.right) {
        RotateRightKeepsMap(p.right);
        RotateLeftKeepsMap(p.(right := RotateRight(p.right)));
      } else {
        RotateLeftKeepsMap(p);
      }
    }
  }

  lemma {:induction false} BalanceKeepsIds<N, V>(p: Tree<N, V>)
    requires p.Node? && Distinct(p)
    ensures Distinct(Balance(p)) && Ids(Balance(p)) == Ids(p)
  {
    var bf := H(p.left) - H(p.right);
    if bf >= 2 {
      if H(p.left.left) < H(p.left.right) {
        RotateLeftKeepsIds(p.left);
        RotateRightKeepsIds(p.(left := RotateLeft(p.left)));
      } else {
        RotateRightKeepsIds(p);
      }
    } else if bf <= -2 {
      if H(p.right.left) > H(p.right.right) {
        RotateRightKeepsIds(p.right);
        RotateLeftKeepsIds(p.(right := RotateRight(p.right)));
      } else {
        RotateLeftKeepsIds(p);
      }
    }
  }

  lemma {:induction false} RepairLeftHeavy<N, V>(p: Tree<N, V>)
    requires p.Node? && Balanced(p.left) && Balanced(p.right)
    requires H(p.left) - H(p.right) == 2
    ensures Balanced(Balance(p))
    ensures H(p) - 1 <= H(Balance(p)) <= H(p)
  {
    var q := p.left;
    if H(q.left) < H(q.right) {
      var m := q.right;
      var outer, inner := q.(right := m.left), p.(left := m.right);
      assert Balance(p) == m.(left := outer, right := inner);
      assert H(m.left) <= H(m) - 1 && H(m.right) <= H(m) - 1;
      assert Balanced(outer) && H(outer) <= H(m);
      assert Balanced(inner) && H(inner) <= H(m);
    } else {
      assert Balance(p) == q.(right := p.(left := q.right));
      assert Balanced(p.(left := q.right));
    }
  }

  lemma {:induction false} RepairRightHeavy<N, V>(p: Tree<N, V>)
    requires p.Node? && Balanced(p.left) && Balanced(p.right)
    requires H(p.left) - H(p.right) == -2
    ensures Balanced(Balance(p))
    ensures H(p) - 1 <= H(Balance(p)) <= H(p)
  {
    var q := p.right;
    if H(q.left) > H(q.right) {
      var m := q.left;
      var outer, inner := q.(left := m.right), p.(right := m.left);
      assert Balance(p) == m.(left := inner, right := outer);
      assert H(m.left) <= H(m) - 1 && H(m.right) <= H(m) - 1;
      assert Balanced(outer) && H(outer) <= H(m);
      assert Balanced(inner) && H(inner) <= H(m);
    } else {
      assert Balance(p) == q.(left := p.(right := q.left));
      assert Balanced(p.(right := q.left));
    }
  }

  /** Balancing repairs every imbalance of at most two, and lowers the tree by at most one. */
  lemma {:induction false} BalanceRepairs<N, V>(p: Tree<N, V>)
    requires p.Node? && Balanced(p.left) && Balanced(p.right)
    requires -2 <= H(p.left) - H(p.right) <= 2
    ensures Balanced(Balance(p))
    ensures H(p) - 1 <= H(Balance(p)) <= H(p)
    ensures Balanced(p) ==> Balance(p) == p
  {
    if H(p.left) - H(p.right) == 2 {
      RepairLeftHeavy(p);
    } else if H(p.left) - H(p.right) == -2 {
      RepairRightHeavy(p);
    }
  }

  /** A key is on the side its order says. */
  lemma EntriesBySide<N, V>(t: Tree<N, V>, key: Key)
    requires t.Node? && Ordered(t)
    ensures key < t.key ==> (key in Entries(t) <==> key in Entries(t.left))
    ensures key > t.key ==> (key in Entries(t) <==> key in Entries(t.right))
    ensures key < t.key && key in Entries(t) ==> Entries(t)[key] == Entries(t.left)[key]
    ensures key > t.key && key in Entries(t) ==> Entries(t)[key] == Entries(t.right)[key]
  {
  }

  // ---------- insertion ----------

  lemma MapUpdateLeft<K, E>(a: map<K, E>, b: map<K, E>, p: K, y: E, k: K, e: E)
    requires k != p && k !in b
    ensures (a[k := e] + b)[p := y] == (a + b)[p := y][k := e]
  {
  }

  lemma MapUpdateRight<K, E>(a: map<K, E>, b: map<K, E>, p: K, y: E, k: K, e: E)
    requires k != p
    ensures (a + b[k := e])[p := y] == (a + b)[p := y][k := e]
  {
  }

  lemma {:induction false} InsertUpdatesMap<N, V>(t: Tree<N, V>, key: Key, value: V, id: N)
    requires Ordered(t)
    ensures Ordered(Insert(t, key, value, id))
    ensures Entries(Insert(t, key, value, id))
         == Entries(t)[key := Entry(if key in Entries(t) then Entries(t)[key].id else id, value)]
  {
    if t.Node? {
      var e := Entry(if key in Entries(t) then Entries(t)[key].id else id, value);
      if key < t.key {
        var l := Insert(t.left, key, value, id);
        InsertUpdatesMap(t.left, key, value, id);
        MapUpdateLeft(Entries(t.left), Entries(t.right), t.key, Entry(t.id, t.value), key, e);
        BalanceKeepsMap(t.(left := l));
      } else if key > t.key {
        var r := Insert(t.right, key, value, id);
        InsertUpdatesMap(t.right, key, value, id);
        MapUpdateRight(Entries(t.left), Entries(t.right), t.key, Entry(t.id, t.value), key, e);
        BalanceKeepsMap(t.(right := r));
      }
    }
  }

  lemma {:induction false} InsertKeepsIds<N, V>(t: Tree<N, V>, key: Key, value: V, id: N)
    requires Ordered(t) && Distinct(t) && (key in Entries(t) || id !in Ids(t))
    ensures Distinct(Insert(t, key, value, id))
    ensures Ids(Insert(t, key, value, id)) == Ids(t) + if key in Entries(t) then {} else {id}
  {
    if t.Node? {
      if key < t.key {
        InsertKeepsIds(t.left, key, value, id);
        BalanceKeepsIds(t.(left := Insert(t.left, key, value, id)));
      } else if key > t.key {
        InsertKeepsIds(t.right, key, value, id);
        BalanceKeepsIds(t.(right := Insert(t.right, key, value, id)));
      }
    }
  }

  /** `s'` is one insertion away from `s`, as far as heights tell. */
  predicate Grew<N, V>(s: Tree<N, V>, s': Tree<N, V>) {
    s'.Node? && H(s) <= H(s') <= H(s) + 1 && (s.Nil? ==> H(s') == 0)
  }

  /** `s'` is one removal away from `s`, as far as heights tell. */
  predicate Shrank<N, V>(s: Tree<N, V>, s': Tree<N, V>) {
    H(s) - 1 <= H(s') <= H(s) && (s.Nil? ==> s'.Nil?) && (s'.Nil? ==> H(s) == 0)
  }

  /** Rebalancing above a subtree that grew gives a tree that grew. */
  lemma {:induction false} RebalanceAfterGrowth<N, V>(t: Tree<N, V>, t': Tree<N, V>)
    requires t.Node? && t'.Node? && Balanced(t) && Balanced(t'.left) && Balanced(t'.right)
    requires (t'.right == t.right && Grew(t.left, t'.left)) || (t'.left == t.left && Grew(t.right, t'.right))
    ensures Balanced(Balance(t')) && Grew(t, Balance(t'))
  {
    assert H(t) <= H(t') <= H(t) + 1;
    BalanceRepairs(t');
    if -1 <= H(t'.left) - H(t'.right) <= 1 {
      assert Balance(t') == t';
    }
  }

  /** Rebalancing above a subtree that shrank gives a tree that shrank. */
  lemma {:induction false} RebalanceAfterShrink<N, V>(t: Tree<N, V>, t': Tree<N, V>)
    requires t.Node? && t'.Node? && Balanced(t) && Balanced(t'.left) && Balanced(t'.right)
    requires (t'.right == t.right && Shrank(t.left, t'.left)) || (t'.left == t.left && Shrank(t.right, t'.right))
    ensures Balanced(Balance(t')) && Balance(t').Node? && Shrank(t, Balance(t'))
  {
    assert H(t) - 1 <= H(t') <= H(t);
    BalanceRepairs(t');
    if -1 <= H(t'.left) - H(t'.right) <= 1 {
      assert Balance(t') == t';
    }
  }

  /** Insertion raises a balanced tree by at most one and keeps it balanced. */
  lemma {:induction false} InsertKeepsBalance<N, V>(t: Tree<N, V>, key: Key, value: V, id: N)
    requires Balanced(t)
    ensures Balanced(Insert(t, key, value, id)) && Grew(t, Insert(t, key, value, id))
  {
    if t.Node? {
      if key < t.key {
        InsertKeepsBalance(t.left, key, value, id);
        RebalanceAfterGrowth(t, t.(left := Insert(t.left, key, value, id)));
      } else if key > t.key {
        InsertKeepsBalance(t.right, key, value, id);
        RebalanceAfterGrowth(t, t.(right := Insert(t.right, key, value, id)));
      }
    }
  }

  // ---------- removal ----------

  lemma MapDropLeft<K, E>(a: map<K, E>, b: map<K, E>, p: K, y: E, k: K)
    requires k != p && k !in b
    ensures ((a - {k}) + b)[p := y] == (a + b)[p := y] - {k}
  {
  }

  lemma MapDropRight<K, E>(a: map<K, E>, b: map<K, E>, p: K, y: E, k: K)
    requires k != p && k !in a
    ensures (a + (b - {k}))[p := y] == (a + b)[p := y] - {k}
  {
  }

  /** The leftmost node holds the least key. */
  lemma {:induction false} FindMinIsLeast<N, V>(t: Tree<N, V>)
    requires t.Node? && Ordered(t)
    ensures FindMin(t).key in Entries(t)
    ensures Entries(t)[FindMin(t).key] == Entry(FindMin(t).id, FindMin(t).value)
    ensures forall x :: x in Entries(t) ==> FindMin(t).key <= x
  {
    if t.left.Node? {
      FindMinIsLeast(t.left);
    }
  }

  lemma {:induction false} RemoveMinUpdatesMap<N, V>(t: Tree<N, V>)
    requires t.Node? && Ordered(t)
    ensures Ordered(RemoveMin(t))
    ensures Entries(RemoveMin(t)) == Entries(t) - {FindMin(t).key}
  {
    if t.left.Node? {
      var k := FindMin(t).key;
      FindMinIsLeast(t.left);
      RemoveMinUpdatesMap(t.left);
      MapDropLeft(Entries(t.left), Entries(t.right), t.key, Entry(t.id, t.value), k);
      BalanceKeepsMap(t.(left := RemoveMin(t.left)));
    }
  }

  lemma {:induction false} RemoveMinKeepsIds<N, V>(t: Tree<N, V>)
    requires t.Node? && Distinct(t)
    ensures FindMin(t).id in Ids(t)
    ensures Distinct(RemoveMin(t)) && Ids(RemoveMin(t)) == Ids(t) - {FindMin(t).id}
  {
    if t.left.Node? {
      RemoveMinKeepsIds(t.left);
      BalanceKeepsIds(t.(left := RemoveMin(t.left)));
    }
  }

  lemma {:induction false} RemoveMinKeepsBalance<N, V>(t: Tree<N, V>)
    requires t.Node? && Balanced(t)
    ensures Balanced(RemoveMin(t)) && Shrank(t, RemoveMin(t))
  {
    if t.left.Node? {
      RemoveMinKeepsBalance(t.left);
      RebalanceAfterShrink(t, t.(left := RemoveMin(t.left)));
    }
  }

  lemma MapDropRoot<K, E>(a: map<K, E>, b: map<K, E>, m: K, p: K, y: E)
    requires p !in a && p !in b && m in b
    ensures (a + (b - {m}))[m := b[m]] == (a + b)[p := y] - {p}
  {
  }

  lemma {:induction false} SuccessorReplacesRoot<N, V>(t: Tree<N, V>)
    requires t.Node? && t.left.Node? && t.right.Node? && Ordered(t)
    ensures Ordered(Successor(t)) && Entries(Successor(t)) == Entries(t) - {t.key}
  {
    var m := FindMin(t.right);
    FindMinIsLeast(t.right);
    RemoveMinUpdatesMap(t.right);
    assert t.key < m.key;
    MapDropRoot(Entries(t.left), Entries(t.right), m.key, t.key, Entry(t.id, t.value));
  }

  lemma {:induction false} RemoveUpdatesMap<N, V>(t: Tree<N, V>, key: Key)
    requires Ordered(t)
    ensures Ordered(Remove(t, key)) && Entries(Remove(t, key)) == Entries(t) - {key}
  {
    if t.Node? {
      var y := Entry(t.id, t.value);
      if key < t.key {
        RemoveUpdatesMap(t.left, key);
        MapDropLeft(Entries(t.left), Entries(t.right), t.key, y, key);
        BalanceKeepsMap(t.(left := Remove(t.left, key)));
      } else if key > t.key {
        RemoveUpdatesMap(t.right, key);
        MapDropRight(Entries(t.left), Entries(t.right), t.key, y, key);
        BalanceKeepsMap(t.(right := Remove(t.right, key)));
      } else if t.left.Node? && t.right.Node? {
        SuccessorReplacesRoot(t);
        BalanceKeepsMap(Successor(t));
      }
    }
  }

  lemma {:induction false} SuccessorReplacesId<N, V>(t: Tree<N, V>)
    requires t.Node? && t.left.Node? && t.right.Node? && Distinct(t)
    ensures Distinct(Balance(Successor(t))) && Ids(Balance(Successor(t))) == Ids(t) - {t.id}
  {
    RemoveMinKeepsIds(t.right);
    BalanceKeepsIds(Successor(t));
  }

  lemma {:induction false} RemoveKeepsIds<N, V>(t: Tree<N, V>, key: Key)
    requires Ordered(t) && Distinct(t)
    ensures Distinct(Remove(t, key))
    ensures if key in Entries(t)
            then Entries(t)[key].id in Ids(t) && Ids(Remove(t, key)) == Ids(t) - {Entries(t)[key].id}
            else Ids(Remove(t, key)) == Ids(t)
  {
    if t.Node? {
      if key < t.key {
        RemoveKeepsIds(t.left, key);
        EntriesBySide(t, key);
        BalanceKeepsIds(t.(left := Remove(t.left, key)));
      } else if key > t.key {
        RemoveKeepsIds(t.right, key);
        EntriesBySide(t, key);
        BalanceKeepsIds(t.(right := Remove(t.right, key)));
      } else if t.left.Node? && t.right.Node? {
        SuccessorReplacesId(t);
      }
    }
  }

  lemma {:induction false} SuccessorBalanced<N, V>(t: Tree<N, V>)
    requires t.Node? && t.right.Node? && Balanced(t)
    ensures Balanced(Balance(Successor(t))) && Shrank(t, Balance(Successor(t)))
  {
    RemoveMinKeepsBalance(t.right);
    RebalanceAfterShrink(t, Successor(t));
  }

  /** Removal lowers a balanced tree by at most one and keeps it balanced. */
  lemma {:induction false} RemoveKeepsBalance<N, V>(t: Tree<N, V>, key: Key)
    requires Balanced(t)
    ensures Balanced(Remove(t, key)) && Shrank(t, Remove(t, key))
  {
    if t.Node? {
      if key < t.key {
        RemoveKeepsBalance(t.left, key);
        RebalanceAfterShrink(t, t.(left := Remove(t.left, key)));
      } else if key > t.key {
        RemoveKeepsBalance(t.right, key);
        RebalanceAfterShrink(t, t.(right := Remove(t.right, key)));
      } else if t.left.Node? && t.right.Node? {
        SuccessorBalanced(t);
      }
    }
  }

  // ---------- overwriting a value ----------

  /** The tree after the node of `key` got another value. */
  function SetValue<N, V>(t: Tree<N, V>, key: Key, value: V): Tree<N, V> {
    match t
    case Nil => Nil
    case Node(l, _, k, _, r) =>
      if key == k then t.(value := value)
      else if key < k then t.(left := SetValue(l, key, value))
      else t.(right := SetValue(r, key, value))
  }

  lemma {:induction false} SetValueUpdatesMap<N, V>(t: Tree<N, V>, key: Key, value: V)
    requires Ordered(t) && key in Entries(t)
    ensures Ordered(SetValue(t, key, value))
    ensures Entries(SetValue(t, key, value)) == Entries(t)[key := Entry(Entries(t)[key].id, value)]
  {
    var e := Entry(Entries(t)[key].id, value);
    var y := Entry(t.id, t.value);
    if key < t.key {
      SetValueUpdatesMap(t.left, key, value);
      MapUpdateLeft(Entries(t.left), Entries(t.right), t.key, y, key, e);
    } else if key > t.key {
      SetValueUpdatesMap(t.right, key, value);
      MapUpdateRight(Entries(t.left), Entries(t.right), t.key, y, key, e);
    }
  }

  lemma {:induction false} SetValueKeepsShape<N, V>(t: Tree<N, V>, key: Key, value: V)
    ensures SetValue(t, key, value).Nil? == t.Nil?
    ensures Ids(SetValue(t, key, value)) == Ids(t) && H(SetValue(t, key, value)) == H(t)
    ensures Distinct(t) ==> Distinct(SetValue(t, key, value))
    ensures Balanced(t) ==> Balanced(SetValue(t, key, value))
  {
    if t.Node? {
      if key < t.key {
        SetValueKeepsShape(t.left, key, value);
      } else if key > t.key {
        SetValueKeepsShape(t.right, key, value);
      }
    }
  }
}
