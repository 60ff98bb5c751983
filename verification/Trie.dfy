/** The trie on the heap: a node's `down` is an AVL tree from the next byte to the next
    trie node. The methods are tied to the operations of `TrieSpec`.
 */
module TrieHeap {
  import opened Options
  import opened A = AvlSpec
  import opened Avl
  import T = TrieSpec

  type Byte = T.Byte
  type Path = T.Path
  type Ptr = T.Ptr

  class TrieNode {
    var hasContent: bool
    var down: AvlNode?<TrieNode?>
    var value: Ptr

    constructor ()
      ensures !hasContent && down == null && value == 0
    {
      hasContent, down, value := false, null, 0;
    }
  }

  type Down = Shape<TrieNode?>

  /** The objects of a trie: the node itself, the tree of its children, the children. */
  datatype TrieShape = TrieShape(id: TrieNode, has: bool, val: Ptr, down: Down, kids: map<Byte, TrieShape>)

  /** The trie without its objects. */
  ghost function Abs(s: TrieShape): T.Trie
    decreases s
  {
    T.Trie(s.has, s.val, map k | k in s.kids :: Abs(s.kids[k]))
  }

  ghost function Foot(s: TrieShape): set<object>
    decreases s
  {
    Own(s) + Union(map k | k in s.kids :: Foot(s.kids[k]))
  }

  /** The node and the tree of its children. */
  ghost function Own(s: TrieShape): set<object> {
    {s.id} + Ids(s.down)
  }

  ghost function Union(f: map<Byte, set<object>>): set<object> {
    set k, o | k in f && o in f[k] :: o
  }

  /** The objects of each child. */
  ghost function Feet(s: TrieShape): map<Byte, set<object>> {
    map k | k in s.kids :: Foot(s.kids[k])
  }

  /** The sets are disjoint from one another and from `own`. */
  ghost predicate Separate(own: set<object>, f: map<Byte, set<object>>) {
    && (forall k :: k in f ==> own !! f[k])
    && (forall j, k :: j in f && k in f && j != k ==> f[j] !! f[k])
  }

  /** The tree of children and the children agree. */
  ghost predicate Linked(s: TrieShape) {
    && Good(s.down)
    && (forall k: int :: k in Entries(s.down) <==> k in s.kids)
    && (forall k :: k in s.kids ==> Entries(s.down)[k].value == s.kids[k].id)
  }

  ghost predicate Sound(s: TrieShape)
    decreases s
  {
    Linked(s) && Separate(Own(s), Feet(s)) && forall k :: k in s.kids ==> Sound(s.kids[k])
  }

  lemma KidFoot(s: TrieShape, k: Byte)
    requires k in s.kids
    ensures Foot(s.kids[k]) <= Foot(s)
  {
    assert Feet(s)[k] <= Union(Feet(s));
  }

  /** The heap holds the trie `s`. */
  ghost predicate IsTrie(s: TrieShape)
    reads Foot(s)
    decreases s
  {
    && s.id.hasContent == s.has && s.id.value == s.val && IsTree(s.id.down, s.down)
    && forall k :: k in s.kids ==> (KidFoot(s, k); IsTrie(s.kids[k]))
  }

  ghost predicate Valid(s: TrieShape)
    reads Foot(s)
  {
    Sound(s) && IsTrie(s)
  }

  /** The objects at the end of a path. */
  ghost function At(s: TrieShape, p: Path): Option<TrieShape>
    decreases |p|
  {
    if p == [] then Some(s)
    else if p[0] in s.kids then At(s.kids[p[0]], p[1..])
    else None
  }

  lemma {:induction false} AtIsSub(s: TrieShape, p: Path)
    ensures T.Sub(Abs(s), p) == if At(s, p).Some? then Some(Abs(At(s, p).value)) else None
    decreases |p|
  {
    if p != [] && p[0] in s.kids { AtIsSub(s.kids[p[0]], p[1..]); }
  }

  lemma {:induction false} AllAllocated(s: TrieShape)
    ensures forall o :: o in Foot(s) ==> allocated(o)
    decreases s
  {
    Allocated(s.down);
    forall k | k in s.kids ensures forall o :: o in Foot(s.kids[k]) ==> allocated(o) {
      AllAllocated(s.kids[k]);
    }
  }

  // ---------- search ----------

  /** The child entry for one byte. */
  method Child(n: TrieNode, k: Byte, ghost s: TrieShape) returns (t: AvlNode?<TrieNode?>)
    requires Valid(s) && n == s.id
    ensures if k in s.kids then t == Entries(s.down)[k].id && t.value == s.kids[k].id else t == null
    ensures t != null <==> k in s.kids
    ensures Valid(s) && (k in s.kids ==> Valid(s.kids[k]))
  {
    AllAllocated(s);
    assert IsTree(n.down, s.down);
    Allocated(s.down);
    ghost var visited;
    t, visited := Avl.Search(n.down, k, s.down);
  }

  lemma {:induction false} AtStep(u: TrieShape, p: Path, i: nat)
    requires i < |p|
    ensures At(u, p[i..]) == if p[i] in u.kids then At(u.kids[p[i]], p[i + 1..]) else None
  {
    assert p[i..][1..] == p[i + 1..];
  }

  lemma NoChildren(s: TrieShape)
    requires Valid(s)
    ensures s.id.down == null <==> s.kids == map[]
  {
    assert IsTree(s.id.down, s.down);
    if s.down.Node? {
      assert s.down.key in Entries(s.down);
    }
  }

  lemma {:induction false} SearchFinds(s: TrieShape, p: Path)
    ensures p in T.Contents(Abs(s)) <==> At(s, p).Some? && At(s, p).value.has
    ensures p in T.Contents(Abs(s)) ==> T.Contents(Abs(s))[p] == At(s, p).value.val
  {
    AtIsSub(s, p);
    T.ContentsAt(Abs(s), p);
  }

  /** Hands back the node at the end of the path, content or not, or null; the node has a
      content exactly for the stored keys.
   */
  method Search(base: TrieNode, keys: Path, ghost s: TrieShape) returns (r: TrieNode?)
    requires Valid(s) && base == s.id
    ensures r == if At(s, keys).Some? then At(s, keys).value.id else null
    ensures keys in T.Contents(Abs(s)) <==> r != null && r.hasContent
    ensures keys in T.Contents(Abs(s)) ==> T.Contents(Abs(s))[keys] == r.value
  {
    SearchFinds(s, keys);
    hide T.Contents, Abs;
    r := base;
    ghost var u := s;
    for i := 0 to |keys|
      invariant Valid(u) && r == u.id
      invariant At(s, keys) == At(u, keys[i..])
    {
      AtStep(u, keys, i);
      NoChildren(u);
      if r.down == null { return null; }
      var t := Child(r, keys[i], u);
      if t == null || t.value == null { return null; }
      r := t.value;
      u := u.kids[keys[i]];
    }
  }

  // ---------- insertion ----------

  lemma UnionUpdate(own: set<object>, f: map<Byte, set<object>>, k: Byte, x: set<object>)
    requires Separate(own, f)
    requires (x - if k in f then f[k] else {}) !! own + Union(f)
    ensures Separate(own, f[k := x])
    ensures Union(f[k := x]) == (Union(f) - if k in f then f[k] else {}) + x
  {
    assert forall j :: j in f ==> f[j] <= Union(f);
    var was := if k in f then f[k] else {};
    forall o ensures o in Union(f[k := x]) <==> o in Union(f) - was + x {
      if o in x { assert k in f[k := x] && o in f[k := x][k]; }
      if o in Union(f) && !(k in f && o in f[k]) {
        var j :| j in f && o in f[j];
        assert j in f[k := x] && o in f[k := x][j];
      }
    }
  }

  lemma UnionReplace(own: set<object>, f: map<Byte, set<object>>, k: Byte, x: set<object>)
    requires Separate(own, f) && k in f && (x - f[k]) !! own + Union(f)
    ensures Separate(own, f[k := x])
    ensures own + Union(f[k := x]) == (own + Union(f)) - f[k] + x
  {
    UnionUpdate(own, f, k, x);
  }

  lemma {:induction false} FootIs(s: TrieShape)
    ensures Foot(s) == Own(s) + Union(Feet(s))
  {
  }

  lemma {:induction false} FeetUpdate(s: TrieShape, k: Byte, c: TrieShape)
    ensures Feet(s.(kids := s.kids[k := c])) == Feet(s)[k := Foot(c)]
  {
  }

  lemma {:induction false} ReplaceKidFoot(s: TrieShape, k: Byte, c: TrieShape)
    requires Separate(Own(s), Feet(s)) && k in s.kids
    requires (Foot(c) - Foot(s.kids[k])) !! Foot(s)
    ensures var s' := s.(kids := s.kids[k := c]);
            Separate(Own(s'), Feet(s')) && Foot(s') == Foot(s) - Foot(s.kids[k]) + Foot(c)
  {
    var x := Foot(c);
    FootIs(s);
    FootIs(s.(kids := s.kids[k := c]));
    FeetUpdate(s, k, c);
    UnionReplace(Own(s), Feet(s), k, x);
  }

  lemma {:induction false} ReplaceKidLinked(s: TrieShape, k: Byte, c: TrieShape)
    requires Linked(s) && k in s.kids && c.id == s.kids[k].id
    ensures Linked(s.(kids := s.kids[k := c]))
  {
  }

  lemma {:induction false} SoundFrom(s: TrieShape)
    requires Linked(s) && Separate(Own(s), Feet(s)) && forall k :: k in s.kids ==> Sound(s.kids[k])
    ensures Sound(s)
  {
  }

  lemma {:induction false} ReplaceKidSound(s: TrieShape, s': TrieShape, k: Byte)
    requires k in s.kids && k in s'.kids && s' == s.(kids := s.kids[k := s'.kids[k]])
    requires Linked(s') && Separate(Own(s'), Feet(s')) && Sound(s'.kids[k])
    requires forall j :: j in s.kids ==> Sound(s.kids[j])
    ensures Sound(s')
  {
    forall j | j in s'.kids ensures Sound(s'.kids[j]) {
      if j != k { assert s'.kids[j] == s.kids[j]; }
    }
  }

  /** A child may be replaced by one at the same node that shares no object with the rest. */
  lemma {:induction false} ReplaceKid(s: TrieShape, k: Byte, c: TrieShape)
    requires Sound(s) && k in s.kids && Sound(c) && c.id == s.kids[k].id
    requires (Foot(c) - Foot(s.kids[k])) !! Foot(s)
    ensures Sound(s.(kids := s.kids[k := c]))
    ensures Foot(s.(kids := s.kids[k := c])) == Foot(s) - Foot(s.kids[k]) + Foot(c)
  {
    ReplaceKidFoot(s, k, c);
    ReplaceKidLinked(s, k, c);
    ReplaceKidSound(s, s.(kids := s.kids[k := c]), k);
  }

  /** The shape after a missing child was added: `down` is the new tree, `c` the new node. */
  ghost function AddKid(s: TrieShape, k: Byte, down: Down, c: TrieNode): TrieShape {
    s.(down := down, kids := s.kids[k := TrieShape(c, false, 0, Nil, map[])])
  }

  lemma UnionAdd(own: set<object>, f: map<Byte, set<object>>, k: Byte, n: object, c: object)
    requires Separate(own, f) && k !in f && n !in own + Union(f) && c !in own + Union(f) && n != c
    ensures Separate(own + {n}, f[k := {c}])
    ensures own + {n} + Union(f[k := {c}]) == own + Union(f) + {n, c}
  {
    assert forall j :: j in f ==> f[j] <= Union(f);
    UnionUpdate(own + {n}, f, k, {c});
  }

  lemma {:induction false} AddKidFoot(s: TrieShape, k: Byte, down: Down, c: TrieNode, n: AvlNode<TrieNode?>)
    requires Separate(Own(s), Feet(s)) && k !in s.kids
    requires Ids(down) == Ids(s.down) + {n} && n !in Foot(s) && c !in Foot(s) && c as object != n as object
    ensures var s' := AddKid(s, k, down, c);
            Separate(Own(s'), Feet(s')) && Foot(s') == Foot(s) + {n, c}
  {
    var s' := AddKid(s, k, down, c);
    FootIs(s);
    FootIs(s');
    FootIs(s'.kids[k]);
    FeetUpdate(s.(down := down), k, s'.kids[k]);
    UnionAdd(Own(s), Feet(s), k, n, c);
    assert Own(s') == Own(s) + {n};
    assert Own(s'.kids[k]) + Union(Feet(s'.kids[k])) == {c};
  }

  lemma {:induction false} AddKidLinked(s: TrieShape, k: Byte, down: Down, c: TrieNode, n: AvlNode<TrieNode?>)
    requires Linked(s) && k !in s.kids && Good(down) && Entries(down) == Entries(s.down)[k := Entry(n, c)]
    ensures Linked(AddKid(s, k, down, c))
  {
  }

  lemma {:induction false} AddKidSound(s: TrieShape, k: Byte, down: Down, c: TrieNode, n: AvlNode<TrieNode?>)
    requires Sound(s) && k !in s.kids && Good(down) && Entries(down) == Entries(s.down)[k := Entry(n, c)]
    requires Ids(down) == Ids(s.down) + {n} && n !in Foot(s) && c !in Foot(s) && c as object != n as object
    ensures Sound(AddKid(s, k, down, c)) && Foot(AddKid(s, k, down, c)) == Foot(s) + {n, c}
  {
    AddKidFoot(s, k, down, c, n);
    AddKidLinked(s, k, down, c, n);
    AddKidKids(s, AddKid(s, k, down, c), k);
  }

  lemma {:induction false} AddKidKids(s: TrieShape, s': TrieShape, k: Byte)
    requires k !in s.kids && k in s'.kids && s'.kids == s.kids[k := s'.kids[k]]
    requires s'.kids[k] == TrieShape(s'.kids[k].id, false, 0, Nil, map[])
    requires Linked(s') && Separate(Own(s'), Feet(s')) && forall j :: j in s.kids ==> Sound(s.kids[j])
    ensures Sound(s')
  {
    forall j | j in s'.kids ensures Sound(s'.kids[j]) {
      if j != k { assert s'.kids[j] == s.kids[j]; }
    }
  }

  /** Adds an entry for `k` with a new trie node to the tree of children. */
  method Grow(base: TrieNode, k: Byte, t: AvlNode?<TrieNode?>, ghost d: Down)
    returns (t': AvlNode<TrieNode?>, c: TrieNode, ghost d': Down)
    requires IsTree(base.down, d) && Good(d) && k !in Entries(d)
    modifies base`down, Ids(d)
    ensures IsTree(base.down, d') && Good(d') && Entries(d') == Entries(d)[k := Entry(t', c)]
    ensures t'.value == c && fresh(t') && Ids(d') == Ids(d) + {t'}
    ensures fresh(c) && !c.hasContent && c.down == null && c.value == 0
  {
    hide Ordered, Distinct, Balanced, IsTree, Entries, Ids, H, A.Insert, SetValue;
    Allocated(d);
    var root, stored := InsertAt(base.down, k, null, t, d);
    base.down := root;
    d' := A.Insert(d, k, null, stored);
    InsertUpdatesMap(d, k, null, stored);
    InsertKeepsGood(d, k, null, stored);
    t' := stored;
    Allocated(d');
    c := new TrieNode();
    WriteValue(t', c, root, d', k);
    d' := SetValue(d', k, c);
  }

  lemma {:induction false} KidApart(s: TrieShape, k: Byte)
    requires Separate(Own(s), Feet(s)) && k in s.kids
    ensures Own(s) !! Foot(s.kids[k]) && Foot(s.kids[k]) <= Foot(s)
  {
    assert Feet(s)[k] == Foot(s.kids[k]);
    KidFoot(s, k);
  }

  /** What validity says, one level deep. */
  lemma {:induction false} ValidParts(s: TrieShape)
    requires Valid(s)
    ensures Sound(s) && Linked(s) && Separate(Own(s), Feet(s)) && Own(s) <= Foot(s)
    ensures s.id.hasContent == s.has && s.id.value == s.val && IsTree(s.id.down, s.down)
    ensures forall k :: k in s.kids ==>
              IsTrie(s.kids[k]) && Sound(s.kids[k]) && Own(s) !! Foot(s.kids[k]) && Foot(s.kids[k]) <= Foot(s)
  {
    hide Foot, Separate, Good;
    FootIs(s);
    forall k | k in s.kids ensures Own(s) !! Foot(s.kids[k]) && Foot(s.kids[k]) <= Foot(s) {
      KidApart(s, k);
    }
  }

  lemma {:induction false} ValidFrom(s: TrieShape)
    requires Sound(s) && s.id.hasContent == s.has && s.id.value == s.val && IsTree(s.id.down, s.down)
    requires forall k :: k in s.kids ==> IsTrie(s.kids[k])
    ensures Valid(s)
  {
  }

  lemma {:induction false} NewNode(s: TrieShape)
    requires s == TrieShape(s.id, false, 0, Nil, map[])
    requires !s.id.hasContent && s.id.value == 0 && s.id.down == null
    ensures IsTrie(s)
  {
  }

  method AddChild(base: TrieNode, k: Byte, t: AvlNode?<TrieNode?>, ghost s: TrieShape)
    returns (t': AvlNode<TrieNode?>, ghost s': TrieShape)
    requires Valid(s) && base == s.id && k !in s.kids
    modifies Foot(s)
    ensures Valid(s') && s'.id == base && s'.has == s.has && s'.val == s.val
    ensures k in s'.kids && t'.value == s'.kids[k].id
    ensures s'.kids == s.kids[k := TrieShape(s'.kids[k].id, false, 0, Nil, map[])]
    ensures Foot(s) <= Foot(s') && fresh(Foot(s') - Foot(s))
  {
    hide Sound, IsTrie, Foot, Separate, Good;
    AllAllocated(s);
    ValidParts(s);
    var c;
    ghost var d;
    t', c, d := Grow(base, k, t, s.down);
    s' := AddKid(s, k, d, c);
    AddKidSound(s, k, d, c, t');
    NewNode(s'.kids[k]);
    forall j | j in s'.kids ensures IsTrie(s'.kids[j]) {
      if j != k {
        assert s'.kids[j] == s.kids[j] && Own(s) !! Foot(s.kids[j]);
      }
    }
    ValidFrom(s');
  }

  /** Makes sure there is a child for `k`. */
  method OpenChild(base: TrieNode, k: Byte, ghost s: TrieShape) returns (current: TrieNode, ghost s': TrieShape)
    requires Valid(s) && base == s.id
    modifies Foot(s)
    ensures Valid(s') && s'.id == base && s'.has == s.has && s'.val == s.val
    ensures k in s.kids ==> s' == s
    ensures k !in s.kids ==> s'.kids == s.kids[k := TrieShape(current, false, 0, Nil, map[])]
    ensures k in s'.kids && current == s'.kids[k].id
    ensures Foot(s) <= Foot(s') && fresh(Foot(s') - Foot(s))
  {
    hide Sound, IsTrie, Foot, Linked, Separate;
    s' := s;
    var t := Child(base, k, s);
    if t == null {
      t, s' := AddChild(base, k, t, s);
    } else {
      assert Foot(s') - Foot(s) == {};
    }
    current := t.value;
  }

  /** Existing nodes stay where they are. */
  ghost predicate KeepsNodes(s: TrieShape, s': TrieShape) {
    forall p :: At(s, p).Some? ==> At(s', p).Some? && At(s', p).value.id == At(s, p).value.id
  }

  lemma {:induction false} AbsReplace(s: TrieShape, k: Byte, c: TrieShape)
    ensures Abs(s.(kids := s.kids[k := c])) == Abs(s).(kids := Abs(s).kids[k := Abs(c)])
  {
  }

  lemma {:induction false} OtherKidsApart(s: TrieShape, k: Byte)
    requires Separate(Own(s), Feet(s)) && k in s.kids
    ensures forall j :: j in s.kids && j != k ==> Foot(s.kids[j]) !! Foot(s.kids[k])
  {
    assert Feet(s)[k] == Foot(s.kids[k]);
    assert forall j :: j in s.kids ==> Feet(s)[j] == Foot(s.kids[j]);
  }

  method SetContent(node: TrieNode, value: Ptr, ghost s: TrieShape) returns (ghost s': TrieShape)
    requires Valid(s) && node == s.id
    modifies node
    ensures s' == s.(has := true, val := value) && Valid(s') && Foot(s') == Foot(s)
  {
    hide Sound, Foot, Separate, Good;
    ValidParts(s);
    AllAllocated(s);
    node.hasContent := true;
    node.value := value;
    s' := s.(has := true, val := value);
    SameFrame(s, s');
    ValidFrom(s');
  }

  lemma {:induction false} SameFrame(s: TrieShape, s': TrieShape)
    requires s'.id == s.id && s'.down == s.down && s'.kids == s.kids
    ensures Foot(s') == Foot(s) && (Sound(s) ==> Sound(s')) && KeepsNodes(s, s')
  {
    assert Feet(s') == Feet(s);
    forall p | At(s, p).Some?
      ensures At(s', p).Some? && At(s', p).value.id == At(s, p).value.id
    {
    }
  }

  lemma {:induction false} AbsOpenInsert(s: TrieShape, s1: TrieShape, c': TrieShape, keys: Path, value: Ptr)
    requires keys != [] && keys[0] in s1.kids && s1.has == s.has && s1.val == s.val
    requires keys[0] in s.kids ==> s1 == s
    requires var k := keys[0];
             k !in s.kids ==> s1.kids == s.kids[k := TrieShape(s1.kids[k].id, false, 0, Nil, map[])]
    requires Abs(c') == T.Insert(Abs(s1.kids[keys[0]]), keys[1..], value)
    ensures Abs(s1.(kids := s1.kids[keys[0] := c'])) == T.Insert(Abs(s), keys, value)
  {
    var k := keys[0];
    AbsReplace(s1, k, c');
    if k !in s.kids {
      assert Abs(s1.kids[k]) == T.EMPTY;
      AbsReplace(s, k, s1.kids[k]);
      assert Abs(s1).kids == Abs(s).kids[k := T.EMPTY];
    }
  }

  lemma {:induction false} OpenInsertKeepsNodes(s: TrieShape, s1: TrieShape, c': TrieShape, k: Byte)
    requires k in s1.kids && s1.id == s.id && KeepsNodes(s1.kids[k], c')
    requires if k in s.kids then s1 == s else s1.kids == s.kids[k := s1.kids[k]]
    ensures KeepsNodes(s, s1.(kids := s1.kids[k := c']))
  {
    var s' := s1.(kids := s1.kids[k := c']);
    forall p | At(s, p).Some?
      ensures At(s', p).Some? && At(s', p).value.id == At(s, p).value.id
    {
      if p != [] && p[0] == k {
        assert At(s.kids[k], p[1..]).Some?;
      }
    }
  }

  /** Creates the path below `base` and stores the value at its end. */
  method InsertR(base: TrieNode, value: Ptr, keys: Path, ghost s: TrieShape) returns (r: TrieNode, ghost s': TrieShape)
    requires Valid(s) && base == s.id && keys != []
    modifies Foot(s)
    ensures Valid(s') && s'.id == base && Abs(s') == T.Insert(Abs(s), keys, value)
    ensures Foot(s) <= Foot(s') && fresh(Foot(s') - Foot(s)) && KeepsNodes(s, s')
    ensures At(s', keys).Some? && At(s', keys).value.id == r
    decreases |keys|
  {
    hide Sound, IsTree, IsTrie, Foot, Separate, Linked, Good, Ids, Abs, KeepsNodes;
    var current;
    ghost var s1;
    current, s1 := OpenChild(base, keys[0], s);
    ghost var c := s1.kids[keys[0]];
    ValidParts(s1);
    ValidParts(c);
    SeparateParts(s1, keys[0]);
    AllAllocated(s1);
    assert base !in Foot(c) && Ids(s1.down) !! Foot(c);
    ghost var c';
    if |keys| == 1 {
      c' := SetContent(current, value, c);
      SameFrame(c, c');
      AbsContent(c, value);
      r := current;
    } else {
      r, c' := InsertR(current, value, keys[1..], c);
    }
    assert fresh(Foot(c') - Foot(c));
    s' := s1.(kids := s1.kids[keys[0] := c']);
    ReplaceKid(s1, keys[0], c');
    ValidFrom(s');
    AbsOpenInsert(s, s1, c', keys, value);
    OpenInsertKeepsNodes(s, s1, c', keys[0]);
  }

  lemma {:induction false} SeparateParts(s: TrieShape, k: Byte)
    requires Sound(s) && k in s.kids
    ensures forall j :: j in s.kids && j != k ==> Foot(s.kids[j]) !! Foot(s.kids[k])
  {
    OtherKidsApart(s, k);
  }

  lemma {:induction false} AbsContent(s: TrieShape, value: Ptr)
    ensures Abs(s.(has := true, val := value)) == Abs(s).(has := true, val := value)
  {
  }

  /** Stores a value at the end of a path, which may be empty. */
  method Insert(base: TrieNode, value: Ptr, keys: Path, ghost s: TrieShape) returns (r: TrieNode, ghost s': TrieShape)
    requires Valid(s) && base == s.id
    modifies Foot(s)
    ensures Valid(s') && s'.id == base && Abs(s') == T.Insert(Abs(s), keys, value)
    ensures T.Contents(Abs(s')) == T.Contents(Abs(s))[keys := value]
    ensures T.Pruned(Abs(s)) ==> T.Pruned(Abs(s'))
    ensures Foot(s) <= Foot(s') && fresh(Foot(s') - Foot(s)) && KeepsNodes(s, s')
    ensures At(s', keys).Some? && At(s', keys).value.id == r
  {
    hide Sound, IsTree, IsTrie, Foot, Separate, Linked, Abs, KeepsNodes, T.Contents, T.Pruned;
    T.InsertUpdates(Abs(s), keys, value);
    if T.Pruned(Abs(s)) { T.InsertKeepsPruned(Abs(s), keys, value); }
    if |keys| > 0 {
      r, s' := InsertR(base, value, keys, s);
    } else {
      ValidParts(s);
      s' := SetContent(base, value, s);
      SameFrame(s, s');
      AbsContent(s, value);
      r := base;
    }
  }

  // ---------- removal ----------

  /** The shape after the child `k` was unlinked. */
  ghost function DropKid(s: TrieShape, k: Byte): TrieShape {
    s.(down := A.Remove(s.down, k), kids := s.kids - {k})
  }

  lemma UnionDrop(own: set<object>, f: map<Byte, set<object>>, k: Byte, n: object)
    requires Separate(own, f) && k in f && n in own
    ensures Separate(own - {n}, f - {k})
    ensures own - {n} + Union(f - {k}) == own + Union(f) - f[k] - {n}
  {
    forall o ensures o in Union(f - {k}) <==> o in Union(f) - f[k] {
      if o in Union(f) - f[k] {
        var j :| j in f && o in f[j];
        assert j in f - {k} && o in (f - {k})[j];
      }
    }
  }

  lemma {:induction false} DropKidFoot(s: TrieShape, k: Byte)
    requires Separate(Own(s), Feet(s)) && Linked(s) && k in s.kids
    ensures var n := Entries(s.down)[k].id;
            Separate(Own(DropKid(s, k)), Feet(DropKid(s, k)))
            && Foot(DropKid(s, k)) == Foot(s) - Foot(s.kids[k]) - {n} && n in Own(s)
  {
    var n := Entries(s.down)[k].id;
    RemoveKeepsIds(s.down, k);
    assert Own(DropKid(s, k)) == Own(s) - {n};
    DropFeet(s, k);
    FootIs(s);
    FootIs(DropKid(s, k));
    UnionDrop(Own(s), Feet(s), k, n);
  }

  lemma {:induction false} DropFeet(s: TrieShape, k: Byte)
    requires k in s.kids
    ensures Feet(DropKid(s, k)) == Feet(s) - {k} && Feet(s)[k] == Foot(s.kids[k])
  {
  }

  lemma {:induction false} DropKidLinked(s: TrieShape, k: Byte)
    requires Linked(s) && k in s.kids
    ensures Linked(DropKid(s, k))
  {
    RemoveUpdatesMap(s.down, k);
    RemoveKeepsGood(s.down, k);
  }

  lemma {:induction false} DropKidSound(s: TrieShape, k: Byte)
    requires Sound(s) && k in s.kids
    ensures Sound(DropKid(s, k))
  {
    DropKidLinked(s, k);
    DropKidFoot(s, k);
    forall j | j in DropKid(s, k).kids ensures Sound(DropKid(s, k).kids[j]) {
      assert DropKid(s, k).kids[j] == s.kids[j];
    }
    SoundFrom(DropKid(s, k));
  }

  lemma {:induction false} EmptyTree(t: Down)
    ensures t.Nil? <==> forall k :: k !in Entries(t)
  {
    if t.Node? { assert t.key in Entries(t); }
  }

  /** A node without children owns nothing else. */
  lemma {:induction false} ChildlessFoot(s: TrieShape)
    requires Linked(s) && s.kids == map[]
    ensures s.down.Nil? && Foot(s) == {s.id}
  {
    EmptyTree(s.down);
    FootIs(s);
    assert Union(Feet(s)) == {};
  }

  lemma {:induction false} AbsDrop(s: TrieShape, k: Byte)
    ensures Abs(DropKid(s, k)) == Abs(s).(kids := Abs(s).kids - {k})
  {
  }

  lemma {:induction false} DropKeepsNodes(s: TrieShape, k: Byte)
    requires k in s.kids
    ensures KeepsNodes(DropKid(s, k), s)
  {
    forall p | At(DropKid(s, k), p).Some?
      ensures At(s, p).Some? && At(s, p).value.id == At(DropKid(s, k), p).value.id
    {
    }
  }

  /** Unlinks the childless child `k` and frees its tree entry and its node. */
  method DropChild(base: TrieNode, k: Byte, ghost s: TrieShape) returns (ghost s': TrieShape, ghost freed: set<object>)
    requires Valid(s) && base == s.id && k in s.kids && s.kids[k].kids == map[]
    modifies Foot(s)
    ensures s' == DropKid(s, k) && Valid(s')
    ensures freed <= Foot(s) && Foot(s') == Foot(s) - freed
  {
    hide Sound, IsTree, IsTrie, Foot, Separate, Ids, Good, Entries;
    ValidParts(s);
    ValidParts(s.kids[k]);
    AllAllocated(s);
    DropKidFoot(s, k);
    DropKidSound(s, k);
    ChildlessFoot(s.kids[k]);
    var root;
    ghost var nodes;
    root, nodes := RemoveAt(base.down, k, s.down);
    base.down := root;
    s' := DropKid(s, k);
    freed := {Entries(s.down)[k].id, s.kids[k].id};
    forall j | j in s'.kids ensures IsTrie(s'.kids[j]) {
      assert s'.kids[j] == s.kids[j] && Own(s) !! Foot(s.kids[j]);
    }
    ValidFrom(s');
  }

  method ClearContent(node: TrieNode, ghost s: TrieShape) returns (ghost s': TrieShape)
    requires Valid(s) && node == s.id
    modifies node
    ensures s' == s.(has := false) && Valid(s') && Foot(s') == Foot(s)
  {
    hide Sound, Foot, Separate, Good;
    ValidParts(s);
    AllAllocated(s);
    node.hasContent := false;
    s' := s.(has := false);
    SameFrame(s, s');
    ValidFrom(s');
  }

  lemma {:induction false} ClearKeepsNodes(s: TrieShape)
    ensures KeepsNodes(s.(has := false), s) && Abs(s.(has := false)) == Abs(s).(has := false)
  {
    SameFrame(s.(has := false), s);
  }

  lemma {:induction false} ReplaceKidKeepsBack(s: TrieShape, k: Byte, c: TrieShape)
    requires k in s.kids && KeepsNodes(c, s.kids[k])
    ensures KeepsNodes(s.(kids := s.kids[k := c]), s)
  {
    var s' := s.(kids := s.kids[k := c]);
    forall p | At(s', p).Some?
      ensures At(s, p).Some? && At(s, p).value.id == At(s', p).value.id
    {
      if p != [] && p[0] == k {
        assert At(c, p[1..]).Some?;
      }
    }
  }

  /** Installs the changed child shape `c'` at `k`. */
  lemma {:induction false} PutBack(s: TrieShape, k: Byte, c': TrieShape, freed: set<object>)
    requires Sound(s) && k in s.kids && Sound(c') && c'.id == s.kids[k].id
    requires freed <= Foot(s.kids[k]) && Foot(c') == Foot(s.kids[k]) - freed && KeepsNodes(c', s.kids[k])
    requires IsTree(s.id.down, s.down) && s.id.hasContent == s.has && s.id.value == s.val && IsTrie(c')
    requires forall j :: j in s.kids && j != k ==> IsTrie(s.kids[j])
    ensures var s' := s.(kids := s.kids[k := c']);
            Valid(s') && freed <= Foot(s) && Foot(s') == Foot(s) - freed && KeepsNodes(s', s)
            && Abs(s') == Abs(s).(kids := Abs(s).kids[k := Abs(c')])
  {
    hide Sound, IsTree, IsTrie, Foot, Separate, Linked, Abs, KeepsNodes;
    ReplaceKid(s, k, c');
    KidFoot(s, k);
    ValidFrom(s.(kids := s.kids[k := c']));
    ReplaceKidKeepsBack(s, k, c');
    AbsReplace(s, k, c');
  }

  lemma {:induction false} NothingToRemove(s: TrieShape)
    ensures KeepsNodes(s, s) && Foot(s) == Foot(s) - {}
  {
  }

  lemma {:induction false} KeepsNodesOnward(a: TrieShape, b: TrieShape, c: TrieShape)
    requires KeepsNodes(a, b) && KeepsNodes(b, c)
    ensures KeepsNodes(a, c)
  {
  }

  lemma {:induction false} RemoveSteps(s: TrieShape, keys: Path)
    requires keys != []
    ensures keys[0] !in s.kids ==> T.Remove(Abs(s), keys) == Abs(s)
    ensures keys[0] in s.kids && s.kids[keys[0]].kids == map[] && |keys| > 1 ==> T.Remove(Abs(s), keys) == Abs(s)
    ensures keys[0] in s.kids ==>
              && keys[0] in Abs(s).kids && Abs(s).kids[keys[0]] == Abs(s.kids[keys[0]])
              && (s.kids[keys[0]].kids == map[] <==> Abs(s.kids[keys[0]]).kids == map[])
  {
    if keys[0] in s.kids {
      var c := s.kids[keys[0]];
      assert Abs(c).kids.Keys == c.kids.Keys;
    }
  }

  lemma {:induction false} RemoveBelow(s: TrieShape, keys: Path, c': TrieShape)
    requires |keys| > 1 && keys[0] in s.kids && s.kids[keys[0]].kids != map[]
    requires Abs(c') == T.Remove(Abs(s.kids[keys[0]]), keys[1..])
    ensures var rest := Abs(s).kids;
            T.Remove(Abs(s), keys) == Abs(s).(kids :=
              if !c'.has && c'.kids == map[] then rest - {keys[0]} else rest[keys[0] := Abs(c')])
  {
    RemoveSteps(s, keys);
    assert Abs(c').kids.Keys == c'.kids.Keys;
  }

  /** Removes the key and, on the way back, the nodes left without content and children. */
  method RemoveR(base: TrieNode, keys: Path, ghost s: TrieShape) returns (ghost s': TrieShape, ghost freed: set<object>)
    requires Valid(s) && base == s.id && keys != []
    modifies Foot(s)
    ensures Valid(s') && s'.id == base && Abs(s') == T.Remove(Abs(s), keys)
    ensures freed <= Foot(s) && Foot(s') == Foot(s) - freed && KeepsNodes(s', s)
    decreases |keys|
  {
    hide Sound, IsTree, IsTrie, Foot, Separate, Linked, Good, Ids, Abs, KeepsNodes, Entries;
    var k := keys[0];
    s', freed := s, {};
    NothingToRemove(s);
    RemoveSteps(s, keys);
    var t := Child(base, k, s);
    if t == null { return; }
    var current := t.value;
    ghost var c := s.kids[k];
    ValidParts(s);
    ValidParts(c);
    SeparateParts(s, k);
    AllAllocated(s);
    NoChildren(c);
    AbsDrop(s, k);
    DropKeepsNodes(s, k);
    if |keys| == 1 {
      if current.down == null {
        s', freed := DropChild(base, k, s);
      } else {
        ghost var c' := ClearContent(current, c);
        ClearKeepsNodes(c);
        PutBack(s, k, c', {});
        s' := s.(kids := s.kids[k := c']);
      }
    } else if current.down != null {
      ghost var c', gone;
      c', gone := RemoveR(current, keys[1..], c);
      PutBack(s, k, c', gone);
      s' := s.(kids := s.kids[k := c']);
      freed := gone;
      ValidParts(c');
      NoChildren(c');
      RemoveBelow(s, keys, c');
      if !current.hasContent && current.down == null {
        ghost var s1 := s';
        AbsDrop(s1, k);
        DropKeepsNodes(s1, k);
        s', gone := DropChild(base, k, s1);
        KeepsNodesOnward(s', s1, s);
        assert Abs(s).kids[k := Abs(c')] - {k} == Abs(s).kids - {k};
        freed := freed + gone;
      }
    }
  }

  /** Removes a key, which may be empty; the root itself is never freed. */
  method Remove(base: TrieNode, keys: Path, ghost s: TrieShape) returns (ghost s': TrieShape, ghost freed: set<object>)
    requires Valid(s) && base == s.id
    modifies Foot(s)
    ensures Valid(s') && s'.id == base && Abs(s') == T.Remove(Abs(s), keys)
    ensures T.Contents(Abs(s')) == T.Contents(Abs(s)) - {keys}
    ensures T.Pruned(Abs(s)) ==> T.Pruned(Abs(s'))
    ensures freed <= Foot(s) && Foot(s') == Foot(s) - freed && KeepsNodes(s', s)
  {
    hide Sound, IsTree, IsTrie, Foot, Separate, Linked, Abs, KeepsNodes, T.Contents, T.Pruned;
    if |keys| > 0 {
      s', freed := RemoveR(base, keys, s);
    } else {
      ValidParts(s);
      ClearKeepsNodes(s);
      s' := ClearContent(base, s);
      freed := {};
    }
    T.RemoveDeletes(Abs(s), keys);
    if T.Pruned(Abs(s)) { T.RemoveKeepsPruned(Abs(s), keys); }
  }

  // ---------- longest existing prefix ----------

  /** The objects `SearchPrev` ends at, when it hands a node back. */
  ghost function PrevAt(s: TrieShape, p: Path): Option<TrieShape>
    decreases |p|
  {
    if p == [] then Some(s)
    else if s.kids == map[] then None
    else if p[0] !in s.kids then Some(s)
    else PrevAt(s.kids[p[0]], p[1..])
  }

  lemma {:induction false} PrevAtIsSearchPrev(s: TrieShape, p: Path)
    ensures T.SearchPrev(Abs(s), p) == if PrevAt(s, p).Some? then Some(Abs(PrevAt(s, p).value)) else None
    decreases |p|
  {
    assert Abs(s).kids.Keys == s.kids.Keys;
    if p != [] && p[0] in s.kids { PrevAtIsSearchPrev(s.kids[p[0]], p[1..]); }
  }

  lemma {:induction false} PrevAtStep(u: TrieShape, p: Path, i: nat)
    requires i < |p|
    ensures PrevAt(u, p[i..]) ==
            if u.kids == map[] then None else if p[i] in u.kids then PrevAt(u.kids[p[i]], p[i + 1..]) else Some(u)
  {
    assert p[i..][1..] == p[i + 1..];
  }

  /** Hands back the node of the longest existing prefix, with the exception of `T.SearchPrev`. */
  method SearchPrev(base: TrieNode, keys: Path, ghost s: TrieShape) returns (r: TrieNode?)
    requires Valid(s) && base == s.id
    ensures r == if PrevAt(s, keys).Some? then PrevAt(s, keys).value.id else null
  {
    r := base;
    ghost var u := s;
    for i := 0 to |keys|
      invariant Valid(u) && r == u.id
      invariant PrevAt(s, keys) == PrevAt(u, keys[i..])
    {
      PrevAtStep(u, keys, i);
      NoChildren(u);
      if r.down == null { return null; }
      var t := Child(r, keys[i], u);
      if t == null || t.value == null { return r; }
      r := t.value;
      u := u.kids[keys[i]];
    }
  }
}
