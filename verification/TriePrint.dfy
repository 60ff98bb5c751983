/** The recursive listing of a trie through one shared key buffer, indexed by an 8-bit
    position. Lines are collected in order instead of being printed.
 */
module TriePrint {
  import opened Options
  import opened A = AvlSpec
  import opened Avl
  import opened TrieHeap
  import T = TrieSpec

  // ---------- the listing as a function of the trie ----------

  /** What is listed for the part `d` of the children tree of `s`, which sits at `prefix`. */
  ghost function ListTree(s: TrieShape, d: Down, prefix: Path): seq<Path>
    decreases s, d
  {
    match d
    case Nil => []
    case Node(l, _, k, _, r) =>
      ListTree(s, l, prefix) + (if k in s.kids then ListNode(s.kids[k], prefix + [k]) else []) + ListTree(s, r, prefix)
  }

  /** The node's own line, then everything below it. */
  ghost function ListNode(s: TrieShape, prefix: Path): seq<Path>
    decreases s
  {
    (if s.has then [prefix] else []) + ListTree(s, s.down, prefix)
  }

  /** Strict lexicographic order, a prefix before its extensions. */
  predicate Less(p: Path, q: Path)
    decreases |p|
  {
    q != [] && (p == [] || p[0] < q[0] || (p[0] == q[0] && Less(p[1..], q[1..])))
  }

  ghost predicate Sorted(a: seq<Path>) {
    forall i, j :: 0 <= i < j < |a| ==> Less(a[i], a[j])
  }

  /** All paths from a node are at most `n` long. */
  ghost predicate Within(s: TrieShape, n: nat)
    decreases s
  {
    forall k :: k in s.kids ==> n > 0 && Within(s.kids[k], n - 1)
  }

  // ---------- what is listed, and in what order ----------

  lemma {:induction false} LessThanExtension(p: Path, q: Path)
    requires p <= q && |p| < |q|
    ensures Less(p, q)
    decreases |p|
  {
    if p != [] { LessThanExtension(p[1..], q[1..]); }
  }

  lemma {:induction false} LessAtBranch(prefix: Path, p: Path, q: Path)
    requires prefix <= p && prefix <= q && |prefix| < |p| && |prefix| < |q| && p[|prefix|] < q[|prefix|]
    ensures Less(p, q)
    decreases |prefix|
  {
    if prefix != [] { LessAtBranch(prefix[1..], p[1..], q[1..]); }
  }

  /** Every line of a subtree starts with the prefix and continues with a key of the subtree. */
  ghost predicate Starts(d: Down, prefix: Path, q: Path) {
    prefix <= q && |prefix| < |q| && q[|prefix|] in Entries(d)
  }

  lemma {:induction false} TreeLines(s: TrieShape, d: Down, prefix: Path)
    requires Sound(s) && Ordered(d)
    ensures forall q :: q in ListTree(s, d, prefix) ==> Starts(d, prefix, q)
    ensures Sorted(ListTree(s, d, prefix))
    decreases s, d
  {
    if d.Node? {
      var a, c := ListTree(s, d.left, prefix), ListTree(s, d.right, prefix);
      var b := if d.key in s.kids then ListNode(s.kids[d.key], prefix + [d.key]) else [];
      TreeLines(s, d.left, prefix);
      TreeLines(s, d.right, prefix);
      if d.key in s.kids { NodeLines(s.kids[d.key], prefix + [d.key]); }
      LinesInOrder(d, prefix, a, b, c);
    }
  }

  lemma {:induction false} NodeLines(s: TrieShape, prefix: Path)
    requires Sound(s)
    ensures forall q :: q in ListNode(s, prefix) ==> prefix <= q
    ensures Sorted(ListNode(s, prefix))
    decreases s
  {
    TreeLines(s, s.down, prefix);
    forall q | q in ListTree(s, s.down, prefix) ensures Less(prefix, q) {
      LessThanExtension(prefix, q);
    }
  }

  lemma LinesInOrder(d: Down, prefix: Path, a: seq<Path>, b: seq<Path>, c: seq<Path>)
    requires d.Node? && Ordered(d) && Sorted(a) && Sorted(b) && Sorted(c)
    requires forall q :: q in a ==> Starts(d.left, prefix, q)
    requires forall q :: q in b ==> prefix + [d.key] <= q
    requires forall q :: q in c ==> Starts(d.right, prefix, q)
    ensures Sorted(a + b + c)
    ensures forall q :: q in a + b + c ==> Starts(d, prefix, q)
  {
    forall q | q in b ensures prefix <= q && |prefix| < |q| && q[|prefix|] == d.key {
      assert q[|prefix|] == (prefix + [d.key])[|prefix|];
    }
    var n := |a| + |b|;
    forall i, j | 0 <= i < j < |a + b + c| ensures Less((a + b + c)[i], (a + b + c)[j]) {
      var p, q := (a + b + c)[i], (a + b + c)[j];
      if i < |a| <= j || i < n <= j {
        assert i < |a| ==> p in a;
        assert |a| <= i < n ==> p in b;
        assert |a| <= j < n ==> q in b;
        assert n <= j ==> q in c;
        LessAtBranch(prefix, p, q);
      } else {
        assert j < |a| ==> Less(a[i], a[j]);
        assert |a| <= i && j < n ==> Less(b[i - |a|], b[j - |a|]);
        assert n <= i ==> Less(c[i - n], c[j - n]);
      }
    }
  }

  ghost predicate StoredAt(s: TrieShape, p: Path) {
    At(s, p).Some? && At(s, p).value.has
  }

  /** The lines of a subtree are the stored keys that continue with one of its keys. */
  lemma {:induction false} TreeMembers(s: TrieShape, d: Down, prefix: Path, q: Path)
    requires Sound(s) && Ordered(d) && forall k :: k in Entries(d) ==> k in s.kids
    ensures q in ListTree(s, d, prefix) <==>
            Starts(d, prefix, q) && StoredAt(s.kids[q[|prefix|]], q[|prefix| + 1..])
    decreases s, d
  {
    hide Sound, At, StoredAt, ListNode;
    if d.Node? {
      SoundKids(s);
      NodeMembers(s.kids[d.key], prefix + [d.key], q);
      TreeMembers(s, d.left, prefix, q);
      TreeMembers(s, d.right, prefix, q);
      assert prefix + [d.key] <= q <==> prefix <= q && |prefix| < |q| && q[|prefix|] == d.key;
    }
  }

  lemma {:induction false} SoundKids(s: TrieShape)
    requires Sound(s)
    ensures Linked(s) && forall k :: k in s.kids ==> Sound(s.kids[k])
  {
  }

  lemma {:induction false} NodeMembers(s: TrieShape, prefix: Path, q: Path)
    requires Sound(s)
    ensures q in ListNode(s, prefix) <==> prefix <= q && StoredAt(s, q[|prefix|..])
    decreases s
  {
    SoundKids(s);
    hide Sound;
    TreeMembers(s, s.down, prefix, q);
    if prefix <= q {
      var p := q[|prefix|..];
      assert p == [] <==> q == prefix;
      if p != [] {
        assert p[0] == q[|prefix|] && p[1..] == q[|prefix| + 1..];
        assert p[0] in Entries(s.down) <==> p[0] in s.kids;
      }
    }
  }

  /** The whole listing. */
  ghost function Listing(s: TrieShape): seq<Path> {
    ListTree(s, s.down, [])
  }

  lemma {:induction false} LessIsStrict(p: Path)
    ensures !Less(p, p)
    decreases |p|
  {
    if p != [] { LessIsStrict(p[1..]); }
  }

  lemma {:induction false} ListingMember(s: TrieShape, q: Path)
    requires Sound(s)
    ensures q in Listing(s) <==> q != [] && q in T.Contents(Abs(s))
  {
    hide Sound, Abs, T.Contents, ListTree, Ordered, Distinct, Balanced, Entries;
    SoundKids(s);
    SearchFinds(s, q);
    TreeMembers(s, s.down, [], q);
    if q != [] {
      assert q[0] in Entries(s.down) <==> q[0] in s.kids;
    }
  }

  /** The listing holds every stored non-empty key, once, in strict lexicographic order. */
  lemma {:induction false} ListingIsOrderedKeys(s: TrieShape)
    requires Sound(s)
    ensures Sorted(Listing(s))
    ensures forall q :: q in Listing(s) <==> q != [] && q in T.Contents(Abs(s))
    ensures forall i, j :: 0 <= i < j < |Listing(s)| ==> Listing(s)[i] != Listing(s)[j]
  {
    SoundKids(s);
    hide Sound, Abs, T.Contents, ListTree;
    TreeLines(s, s.down, []);
    forall q ensures q in Listing(s) <==> q != [] && q in T.Contents(Abs(s)) {
      ListingMember(s, q);
    }
    forall i, j | 0 <= i < j < |Listing(s)| ensures Listing(s)[i] != Listing(s)[j] {
      LessIsStrict(Listing(s)[i]);
    }
  }

  // ---------- the recursion over the buffer ----------

  /** Collects the line `keys[0..pos]`. */
  method PrintKeys(keys: array<Byte>, pos: Uchar) returns (line: Path)
    requires pos < keys.Length
    ensures line == keys[..pos + 1]
  {
    line := [];
    for i := 0 to pos + 1
      invariant line == keys[..i]
    {
      line := line + [keys[i]];
    }
  }

  /** There is room in the buffer for every position the recursion uses. */
  ghost predicate Room(s: TrieShape, depth: nat, length: nat) {
    length >= 256 || (depth <= length && Within(s, length - depth))
  }

  /** The 8-bit position never wraps below `s`. */
  ghost predicate NoWrap(s: TrieShape, depth: nat) {
    depth <= 256 && Within(s, 256 - depth)
  }

  lemma {:induction false} Deeper(s: TrieShape, k: Byte, depth: nat, length: nat)
    requires k in s.kids
    ensures Room(s, depth, length) ==> Room(s.kids[k], depth + 1, length) && depth % 256 < length
    ensures NoWrap(s, depth) ==> depth < 256 && NoWrap(s.kids[k], depth + 1)
  {
  }

  /** `d` is a part of the children tree of `s`. */
  ghost predicate PartOf(s: TrieShape, d: Down) {
    && Ordered(d) && Ids(d) <= Ids(s.down)
    && forall k :: k in Entries(d) ==> k in s.kids && Entries(d)[k].value == s.kids[k].id
  }

  lemma {:induction false} Parts(s: TrieShape, d: Down)
    requires PartOf(s, d) && d.Node?
    ensures PartOf(s, d.left) && PartOf(s, d.right)
    ensures d.key in s.kids && d.value == s.kids[d.key].id && d.id in Ids(s.down)
  {
    assert d.key in Entries(d);
    forall k | k in Entries(d.left) ensures k in Entries(d) && Entries(d)[k] == Entries(d.left)[k] {
      EntriesBySide(d, k);
    }
    forall k | k in Entries(d.right) ensures k in Entries(d) && Entries(d)[k] == Entries(d.right)[k] {
      EntriesBySide(d, k);
    }
  }

  lemma {:induction false} WholeIsPart(s: TrieShape)
    requires Linked(s)
    ensures PartOf(s, s.down)
  {
  }

  lemma {:induction false} NodeFacts(s: TrieShape, path: Path)
    requires Valid(s)
    ensures s.id.hasContent == s.has && IsTree(s.id.down, s.down) && PartOf(s, s.down)
    ensures ListNode(s, path) == (if s.has then [path] else []) + ListTree(s, s.down, path)
    ensures s.id.down == null ==> ListTree(s, s.down, path) == []
  {
    hide Valid, Sound, IsTrie, Foot, Separate, Linked, PartOf, Ids, Entries;
    ValidParts(s);
    WholeIsPart(s);
  }

  lemma {:induction false} RecFacts(base: AvlNode?<TrieNode?>, s: TrieShape, d: Down, prefix: Path)
    requires Valid(s) && IsTree(base, d) && PartOf(s, d)
    ensures d.Nil? ==> base == null && ListTree(s, d, prefix) == []
    ensures d.Node? ==>
              && base != null && base.key == d.key && IsTree(base.left, d.left) && IsTree(base.right, d.right)
              && PartOf(s, d.left) && PartOf(s, d.right)
              && d.key in s.kids && base.value == s.kids[d.key].id
              && ListTree(s, d, prefix) == ListTree(s, d.left, prefix)
                   + ListNode(s.kids[d.key], prefix + [d.key]) + ListTree(s, d.right, prefix)
  {
    if d.Node? { Parts(s, d); }
  }

  lemma {:induction false} KidFacts(s: TrieShape, k: Byte)
    requires Valid(s) && k in s.kids
    ensures Valid(s.kids[k]) && Foot(s.kids[k]) <= Foot(s)
  {
    ValidParts(s);
  }

  /** What the recursion may assume about the buffer and the position; `fits` tells that the
      position is known never to wrap.
   */
  ghost predicate Ready(keys: array<Byte>, pos: Uchar, s: TrieShape, prefix: Path, fits: bool)
    reads keys
  {
    && pos == |prefix| % 256 && Room(s, |prefix|, keys.Length)
    && (fits ==> NoWrap(s, |prefix|) && |prefix| <= keys.Length && keys[..|prefix|] == prefix)
  }

  /** The buffer holds the path of a node, up to and including `pos`. */
  ghost predicate Written(keys: array<Byte>, pos: Uchar, s: TrieShape, path: Path, fits: bool)
    reads keys
  {
    && |path| > 0 && pos == (|path| - 1) % 256 && pos < keys.Length && Room(s, |path|, keys.Length)
    && (fits ==> NoWrap(s, |path|) && |path| <= keys.Length && keys[..|path|] == path)
  }

  lemma WrittenLine(keys: array<Byte>, pos: Uchar, s: TrieShape, path: Path, fits: bool)
    requires Written(keys, pos, s, path, fits)
    ensures pos < keys.Length && (fits ==> keys[..pos + 1] == path)
    ensures Ready(keys, (pos + 1) % 256, s, path, fits)
  {
  }

  lemma ReadyWritten(keys: array<Byte>, pos: Uchar, s: TrieShape, path: Path, fits: bool)
    requires |path| > 0 && pos == (|path| - 1) % 256 && pos < keys.Length
    requires Ready(keys, (pos + 1) % 256, s, path, fits)
    ensures Written(keys, pos, s, path, fits)
  {
  }

  lemma ReadyToWrite(keys: array<Byte>, pos: Uchar, s: TrieShape, prefix: Path, k: Byte, fits: bool)
    requires Ready(keys, pos, s, prefix, fits) && k in s.kids
    ensures pos == |prefix| % 256 < keys.Length && Room(s, |prefix|, keys.Length)
    ensures fits ==> NoWrap(s, |prefix|) && pos == |prefix| && keys[..pos] == prefix
  {
    Deeper(s, k, |prefix|, keys.Length);
  }

  /** Once the key byte is written at the position, the buffer holds the child's path. */
  lemma NowWritten(keys: array<Byte>, pos: Uchar, s: TrieShape, prefix: Path, k: Byte, fits: bool)
    requires |prefix| % 256 == pos < keys.Length && keys[pos] == k && k in s.kids && Room(s, |prefix|, keys.Length)
    requires fits ==> NoWrap(s, |prefix|) && pos == |prefix| && keys[..pos] == prefix
    ensures Written(keys, pos, s.kids[k], prefix + [k], fits)
  {
    Deeper(s, k, |prefix|, keys.Length);
  }

  lemma ReadyAgain(keys: array<Byte>, pos: Uchar, s: TrieShape, prefix: Path, k: Byte, fits: bool)
    requires |prefix| % 256 == pos && k in s.kids && Room(s, |prefix|, keys.Length) && (fits ==> NoWrap(s, |prefix|))
    requires Written(keys, pos, s.kids[k], prefix + [k], fits)
    ensures Ready(keys, pos, s, prefix, fits)
  {
    assert fits ==> keys[..|prefix|] == keys[..|prefix| + 1][..|prefix|];
  }

  /** The line of the node, then the lines below it. */
  method PrintNode(current: TrieNode, keys: array<Byte>, pos: Uchar,
                   ghost s: TrieShape, ghost path: Path, ghost fits: bool)
    returns (out: seq<Path>)
    requires Valid(s) && current == s.id && keys !in Foot(s) && Written(keys, pos, s, path, fits)
    modifies keys
    ensures forall q :: q in out ==> 1 <= |q| <= 256
    ensures Written(keys, pos, s, path, fits)
    ensures fits ==> out == ListNode(s, path)
    decreases s
  {
    WrittenLine(keys, pos, s, path, fits);
    NodeFacts(s, path);
    hide Valid, Written, Ready, Foot, ListNode, ListTree, PartOf, IsTree;
    AllAllocated(s);
    out := [];
    if current.hasContent {
      var line := PrintKeys(keys, pos);
      out := [line];
    }
    if current.down != null {
      var below := PrintRec(current.down, keys, (pos + 1) % 256, s, s.down, path, fits);
      out := out + below;
      ReadyWritten(keys, pos, s, path, fits);
    }
  }

  /** Lists the subtree `d` of the children of `s`, whose path from the root is `prefix`.
      Every line has between 1 and 256 bytes; as long as the position cannot wrap, the lines
      are the listing and the buffer still starts with the prefix afterwards.
   */
  method PrintRec(base: AvlNode?<TrieNode?>, keys: array<Byte>, pos: Uchar,
                  ghost s: TrieShape, ghost d: Down, ghost prefix: Path, ghost fits: bool)
    returns (out: seq<Path>)
    requires Valid(s) && IsTree(base, d) && PartOf(s, d) && keys !in Foot(s) && Ready(keys, pos, s, prefix, fits)
    modifies keys
    ensures forall q :: q in out ==> 1 <= |q| <= 256
    ensures Ready(keys, pos, s, prefix, fits)
    ensures fits ==> out == ListTree(s, d, prefix)
    decreases s, d
  {
    hide *;
    RecFacts(base, s, d, prefix);
    if base == null || base.value == null { return []; }
    KidFacts(s, d.key);
    AllAllocated(s);
    Allocated(d.right);
    var current := base.value;
    var left := PrintRec(base.left, keys, pos, s, d.left, prefix, fits);
    ReadyToWrite(keys, pos, s, prefix, d.key, fits);
    keys[pos] := base.key;
    NowWritten(keys, pos, s, prefix, d.key, fits);
    var node := PrintNode(current, keys, pos, s.kids[d.key], prefix + [d.key], fits);
    ReadyAgain(keys, pos, s, prefix, d.key, fits);
    var right := PrintRec(base.right, keys, pos, s, d.right, prefix, fits);
    out := left + node + right;
  }

  // ---------- the whole table ----------

  lemma {:induction false} AbsKid(s: TrieShape, k: Byte)
    requires k in s.kids
    ensures k in Abs(s).kids && Abs(s).kids[k] == Abs(s.kids[k])
  {
  }

  /** In a pruned trie the stored keys reach as deep as the nodes do. */
  lemma {:induction false} WithinFromKeys(s: TrieShape, n: nat)
    requires T.Pruned(Abs(s)) && forall q :: StoredAt(s, q) ==> |q| <= n
    ensures Within(s, n)
    decreases s
  {
    forall k | k in s.kids ensures n > 0 && Within(s.kids[k], n - 1) {
      AbsKid(s, k);
      var kid := s.kids[k];
      var r := T.ReachKey(Abs(kid));
      AtIsSub(kid, r);
      assert ([k] + r)[1..] == r;
      assert StoredAt(s, [k] + r);
      forall q | StoredAt(kid, q) ensures |q| <= n - 1 {
        assert ([k] + q)[1..] == q;
        assert StoredAt(s, [k] + q);
      }
      WithinFromKeys(kid, n - 1);
    }
  }

  /** Lists a whole trie. With an 8-bit position the listing comes out right exactly when no
      stored key is longer than 256 bytes.
   */
  method PrintTable(base: TrieNode, keys: array<Byte>, ghost s: TrieShape) returns (out: seq<Path>)
    requires Valid(s) && base == s.id && T.Pruned(Abs(s)) && keys !in Foot(s) && Room(s, 0, keys.Length)
    modifies keys
    ensures out == Listing(s) <==> forall q :: q in T.Contents(Abs(s)) ==> |q| <= 256
  {
    ghost var fits := Within(s, 256);
    TableFits(s);
    NodeFacts(s, []);
    hide Valid, PartOf, IsTree, Within, T.Contents, T.Pruned, Abs, Foot;
    out := PrintRec(base.down, keys, 0, s, s.down, [], fits);
  }

  lemma {:induction false} TableFits(s: TrieShape)
    requires Valid(s) && T.Pruned(Abs(s))
    ensures (forall q :: q in T.Contents(Abs(s)) ==> |q| <= 256) ==> Within(s, 256)
    ensures !(forall q :: q in T.Contents(Abs(s)) ==> |q| <= 256) ==> exists q :: q in Listing(s) && |q| > 256
    ensures Within(s, 256) ==> forall q :: q in T.Contents(Abs(s)) ==> |q| <= 256
  {
    hide Sound, IsTrie, T.Contents, T.Pruned, Abs, Foot, ListTree;
    if forall q :: q in T.Contents(Abs(s)) ==> |q| <= 256 {
      forall q | StoredAt(s, q) ensures |q| <= 256 {
        SearchFinds(s, q);
      }
      WithinFromKeys(s, 256);
    } else {
      var q :| q in T.Contents(Abs(s)) && |q| > 256;
      ListingMember(s, q);
    }
    if Within(s, 256) {
      forall q | q in T.Contents(Abs(s)) ensures |q| <= 256 {
        SearchFinds(s, q);
        WithinBounds(s, q, 256);
      }
    }
  }

  lemma {:induction false} WithinBounds(s: TrieShape, q: Path, n: nat)
    requires Within(s, n) && At(s, q).Some?
    ensures |q| <= n
    decreases |q|
  {
    if q != [] { WithinBounds(s.kids[q[0]], q[1..], n - 1); }
  }

  /** A key of 257 bytes is enough to spoil the listing. */
  lemma {:induction false} LongKey(p: Path)
    requires |p| == 257
    ensures T.Pruned(T.Insert(T.EMPTY, p, 1)) && p in T.Contents(T.Insert(T.EMPTY, p, 1))
  {
    T.InsertKeepsPruned(T.EMPTY, p, 1);
    T.InsertUpdates(T.EMPTY, p, 1);
  }
}
