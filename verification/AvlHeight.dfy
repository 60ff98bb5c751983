/** How high a tree can be: the balance rule, with height 0 for both the empty tree
    and a leaf, bounds the height by the Lucas numbers 2, 1, 3, 4, 7, ...
 */
module AvlHeight {
  import opened AvlSpec

  function Lucas(n: nat): nat {
    if n == 0 then 2 else if n == 1 then 1 else Lucas(n - 1) + Lucas(n - 2)
  }

  function Size<N, V>(t: Tree<N, V>): nat {
    match t
    case Nil => 0
    case Node(l, _, _, _, r) => Size(l) + 1 + Size(r)
  }

  ghost predicate KeysIn<N, V>(t: Tree<N, V>, lo: int, hi: int) {
    forall k :: k in Entries(t) ==> lo <= k < hi
  }

  lemma {:induction false} LucasGrows(m: nat, n: nat)
    requires 1 <= m <= n
    ensures 1 <= Lucas(m) <= Lucas(n)
  {
    if m < n {
      LucasGrows(m, n - 1);
      if n > 2 { LucasGrows(1, n - 2); }
    } else if m > 2 {
      LucasGrows(1, m - 1);
      LucasGrows(1, m - 2);
    }
  }

  /** A balanced tree of height `h` has at least Lucas(h + 1) - 1 nodes. */
  lemma {:induction false} SizeAtLeast<N, V>(t: Tree<N, V>)
    requires Balanced(t)
    ensures Size(t) >= Lucas(H(t) + 1) - 1
  {
    if t.Node? {
      SizeAtLeast(t.left);
      SizeAtLeast(t.right);
      LucasGrows(1, H(t.left) + 1);
      LucasGrows(1, H(t.right) + 1);
    }
  }

  /** The bound is met: `Sparse(h, lo)` has height `h` and exactly that many nodes. */
  function Sparse(h: nat, lo: int): (t: Tree<(), ()>)
    requires KEY_MIN <= lo && lo + Lucas(h + 1) - 1 <= KEY_LIMIT
  {
    if h == 0 then Nil
    else if h == 1 then
      assert Lucas(2) == 3;
      Node(Node(Nil, (), lo, (), Nil), (), lo + 1, (), Nil)
    else
      LucasGrows(1, h - 1);
      var l := Sparse(h - 1, lo);
      var k := lo + Lucas(h) - 1;
      Node(l, (), k, (), Sparse(h - 2, k + 1))
  }

  lemma SparseUnfold(h: nat, lo: int)
    requires h >= 2 && KEY_MIN <= lo && lo + Lucas(h + 1) - 1 <= KEY_LIMIT
    ensures Lucas(h + 1) == Lucas(h) + Lucas(h - 1) && Lucas(h) >= 1 && Lucas(h - 1) >= 1
    ensures var k := lo + Lucas(h) - 1; Sparse(h, lo) == Node(Sparse(h - 1, lo), (), k, (), Sparse(h - 2, k + 1))
  {
    LucasGrows(1, h - 1);
    LucasGrows(1, h);
  }

  lemma SparseSmall(h: nat, lo: int)
    requires h < 2 && KEY_MIN <= lo && lo + Lucas(h + 1) - 1 <= KEY_LIMIT
    ensures Balanced(Sparse(h, lo)) && H(Sparse(h, lo)) == h && (h > 0 ==> Sparse(h, lo).Node?)
    ensures Size(Sparse(h, lo)) == Lucas(h + 1) - 1
  {
  }

  lemma {:induction false} SparseShape(h: nat, lo: int)
    requires KEY_MIN <= lo && lo + Lucas(h + 1) - 1 <= KEY_LIMIT
    ensures Balanced(Sparse(h, lo)) && H(Sparse(h, lo)) == h && (h > 0 ==> Sparse(h, lo).Node?)
    ensures Size(Sparse(h, lo)) == Lucas(h + 1) - 1
  {
    hide Sparse, Lucas;
    if h < 2 {
      SparseSmall(h, lo);
    } else {
      SparseUnfold(h, lo);
      SparseShape(h - 1, lo);
      SparseShape(h - 2, lo + Lucas(h));
    }
  }

  lemma {:induction false} SparseOrder(h: nat, lo: int)
    requires KEY_MIN <= lo && lo + Lucas(h + 1) - 1 <= KEY_LIMIT
    ensures Ordered(Sparse(h, lo)) && KeysIn(Sparse(h, lo), lo, lo + Lucas(h + 1) - 1)
  {
    if h >= 2 {
      LucasGrows(1, h - 1);
      var k := lo + Lucas(h) - 1;
      SparseOrder(h - 1, lo);
      SparseOrder(h - 2, k + 1);
    }
  }

  lemma {:induction false} SparseMeetsBound(h: nat, lo: int)
    requires KEY_MIN <= lo && lo + Lucas(h + 1) - 1 <= KEY_LIMIT
    ensures Ordered(Sparse(h, lo)) && Balanced(Sparse(h, lo)) && H(Sparse(h, lo)) == h
    ensures Size(Sparse(h, lo)) == Lucas(h + 1) - 1
    ensures KeysIn(Sparse(h, lo), lo, lo + Lucas(h + 1) - 1)
  {
    hide *;
    SparseShape(h, lo);
    SparseOrder(h, lo);
  }

  /** Distinct keys from an interval: no more nodes than the interval is long. */
  lemma {:induction false} SizeAtMost<N, V>(t: Tree<N, V>, lo: int, hi: int)
    requires Ordered(t) && KeysIn(t, lo, hi) && lo <= hi
    ensures Size(t) <= hi - lo
  {
    if t.Node? {
      assert t.key in Entries(t);
      assert forall k :: k in Entries(t.left) ==> k in Entries(t);
      assert forall k :: k in Entries(t.right) ==> k in Entries(t);
      SizeAtMost(t.left, lo, t.key);
      SizeAtMost(t.right, t.key + 1, hi);
    }
  }

  lemma LucasLadder(n: nat)
    ensures Lucas(n + 5) == 3 * Lucas(n) + 5 * Lucas(n + 1)
    ensures Lucas(n + 6) == 5 * Lucas(n) + 8 * Lucas(n + 1)
  {
    assert Lucas(n + 4) == 2 * Lucas(n) + 3 * Lucas(n + 1);
  }

  /** Lucas(11), Lucas(12), Lucas(26) and Lucas(27). In this lemma and the next three `n` is the
      number 1, which the solver must not see: it would unfold `Lucas` of a numeral all the way.
   */
  lemma LucasLow(n: nat)
    requires n == 1
    ensures Lucas(n + 10) == 199 && Lucas(n + 11) == 322
    ensures Lucas(n + 25) == 271443 && Lucas(n + 26) == 439204
  {
    LucasLadder(n);
    LucasLadder(n + 5);
    LucasLadder(n + 10);
    LucasLadder(n + 15);
    LucasLadder(n + 20);
  }

  /** Lucas(46) and Lucas(47). */
  lemma LucasHigh(n: nat)
    requires n == 1
    ensures Lucas(n + 45) == 4106118243 && Lucas(n + 46) == 6643838879
  {
    LucasLow(n);
    LucasLadder(n + 25);
    LucasLadder(n + 30);
    LucasLadder(n + 35);
    LucasLadder(n + 40);
  }

  /** The heights whose smallest tree fits the integer keys, and the byte keys. */
  lemma IntLimit(n: nat, h: nat)
    requires n == 1
    ensures Lucas(h + 1) - 1 <= KEY_LIMIT - KEY_MIN <==> h <= n + 44
  {
    LucasHigh(n);
    if h >= n + 45 { LucasGrows(n + 46, h + 1); } else if h > 0 { LucasGrows(h + 1, n + 45); }
  }

  lemma ByteLimit(n: nat, h: nat)
    requires n == 1
    ensures Lucas(h + 1) - 1 <= 256 <==> h <= n + 9
  {
    LucasLow(n);
    if h >= n + 10 { LucasGrows(n + 11, h + 1); } else if h > 0 { LucasGrows(h + 1, n + 10); }
  }

  /** Trees over the keys of a machine integer never reach height 46. */
  lemma {:induction false} HeightOfIntKeys<N, V>(t: Tree<N, V>)
    requires Ordered(t) && Balanced(t)
    ensures H(t) <= 45
  {
    SizeAtLeast(t);
    SizeAtMost(t, KEY_MIN, KEY_LIMIT);
    IntLimit(1, H(t));
  }

  /** Trees over the 256 byte keys never reach height 11. */
  lemma {:induction false} HeightOfByteKeys<N, V>(t: Tree<N, V>)
    requires Ordered(t) && Balanced(t) && KeysIn(t, 0, 256)
    ensures H(t) <= 10
  {
    SizeAtLeast(t);
    SizeAtMost(t, 0, 256);
    ByteLimit(1, H(t));
  }

  /** Every height up to 45 occurs with integer keys. */
  lemma IntHeightReached(h: nat) returns (t: Tree<(), ()>)
    requires h <= 45
    ensures Ordered(t) && Balanced(t) && H(t) == h
  {
    IntLimit(1, h);
    SparseMeetsBound(h, KEY_MIN);
    t := Sparse(h, KEY_MIN);
  }

  /** Every height up to 10 occurs with byte keys. */
  lemma ByteHeightReached(h: nat) returns (t: Tree<(), ()>)
    requires h <= 10
    ensures Ordered(t) && Balanced(t) && KeysIn(t, 0, 256) && H(t) == h
  {
    ByteLimit(1, h);
    SparseMeetsBound(h, 0);
    t := Sparse(h, 0);
  }
}
