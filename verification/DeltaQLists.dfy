/** Singly linked lists with a begin and an end pointer, and the free lists their nodes come
    from. A node knows its owner: the queue or the pool that holds it.
 */
module DeltaQLists {
  class ListNode<T> {
    var item: T
    var next: ListNode?<T>
    ghost var owner: object?

    constructor (item: T)
      ensures this.item == item && next == null && owner == null
    {
      this.item, next, owner := item, null, null;
    }
  }

  /** The nodes from `begin` along `next`: all of them, each once, ending in null. */
  ghost predicate Chain<T>(begin: ListNode?<T>, nodes: seq<ListNode<T>>, owner: object)
    reads nodes
  {
    && begin == (if nodes == [] then null else nodes[0])
    && (forall i :: 0 <= i < |nodes| - 1 ==> nodes[i].next == nodes[i + 1])
    && (nodes != [] ==> nodes[|nodes| - 1].next == null)
    && (forall i :: 0 <= i < |nodes| ==> nodes[i].owner == owner)
    && (forall i, j :: 0 <= i < j < |nodes| ==> nodes[i] != nodes[j])
  }

  ghost function Items<T>(nodes: seq<ListNode<T>>): (s: seq<T>)
    reads nodes
    ensures |s| == |nodes|
    ensures forall i :: 0 <= i < |nodes| ==> s[i] == nodes[i].item
  {
    if nodes == [] then [] else [nodes[0].item] + Items(nodes[1..])
  }

  lemma ItemsPush<T>(n: ListNode<T>, nodes: seq<ListNode<T>>)
    ensures Items([n] + nodes) == [n.item] + Items(nodes)
  {
    assert ([n] + nodes)[1..] == nodes;
  }

  lemma ItemsTail<T>(nodes: seq<ListNode<T>>)
    requires nodes != []
    ensures Items(nodes[1..]) == Items(nodes)[1..]
  {
  }

  lemma {:induction false} ItemsAppend<T>(nodes: seq<ListNode<T>>, n: ListNode<T>)
    ensures Items(nodes + [n]) == Items(nodes) + [n.item]
  {
    if nodes == [] {
      assert nodes + [n] == [n];
    } else {
      assert (nodes + [n])[1..] == nodes[1..] + [n];
      ItemsAppend(nodes[1..], n);
    }
  }

  class Pool<T> {
    var begin: ListNode?<T>
    ghost var nodes: seq<ListNode<T>>

    ghost predicate Valid()
      reads this, nodes
    {
      Chain(begin, nodes, this)
    }

    lemma Owns()
      requires Valid()
      ensures forall i :: 0 <= i < |nodes| ==> nodes[i].owner == this
    {
    }

    constructor ()
      ensures Valid() && nodes == []
    {
      begin, nodes := null, [];
    }

    /** A node with the given fields, from the free list when it has one. */
    method Get(item: T, next: ListNode?<T>, ghost owner: object) returns (n: ListNode<T>)
      requires Valid() && owner != this
      modifies this, nodes
      ensures Valid() && n.item == item && n.next == next && n.owner == owner
      ensures fresh(n) || n in old(nodes)
      ensures nodes == if old(nodes) == [] then [] else old(nodes)[1..]
      ensures old(nodes) != [] ==> n == old(nodes)[0]
    {
      if begin == null {
        n := new ListNode(item);
      } else {
        n := begin;
        begin := n.next;
        ghost var was := nodes;
        nodes := nodes[1..];
        assert forall i :: 0 <= i < |nodes| ==> nodes[i] == was[i + 1] && nodes[i] != n;
      }
      n.next := next;
      n.item := item;
      n.owner := owner;
    }

    method Release(n: ListNode<T>)
      requires Valid() && n.owner != this
      modifies this, n
      ensures Valid() && nodes == [n] + old(nodes)
    {
      n.next := begin;
      n.owner := this;
      begin := n;
      ghost var was := nodes;
      nodes := [n] + nodes;
      assert forall i :: 0 < i < |nodes| ==> nodes[i] == was[i - 1];
    }
  }

  class NodeQueue<T> {
    var begin: ListNode?<T>
    var end: ListNode?<T>
    ghost var nodes: seq<ListNode<T>>
    ghost const home: (nat, nat)  // the port and the class the queue belongs to

    ghost predicate Valid()
      reads this, nodes
    {
      && Chain(begin, nodes, this)
      && end == if nodes == [] then null else nodes[|nodes| - 1]
    }

    ghost function Contents(): (s: seq<T>)
      reads this, nodes
    {
      Items(nodes)
    }

    lemma Owns()
      requires Valid()
      ensures forall i :: 0 <= i < |nodes| ==> nodes[i].owner == this
    {
    }

    constructor (ghost home: (nat, nat))
      ensures Valid() && this.home == home && Contents() == []
    {
      this.home := home;
      begin, end, nodes := null, null, [];
    }

    /** The begin pointer leads to the first item. */
    lemma First()
      requires Valid()
      ensures begin == null <==> Contents() == []
      ensures nodes != [] ==> begin == nodes[0] && begin.item == Contents()[0]
      ensures |Contents()| == |nodes|
    {
    }

    /** Hangs a node of this queue behind the last one. */
    method LinkLast(n: ListNode<T>)
      requires Valid() && n.owner == this && n.next == null && n !in nodes
      modifies this, nodes
      ensures Valid() && nodes == old(nodes) + [n] && Contents() == old(Contents()) + [n.item]
      ensures n.item == old(n.item)
    {
      hide Items;
      if begin == null {
        begin := n;
        end := n;
      } else {
        end.next := n;
        end := n;
      }
      ItemsAppend(nodes, n);
      assert Items(nodes) == old(Items(nodes));
      ghost var was := nodes;
      nodes := nodes + [n];
      assert forall i :: 0 <= i < |was| ==> nodes[i] == was[i];
    }

    /** Hangs a node of this queue, already linked to the first one, in front. */
    method LinkFirst(n: ListNode<T>)
      requires Valid() && n.owner == this && n.next == begin && n !in nodes
      modifies this
      ensures Valid() && nodes == [n] + old(nodes) && Contents() == [n.item] + old(Contents())
    {
      hide Items;
      ItemsPush(n, nodes);
      begin := n;
      if end == null {
        end := begin;
      }
      ghost var was := nodes;
      nodes := [n] + nodes;
      assert forall i :: 0 < i < |nodes| ==> nodes[i] == was[i - 1];
    }

    /** Takes the first node off the queue. */
    method UnlinkFirst() returns (n: ListNode<T>)
      requires Valid() && nodes != []
      modifies this
      ensures Valid() && n == old(nodes[0]) && nodes == old(nodes[1..]) && n !in nodes && n.owner == this
      ensures n.item == old(Contents()[0]) && Contents() == old(Contents()[1..])
    {
      hide Items;
      ItemsTail(nodes);
      n := begin;
      begin := n.next;
      if begin == null {
        end := null;
      }
      ghost var was := nodes;
      nodes := nodes[1..];
      assert forall i :: 0 <= i < |nodes| ==> nodes[i] == was[i + 1] && nodes[i] != n;
    }

    method PushBack(item: T, pool: Pool<T>)
      requires Valid() && pool.Valid() && pool as object != this
      modifies this, nodes, pool, pool.nodes
      ensures Valid() && pool.Valid() && Contents() == old(Contents()) + [item]
      ensures forall n :: n in nodes || n in pool.nodes ==> n in old(nodes) || n in old(pool.nodes) || fresh(n)
      ensures old(NodesHeld({this}, pool)) <= NodesHeld({this}, pool)
    {
      hide Chain, Items, Valid, Contents, NodesHeld, NodesIn;
      HeldByOne(this, pool);
      Owns();
      pool.Owns();
      var n := pool.Get(item, null, this);
      assert n !in nodes;
      LinkLast(n);
      HeldByOne(this, pool);
    }

    method PushFront(item: T, pool: Pool<T>)
      requires Valid() && pool.Valid() && pool as object != this
      modifies this, nodes, pool, pool.nodes
      ensures Valid() && pool.Valid() && Contents() == [item] + old(Contents())
      ensures forall n :: n in nodes || n in pool.nodes ==> n in old(nodes) || n in old(pool.nodes) || fresh(n)
      ensures old(NodesHeld({this}, pool)) <= NodesHeld({this}, pool)
    {
      hide Chain, Items, Valid, Contents, NodesHeld, NodesIn;
      HeldByOne(this, pool);
      Owns();
      pool.Owns();
      var n := pool.Get(item, begin, this);
      assert n !in nodes;
      LinkFirst(n);
      HeldByOne(this, pool);
    }

    /** Takes the first item and gives its node to the pool. */
    method PopFront(pool: Pool<T>) returns (item: T)
      requires Valid() && nodes != [] && pool.Valid() && pool as object != this
      modifies this, begin, pool
      ensures Valid() && pool.Valid() && item == old(Contents()[0]) && Contents() == old(Contents()[1..])
      ensures nodes == old(nodes[1..]) && pool.nodes == old([nodes[0]] + pool.nodes)
      ensures old(NodesHeld({this}, pool)) <= NodesHeld({this}, pool)
    {
      hide Chain, Items, Valid, Contents, NodesHeld, NodesIn;
      HeldByOne(this, pool);
      Owns();
      pool.Owns();
      First();
      var n := UnlinkFirst();
      item := n.item;
      pool.Release(n);
      HeldByOne(this, pool);
    }

    /** Takes the first item; its node goes nowhere. */
    method DropFront()
      requires Valid() && nodes != []
      modifies this, begin
      ensures Valid() && Contents() == old(Contents()[1..]) && nodes == old(nodes[1..])
    {
      hide Chain, Items, Valid, Contents;
      First();
      var n := UnlinkFirst();
      n.owner := null;
    }
  }

  /** The nodes in the queues `qs`. */
  ghost function NodesIn<T>(qs: set<NodeQueue<T>>): set<ListNode<T>>
    reads qs
  {
    set q: NodeQueue<T>, n: ListNode<T> | q in qs && n in q.nodes :: n
  }

  /** The nodes in the queues `qs` and in the pool. */
  ghost function NodesHeld<T>(qs: set<NodeQueue<T>>, pool: Pool<T>): set<ListNode<T>>
    reads qs, pool
  {
    NodesIn(qs) + set n: ListNode<T> | n in pool.nodes
  }

  lemma HeldByOne<T>(q: NodeQueue<T>, pool: Pool<T>)
    ensures NodesHeld({q}, pool) == (set n: ListNode<T> | n in q.nodes) + set n: ListNode<T> | n in pool.nodes
  {
  }

  lemma HeldSplit<T>(part: set<NodeQueue<T>>, all: set<NodeQueue<T>>, pool: Pool<T>)
    requires part <= all
    ensures NodesHeld(all, pool) == NodesHeld(part, pool) + NodesIn(all - part)
  {
  }
}
