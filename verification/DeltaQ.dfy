/** The DeltaQ scheduler on the heap: QoS classes made of linked lists and counters, updated
    in place. Each method is tied to the function of `DeltaQSpec` on the values its objects
    hold.
 */
module DeltaQ {
  import opened DeltaQSpec
  import opened DeltaQLists
  import opened DeltaQLedger

  lemma FirstClass(cs: seq<Class>, qos: nat, i: nat)
    requires i <= |cs| && (i < |cs| ==> cs[i].key == qos)
    requires forall j :: 0 <= j < i ==> cs[j].key != qos
    ensures FindClass(cs, qos) == i
  {
  }

  lemma FirstPort(ps: seq<Port>, id: nat, i: nat)
    requires i <= |ps| && (i < |ps| ==> ps[i].key == id)
    requires forall j :: 0 <= j < i ==> ps[j].key != id
    ensures FindPort(ps, id) == i
  {
  }

  /** One more class of the scan. */
  lemma BestNext(cs: seq<Class>, i: nat, now: int)
    requires i < |cs| && forall j :: 0 <= j < |cs| ==> Paired(cs[j])
    ensures Best(cs, i + 1, now) ==
            if Eligible(cs[i]) && cs[i].wtimes != [] && Slack(cs[i], now) < Best(cs, i, now).1
            then (i, Slack(cs[i], now)) else Best(cs, i, now)
  {
    assert Paired(cs[i]);
  }

  lemma BestFirst(cs: seq<Class>, now: int)
    ensures Best(cs, 0, now) == (|cs|, KTIME_MAX)
  {
  }

  /** What a dequeue hands back; for an unknown port the code returns -1 as a pointer. */
  datatype Outcome = NoPdu | Got(p: Pdu) | BadPort

  /** How a requeue ends. */
  datatype Returned = Code(res: int) | NullRead

  /** The three free lists, shared by all ports. */
  class Pools {
    const pdus: Pool<Pdu>
    const times: Pool<int>
    const sends: Pool<Send>

    ghost function Repr(): set<object>
      reads this, pdus, times, sends
    {
      {this, pdus, times, sends} + (set n | n in pdus.nodes) + (set n | n in times.nodes) + (set n | n in sends.nodes)
    }

    ghost predicate Valid()
      reads this, pdus, times, sends, Repr()
    {
      && pdus.Valid() && times.Valid() && sends.Valid()
      && pdus as object != times && pdus as object != sends && times as object != sends
    }

    lemma Owned()
      requires Valid()
      ensures forall i :: 0 <= i < |pdus.nodes| ==> pdus.nodes[i].owner == pdus
      ensures forall i :: 0 <= i < |times.nodes| ==> times.nodes[i].owner == times
      ensures forall i :: 0 <= i < |sends.nodes| ==> sends.nodes[i].owner == sends
    {
    }

    lemma ReprAllocated()
      ensures forall o :: o in Repr() ==> allocated(o)
    {
    }

    lemma ReprHas()
      ensures pdus in Repr() && times in Repr() && sends in Repr()
      ensures forall i :: 0 <= i < |pdus.nodes| ==> pdus.nodes[i] in Repr()
      ensures forall i :: 0 <= i < |times.nodes| ==> times.nodes[i] in Repr()
      ensures forall i :: 0 <= i < |sends.nodes| ==> sends.nodes[i] in Repr()
    {
    }

    constructor ()
      ensures Valid() && fresh(Repr())
    {
      pdus := new Pool();
      times := new Pool();
      sends := new Pool();
    }
  }

  /** Different classes share no object, and none with the pools. */
  lemma Apart(c: QosVals, d: QosVals, pools: Pools)
    requires c.Valid() && d.Valid() && pools.Valid()
    ensures c.home != d.home ==> c.Repr() !! d.Repr()
    ensures c.Repr() !! pools.Repr()
  {
    hide Chain, Items, NodeQueue.Valid, Pool.Valid;
    c.Owned();
    d.Owned();
    pools.Owned();
  }

  class QosVals {
    ghost const home: (nat, nat)  // which port, which class of it
    const key: nat
    const params: Params
    const queue: NodeQueue<Pdu>
    const wtime: NodeQueue<int>
    const sendST: NodeQueue<Send>
    var sendSize: Size
    var lastST: int

    ghost function Heads(): set<object> {
      {this, queue, wtime, sendST}
    }

    ghost function Repr(): set<object>
      reads Heads()
    {
      Heads() + (set n | n in queue.nodes) + (set n | n in wtime.nodes) + (set n | n in sendST.nodes)
    }

    ghost predicate Valid()
      reads Heads(), Repr()
    {
      && queue.Valid() && wtime.Valid() && sendST.Valid()
      && queue.home == home && wtime.home == home && sendST.home == home
      && queue as object != wtime && queue as object != sendST && wtime as object != sendST
    }

    /** The class these objects hold. */
    ghost function View(): Class
      reads Heads(), Repr()
    {
      Class(key, params, queue.Contents(), wtime.Contents(), sendST.Contents(), sendSize, lastST)
    }

    /** The PDU nodes and the time nodes in its queues and in the free lists. */
    ghost function PduNodes(pools: Pools): set<ListNode<Pdu>>
      reads queue, pools.pdus
    {
      NodesHeld({queue}, pools.pdus)
    }

    ghost function TimeNodes(pools: Pools): set<ListNode<int>>
      reads wtime, pools.times
    {
      NodesHeld({wtime}, pools.times)
    }

    lemma Owned()
      requires Valid()
      ensures forall i :: 0 <= i < |queue.nodes| ==> queue.nodes[i].owner == queue
      ensures forall i :: 0 <= i < |wtime.nodes| ==> wtime.nodes[i].owner == wtime
      ensures forall i :: 0 <= i < |sendST.nodes| ==> sendST.nodes[i].owner == sendST
    {
    }

    constructor (key: nat, params: Params, ghost home: (nat, nat))
      ensures Valid() && this.home == home && View() == Class(key, params, [], [], [], 0, 0)
    {
      hide Chain, Items, NodeQueue.Valid, NodeQueue.Contents;
      this.key, this.params, this.home := key, params, home;
      sendSize, lastST := 0, 0;
      queue := new NodeQueue(home);
      wtime := new NodeQueue(home);
      sendST := new NodeQueue(home);
    }

    lemma ViewFields()
      ensures View().params == params && View().key == key && View().sendSize == sendSize && View().lastST == lastST
    {
    }

    /** The tail of an accepted enqueue: the PDU and its time join the two queues. */
    method Accept(p: Pdu, now: int, pools: Pools)
      requires Valid() && pools.Valid()
      modifies queue, queue.nodes, pools.pdus, pools.pdus.nodes
      modifies wtime, wtime.nodes, pools.times, pools.times.nodes
      ensures old(PduNodes(pools)) <= PduNodes(pools) && old(TimeNodes(pools)) <= TimeNodes(pools)
      ensures Valid() && pools.Valid() && View() == Append(old(View()), p, now)
    {
      hide Chain, Items, NodesHeld, NodeQueue.Valid, NodeQueue.Contents, Pool.Valid;
      Owned();
      pools.Owned();
      queue.PushBack(p, pools.pdus);
      wtime.PushBack(now, pools.times);
    }

    /** Forgets the oldest send. */
    method ExpireOne(pools: Pools)
      requires Valid() && pools.Valid() && View().log != []
      modifies this`sendSize, sendST, sendST.begin, pools.sends
      ensures Valid() && pools.Valid()
      ensures var c := old(View()); View() == c.(log := c.log[1..], sendSize := Wrap(c.sendSize - c.log[0].size))
      ensures Repr() <= old(Repr()) && pools.Repr() <= old(pools.Repr()) + old(Repr())
      ensures |sendST.nodes| < |old(sendST.nodes)|
      ensures PduNodes(pools) == old(PduNodes(pools)) && TimeNodes(pools) == old(TimeNodes(pools))
    {
      hide Chain, Items, PduNodes, TimeNodes, NodeQueue.Valid, NodeQueue.Contents, Pool.Valid;
      Owned();
      pools.Owned();
      sendST.First();
      var s := sendST.PopFront(pools.sends);
      sendSize := Wrap(sendSize - s.size);
    }

    /** The begin pointer of the send log leads to its oldest entry. */
    lemma OldestSend()
      requires Valid()
      ensures sendST.begin == null <==> View().log == []
      ensures sendST.begin != null ==> sendST.begin.item == View().log[0] && sendST.begin in Repr()
    {
      sendST.First();
    }

    lemma ReprAllocated()
      ensures forall o :: o in Repr() ==> allocated(o)
    {
    }

    lemma ReprHas()
      ensures Heads() <= Repr()
      ensures this in Repr() && queue in Repr() && wtime in Repr() && sendST in Repr()
      ensures forall i :: 0 <= i < |queue.nodes| ==> queue.nodes[i] in Repr()
      ensures forall i :: 0 <= i < |wtime.nodes| ==> wtime.nodes[i] in Repr()
      ensures forall i :: 0 <= i < |sendST.nodes| ==> sendST.nodes[i] in Repr()
    {
    }

    /** Forgets the sends before `limit`. */
    method ExpireSends(limit: int, pools: Pools)
      requires Valid() && pools.Valid()
      modifies Repr(), pools.sends
      ensures Valid() && pools.Valid() && View() == Expire(old(View()), limit)
      ensures PduNodes(pools) == old(PduNodes(pools)) && TimeNodes(pools) == old(TimeNodes(pools))
      ensures Repr() <= old(Repr()) && pools.Repr() <= old(pools.Repr()) + old(Repr())
    {
      hide Valid, View, Repr, Pools.Valid, Pools.Repr;
      OldestSend();
      ReprHas();
      while sendST.begin != null && sendST.begin.item.time < limit
        invariant Valid() && pools.Valid() && Expire(View(), limit) == Expire(old(View()), limit)
        invariant Repr() <= old(Repr()) && pools.Repr() <= old(pools.Repr()) + old(Repr())
        invariant PduNodes(pools) == old(PduNodes(pools)) && TimeNodes(pools) == old(TimeNodes(pools))
        invariant sendST.begin == null <==> View().log == []
        invariant sendST.begin != null ==> sendST.begin.item == View().log[0] && sendST.begin in Repr()
        decreases |sendST.nodes|
      {
        ExpireOne(pools);
        OldestSend();
      }
    }

    /** The scan of one class: expires the sends of a limited class with a PDU waiting. */
    method Scan(now: int, pools: Pools)
      requires Valid() && pools.Valid()
      modifies Repr(), pools.sends
      ensures Valid() && pools.Valid() && View() == Touch(old(View()), now)
      ensures PduNodes(pools) == old(PduNodes(pools)) && TimeNodes(pools) == old(TimeNodes(pools))
      ensures Repr() <= old(Repr()) && pools.Repr() <= old(pools.Repr()) + old(Repr())
    {
      hide Valid, Repr, Pools.Valid, Pools.Repr, Expire;
      HeadFirst();
      ViewFields();
      hide View;
      if queue.begin != null && params.limitOut {
        ExpireSends(now - params.oBurstT, pools);
      }
    }

    /** The begin pointers of the queues lead to their heads. */
    lemma HeadFirst()
      requires Valid()
      ensures queue.begin == null <==> View().queue == []
      ensures queue.begin != null ==> queue.begin.item == View().queue[0]
      ensures wtime.begin == null <==> View().wtimes == []
      ensures wtime.begin != null ==> wtime.begin.item == View().wtimes[0]
    {
      queue.First();
      wtime.First();
    }

    /** Whether the class may send its head now, and how urgent that is. */
    function Judge(now: int): (r: (bool, int))
      requires Valid() && Paired(View())
      reads Heads(), Repr()
      ensures r.0 <==> Eligible(View())
      ensures r.0 ==> View().wtimes != [] && r.1 == Slack(View(), now)
    {
      HeadFirst();
      BeginInRepr();
      if queue.begin == null then (false, 0)
      else if params.limitOut && Wrap(sendSize + queue.begin.item.size) > params.oBurstS then (false, 0)
      else
        var delay := params.oExWaitT - now + wtime.begin.item;
        (true, if delay < 0 then delay * params.oMulOver else delay * 100)
    }

    lemma BeginInRepr()
      requires Valid()
      ensures queue.begin != null ==> queue.begin in Repr()
      ensures wtime.begin != null ==> wtime.begin in Repr()
    {
    }

    method TakeQueues(pools: Pools) returns (p: Pdu)
      requires Valid() && pools.Valid() && View().queue != [] && View().wtimes != []
      modifies this`lastST, queue, queue.nodes, pools.pdus, wtime, wtime.nodes, pools.times
      ensures old(PduNodes(pools)) <= PduNodes(pools) && old(TimeNodes(pools)) <= TimeNodes(pools)
      ensures Valid() && pools.Valid() && p == old(View()).queue[0]
      ensures var c := old(View());
              View() == c.(queue := c.queue[1..], wtimes := c.wtimes[1..], lastST := c.wtimes[0])
    {
      hide Chain, Items, NodesHeld, NodeQueue.Valid, NodeQueue.Contents, Pool.Valid;
      Owned();
      pools.Owned();
      queue.First();
      wtime.First();
      p := queue.PopFront(pools.pdus);
      lastST := wtime.PopFront(pools.times);
    }

    method LogSend(size: Size, now: int, pools: Pools)
      requires Valid() && pools.Valid()
      modifies this`sendSize, sendST, sendST.nodes, pools.sends, pools.sends.nodes
      ensures Valid() && pools.Valid()
      ensures PduNodes(pools) == old(PduNodes(pools)) && TimeNodes(pools) == old(TimeNodes(pools))
      ensures var c := old(View()); View() == c.(log := c.log + [Send(size, now)], sendSize := Wrap(c.sendSize + size))
    {
      hide Chain, Items, PduNodes, TimeNodes, NodeQueue.Valid, NodeQueue.Contents, Pool.Valid;
      Owned();
      pools.Owned();
      sendST.PushBack(Send(size, now), pools.sends);
      sendSize := Wrap(sendSize + size);
    }

    /** Takes the head of the class and logs the send. */
    method TakeHead(now: int, pools: Pools) returns (p: Pdu)
      requires Valid() && pools.Valid() && View().queue != [] && View().wtimes != []
      modifies this`sendSize, this`lastST, queue, queue.nodes, pools.pdus
      modifies wtime, wtime.nodes, pools.times
      modifies sendST, sendST.nodes, pools.sends, pools.sends.nodes
      ensures old(PduNodes(pools)) <= PduNodes(pools) && old(TimeNodes(pools)) <= TimeNodes(pools)
      ensures Valid() && pools.Valid() && p == old(View()).queue[0] && View() == Take(old(View()), now)
    {
      hide Valid, View, PduNodes, TimeNodes, Pools.Valid;
      ViewFields();
      p := TakeQueues(pools);
      if params.limitOut {
        LogSend(p.size, now, pools);
      }
    }

    method ReturnQueues(p: Pdu, pools: Pools)
      requires Valid() && pools.Valid()
      modifies queue, queue.nodes, pools.pdus, pools.pdus.nodes, wtime, wtime.nodes, pools.times, pools.times.nodes
      ensures old(PduNodes(pools)) <= PduNodes(pools) && old(TimeNodes(pools)) <= TimeNodes(pools)
      ensures Valid() && pools.Valid()
      ensures var c := old(View()); View() == c.(queue := [p] + c.queue, wtimes := [c.lastST] + c.wtimes)
    {
      hide Chain, Items, NodesHeld, NodeQueue.Valid, NodeQueue.Contents, Pool.Valid;
      Owned();
      pools.Owned();
      queue.PushFront(p, pools.pdus);
      wtime.PushFront(lastST, pools.times);
    }

    method DropOldest(ghost pools: Pools)
      requires Valid() && pools.Valid() && View().log != []
      modifies this`sendSize, sendST, sendST.begin
      ensures PduNodes(pools) == old(PduNodes(pools)) && TimeNodes(pools) == old(TimeNodes(pools))
      ensures Valid() && pools.Valid()
      ensures var c := old(View()); View() == c.(log := c.log[1..], sendSize := Wrap(c.sendSize - c.log[0].size))
    {
      hide Chain, Items, PduNodes, TimeNodes, NodeQueue.Valid, NodeQueue.Contents, Pool.Valid;
      Owned();
      pools.Owned();
      sendST.First();
      sendSize := Wrap(sendSize - sendST.begin.item.size);
      sendST.DropFront();
    }

    /** Puts a PDU back at the head; the oldest send record is dropped, its node with it. Not `ok`
        when a record should be dropped and there is none.
     */
    method Return(p: Pdu, pools: Pools) returns (ok: bool)
      requires Valid() && pools.Valid()
      modifies this`sendSize, queue, queue.nodes, pools.pdus, pools.pdus.nodes
      modifies wtime, wtime.nodes, pools.times, pools.times.nodes, sendST, sendST.nodes
      ensures old(PduNodes(pools)) <= PduNodes(pools) && old(TimeNodes(pools)) <= TimeNodes(pools)
      ensures Valid() && pools.Valid() && View() == PutBack(old(View()), p)
      ensures ok == !(old(View()).params.limitOut && old(View()).log == [])
    {
      hide Valid, View, PduNodes, TimeNodes, Pools.Valid, Pools.Repr;
      ViewFields();
      ReturnQueues(p, pools);
      OldestSend();
      ok := !(params.limitOut && sendST.begin == null);
      if params.limitOut && ok {
        DropOldest(pools);
      }
    }
  }

  /** One port: how many PDUs wait on it, and its classes. */
  class PortVals {
    ghost const id: nat
    const key: nat
    var count: int
    const qosvals: seq<QosVals>

    constructor (ghost id: nat, key: nat, qosvals: seq<QosVals>)
      requires forall k :: 0 <= k < |qosvals| ==> qosvals[k].home == (id, k) && qosvals[k].Valid()
      ensures this.id == id && this.key == key && this.qosvals == qosvals && count == 0 && Valid()
    {
      hide QosVals.Valid, QosVals.Repr, QosVals.Heads;
      forall k | 0 <= k < |qosvals|
        ensures qosvals[k].Heads() <= qosvals[k].Repr() && forall o :: o in qosvals[k].Repr() ==> allocated(o)
      {
        qosvals[k].ReprHas();
        qosvals[k].ReprAllocated();
      }
      this.id, this.key, this.qosvals, count := id, key, qosvals, 0;
      new;
      ReprInFoot();
    }

    /** The classes and the heads of their lists. */
    ghost function Heads(): set<object> {
      {this} + set c: QosVals, o: object | c in qosvals && o in c.Heads() :: o
    }

    ghost function Foot(): set<object>
      reads this, Heads()
    {
      {this} + set c: QosVals, o: object | c in qosvals && o in c.Repr() :: o
    }

    ghost predicate Valid()
      reads this, Heads(), Foot()
    {
      forall k :: 0 <= k < |qosvals| ==>
        qosvals[k].Repr() <= Foot() && qosvals[k].home == (id, k) && qosvals[k].Valid()
    }

    ghost function Views(): (s: seq<Class>)
      requires Valid()
      reads this, Heads(), Foot()
      ensures |s| == |qosvals| && forall k :: 0 <= k < |s| ==> s[k] == qosvals[k].View()
    {
      seq(|qosvals|, k requires 0 <= k < |qosvals| && qosvals[k].Repr() <= Foot()
                       reads this, Heads(), Foot() => qosvals[k].View())
    }

    ghost function View(): Port
      requires Valid()
      reads this, Heads(), Foot()
    {
      Port(key, count, Views())
    }

    ghost function PduQueues(): set<NodeQueue<Pdu>> {
      set c: QosVals | c in qosvals :: c.queue
    }

    ghost function TimeQueues(): set<NodeQueue<int>> {
      set c: QosVals | c in qosvals :: c.wtime
    }

    /** The PDU nodes and the time nodes in the queues of all classes and in the free lists. */
    ghost function PduNodes(pools: Pools): set<ListNode<Pdu>>
      reads PduQueues(), pools.pdus
    {
      NodesHeld(PduQueues(), pools.pdus)
    }

    ghost function TimeNodes(pools: Pools): set<ListNode<int>>
      reads TimeQueues(), pools.times
    {
      NodesHeld(TimeQueues(), pools.times)
    }

    /** The nodes of one class apart from those of the others. */
    lemma NodesSplit(c: QosVals, pools: Pools)
      requires c in qosvals
      ensures PduNodes(pools) == c.PduNodes(pools) + NodesIn(PduQueues() - {c.queue})
      ensures TimeNodes(pools) == c.TimeNodes(pools) + NodesIn(TimeQueues() - {c.wtime})
    {
      HeldSplit({c.queue}, PduQueues(), pools.pdus);
      HeldSplit({c.wtime}, TimeQueues(), pools.times);
    }

    /** The queues of the other classes are neither in the class nor in the pools. */
    lemma QueuesApart(c: QosVals, pools: Pools, k: nat)
      requires k < |qosvals| && c == qosvals[k]
      requires forall j :: 0 <= j < |qosvals| ==> qosvals[j].Repr() !! pools.Repr()
      requires forall j :: 0 <= j < |qosvals| && j != k ==> qosvals[j].Repr() !! c.Repr()
      ensures PduQueues() - {c.queue} !! c.Repr() && PduQueues() - {c.queue} !! pools.Repr()
      ensures TimeQueues() - {c.wtime} !! c.Repr() && TimeQueues() - {c.wtime} !! pools.Repr()
      ensures forall q :: q in PduQueues() ==> allocated(q)
      ensures forall q :: q in TimeQueues() ==> allocated(q)
    {
      hide QosVals.Repr, Pools.Repr;
      forall j | 0 <= j < |qosvals|
        ensures qosvals[j].queue in qosvals[j].Repr() && qosvals[j].wtime in qosvals[j].Repr()
      {
        qosvals[j].ReprHas();
      }
    }

    /** Scanning one class touches no other. */
    method ScanClass(c: QosVals, now: int, pools: Pools, ghost k: nat)
      requires k < |qosvals| && c == qosvals[k] && pools.Valid()
      requires forall j :: 0 <= j < |qosvals| ==> qosvals[j].Valid() && qosvals[j].home == (id, j)
      modifies c.Repr(), pools.sends
      ensures pools.Valid() && forall j :: 0 <= j < |qosvals| ==> qosvals[j].Valid()
      ensures forall j :: 0 <= j < |qosvals| ==>
                qosvals[j].View() == if j == k then Touch(old(qosvals[j].View()), now) else old(qosvals[j].View())
      ensures forall j :: 0 <= j < |qosvals| ==> qosvals[j].Repr() <= old(qosvals[j].Repr())
      ensures pools.Repr() <= old(pools.Repr()) + old(c.Repr())
      ensures PduNodes(pools) == old(PduNodes(pools)) && TimeNodes(pools) == old(TimeNodes(pools))
    {
      hide QosVals.Valid, QosVals.View, QosVals.Repr, Pools.Valid;
      hide PduQueues, TimeQueues, PduNodes, TimeNodes, QosVals.PduNodes, QosVals.TimeNodes, NodesIn;
      forall j | 0 <= j < |qosvals|
        ensures (j != k ==> qosvals[j].Repr() !! c.Repr()) && qosvals[j].Repr() !! pools.Repr()
        ensures qosvals[j].Heads() <= qosvals[j].Repr() && forall o :: o in qosvals[j].Repr() ==> allocated(o)
      {
        qosvals[j].ReprAllocated();
        Apart(qosvals[j], c, pools);
        qosvals[j].ReprHas();
      }
      assert pools.sends in pools.Repr();
      QueuesApart(c, pools, k);
      NodesSplit(c, pools);
      c.Scan(now, pools);
      NodesSplit(c, pools);
    }

    /** Nothing but the class `c` shares an object with `c` or the pools. */
    lemma OthersApart(c: QosVals, pools: Pools, k: nat)
      requires k < |qosvals| && c == qosvals[k] && pools.Valid()
      requires forall j :: 0 <= j < |qosvals| ==> qosvals[j].Valid() && qosvals[j].home == (id, j)
      ensures forall j :: 0 <= j < |qosvals| ==>
                && (j != k ==> qosvals[j].Repr() !! c.Repr()) && qosvals[j].Repr() !! pools.Repr()
                && qosvals[j].Heads() <= qosvals[j].Repr() && forall o :: o in qosvals[j].Repr() ==> allocated(o)
    {
      hide QosVals.Valid, QosVals.Repr, Pools.Valid, Pools.Repr;
      forall j | 0 <= j < |qosvals|
        ensures (j != k ==> qosvals[j].Repr() !! c.Repr()) && qosvals[j].Repr() !! pools.Repr()
        ensures qosvals[j].Heads() <= qosvals[j].Repr() && forall o :: o in qosvals[j].Repr() ==> allocated(o)
      {
        qosvals[j].ReprAllocated();
        Apart(qosvals[j], c, pools);
        qosvals[j].ReprHas();
      }
    }

    method AcceptOn(c: QosVals, p: Pdu, now: int, pools: Pools, ghost k: nat)
      requires k < |qosvals| && c == qosvals[k] && pools.Valid()
      requires forall j :: 0 <= j < |qosvals| ==> qosvals[j].Valid() && qosvals[j].home == (id, j)
      modifies c.Repr(), pools.Repr()
      ensures old(PduNodes(pools)) <= PduNodes(pools) && old(TimeNodes(pools)) <= TimeNodes(pools)
      ensures pools.Valid() && forall j :: 0 <= j < |qosvals| ==> qosvals[j].Valid()
      ensures forall j :: 0 <= j < |qosvals| ==>
                qosvals[j].View() == if j == k then Append(old(qosvals[j].View()), p, now) else old(qosvals[j].View())
    {
      hide QosVals.Valid, QosVals.View, QosVals.Repr, Pools.Valid, Pools.Repr, QosVals.Heads;
      hide PduQueues, TimeQueues, PduNodes, TimeNodes, QosVals.PduNodes, QosVals.TimeNodes, NodesIn;
      OthersApart(c, pools, k);
      c.ReprHas();
      pools.ReprHas();
      QueuesApart(c, pools, k);
      NodesSplit(c, pools);
      c.Accept(p, now, pools);
      NodesSplit(c, pools);
    }

    method TakeOn(c: QosVals, now: int, pools: Pools, ghost k: nat) returns (p: Pdu)
      requires k < |qosvals| && c == qosvals[k] && pools.Valid()
      requires forall j :: 0 <= j < |qosvals| ==> qosvals[j].Valid() && qosvals[j].home == (id, j)
      requires c.View().queue != [] && c.View().wtimes != []
      modifies c.Repr(), pools.Repr()
      ensures old(PduNodes(pools)) <= PduNodes(pools) && old(TimeNodes(pools)) <= TimeNodes(pools)
      ensures pools.Valid() && forall j :: 0 <= j < |qosvals| ==> qosvals[j].Valid()
      ensures p == old(c.View()).queue[0]
      ensures forall j :: 0 <= j < |qosvals| ==>
                qosvals[j].View() == if j == k then Take(old(qosvals[j].View()), now) else old(qosvals[j].View())
    {
      hide QosVals.Valid, QosVals.View, QosVals.Repr, Pools.Valid, Pools.Repr, QosVals.Heads;
      hide PduQueues, TimeQueues, PduNodes, TimeNodes, QosVals.PduNodes, QosVals.TimeNodes, NodesIn;
      OthersApart(c, pools, k);
      c.ReprHas();
      pools.ReprHas();
      QueuesApart(c, pools, k);
      NodesSplit(c, pools);
      p := c.TakeHead(now, pools);
      NodesSplit(c, pools);
    }

    method ReturnOn(c: QosVals, p: Pdu, pools: Pools, ghost k: nat) returns (ok: bool)
      requires k < |qosvals| && c == qosvals[k] && pools.Valid()
      requires forall j :: 0 <= j < |qosvals| ==> qosvals[j].Valid() && qosvals[j].home == (id, j)
      modifies c.Repr(), pools.Repr()
      ensures old(PduNodes(pools)) <= PduNodes(pools) && old(TimeNodes(pools)) <= TimeNodes(pools)
      ensures ok == !(old(c.View()).params.limitOut && old(c.View()).log == [])
      ensures pools.Valid() && forall j :: 0 <= j < |qosvals| ==> qosvals[j].Valid()
      ensures forall j :: 0 <= j < |qosvals| ==>
                qosvals[j].View() == if j == k then PutBack(old(qosvals[j].View()), p) else old(qosvals[j].View())
    {
      hide QosVals.Valid, QosVals.View, QosVals.Repr, Pools.Valid, Pools.Repr, QosVals.Heads;
      hide PduQueues, TimeQueues, PduNodes, TimeNodes, QosVals.PduNodes, QosVals.TimeNodes, NodesIn;
      OthersApart(c, pools, k);
      c.ReprHas();
      pools.ReprHas();
      QueuesApart(c, pools, k);
      NodesSplit(c, pools);
      ok := c.Return(p, pools);
      NodesSplit(c, pools);
    }

    lemma ReprInFoot()
      ensures forall k :: 0 <= k < |qosvals| ==> qosvals[k].Repr() <= Foot()
      ensures forall k :: 0 <= k < |qosvals| ==> qosvals[k].Heads() <= Heads()
    {
    }

    lemma QueuesInFoot()
      ensures PduQueues() <= Foot() && TimeQueues() <= Foot()
      ensures forall q :: q in PduQueues() ==> allocated(q)
      ensures forall q :: q in TimeQueues() ==> allocated(q)
    {
      hide QosVals.Repr;
      forall c: QosVals | c in qosvals ensures c.queue in c.Repr() && c.wtime in c.Repr() {
        c.ReprHas();
      }
    }

    /** Validity and view, class by class. */
    lemma Assemble(cs: seq<Class>)
      requires |cs| == |qosvals|
      requires forall k :: 0 <= k < |qosvals| ==>
                 qosvals[k].home == (id, k) && qosvals[k].Valid() && qosvals[k].View() == cs[k]
      ensures Valid() && View() == Port(key, count, cs)
    {
      hide QosVals.Valid, QosVals.View, Foot;
      ReprInFoot();
    }

    lemma Disassemble()
      requires Valid()
      ensures |View().classes| == |qosvals| && View().key == key && View().count == count
      ensures forall k :: 0 <= k < |qosvals| ==>
                && qosvals[k].home == (id, k) && qosvals[k].Valid() && qosvals[k].View() == View().classes[k]
                && qosvals[k].key == View().classes[k].key && qosvals[k].params == View().classes[k].params
    {
      hide QosVals.Valid, Foot;
    }

    /** The first class with the key, or null. */
    method FindQos(qos: nat) returns (c: QosVals?, ghost k: nat)
      requires Valid()
      ensures Valid() && k == FindClass(View().classes, qos)
      ensures c == if k < |qosvals| then qosvals[k] else null
      ensures c != null ==> c.key == qos
    {
      hide *;
      Disassemble();
      ghost var cs := View().classes;
      for i := 0 to |qosvals|
        invariant forall j :: 0 <= j < i ==> cs[j].key != qos
      {
        if qosvals[i].key == qos {
          FirstClass(cs, qos, i);
          return qosvals[i], i;
        }
      }
      FirstClass(cs, qos, |qosvals|);
      return null, |qosvals|;
    }

    /** Appends an accepted PDU to the class. */
    method Enqueue(c: QosVals, p: Pdu, now: int, pools: Pools, ghost k: nat)
      requires Valid() && pools.Valid() && k < |qosvals| && c == qosvals[k]
      modifies Foot(), pools.Repr()
      ensures old(PduNodes(pools)) <= PduNodes(pools) && old(TimeNodes(pools)) <= TimeNodes(pools)
      ensures Valid() && pools.Valid() && View() == EnqueueAt(old(View()), k, p, now)
    {
      hide Valid, View, Foot, QosVals.Valid, QosVals.View, QosVals.Repr, Pools.Valid, Pools.Repr, Heads;
      hide PduQueues, TimeQueues, PduNodes, TimeNodes;
      hide QosVals.Heads, Append;
      Disassemble();
      ReprInFoot();
      ghost var cs := View().classes;
      CountApart(pools);
      count := count + 1;
      AcceptOn(c, p, now, pools, k);
      Assemble(cs[k := Append(cs[k], p, now)]);
    }

    /** The counter of the port is not part of any class or pool. */
    lemma CountApart(pools: Pools)
      ensures this !in pools.Repr()
      ensures forall k :: 0 <= k < |qosvals| ==> this !in qosvals[k].Repr() && this !in qosvals[k].Heads()
      ensures this in Foot()
      ensures {this} !! PduQueues() && {this} !! TimeQueues()
    {
    }

    /** Puts a PDU back at the head of the class. */
    method Requeue(c: QosVals, p: Pdu, pools: Pools, ghost k: nat) returns (ok: bool)
      requires Valid() && pools.Valid() && k < |qosvals| && c == qosvals[k]
      modifies Foot(), pools.Repr()
      ensures old(PduNodes(pools)) <= PduNodes(pools) && old(TimeNodes(pools)) <= TimeNodes(pools)
      ensures ok == !(old(View()).classes[k].params.limitOut && old(View()).classes[k].log == [])
      ensures Valid() && pools.Valid() && View() == RequeueAt(old(View()), k, p)
    {
      hide Valid, View, Foot, QosVals.Valid, QosVals.View, QosVals.Repr, Pools.Valid, Pools.Repr, Heads;
      hide PduQueues, TimeQueues, PduNodes, TimeNodes;
      hide QosVals.Heads, PutBack;
      Disassemble();
      ReprInFoot();
      ghost var cs := View().classes;
      CountApart(pools);
      count := count + 1;
      ok := ReturnOn(c, p, pools, k);
      Assemble(cs[k := PutBack(cs[k], p)]);
    }

    /** The scan over all classes: expires send logs and finds the most urgent class. */
    method ScanAll(now: int, pools: Pools) returns (best: QosVals?, ghost b: nat)
      requires Valid() && pools.Valid() && AllPaired(View())
      modifies Foot(), pools.Repr()
      ensures PduNodes(pools) == old(PduNodes(pools)) && TimeNodes(pools) == old(TimeNodes(pools))
      ensures Valid() && pools.Valid()
      ensures View() == old(View()).(classes := TouchAll(old(View()).classes, now))
      ensures b == Chosen(old(View()), now)
      ensures if b < |qosvals| then best == qosvals[b] else best == null
      ensures Foot() <= old(Foot()) && pools.Repr() <= old(pools.Repr()) + old(Foot())
    {
      hide Valid, View, QosVals.Valid, QosVals.View, QosVals.Repr, Pools.Valid, Pools.Repr, Heads, QosVals.Heads, Foot;
      hide PduQueues, TimeQueues, PduNodes, TimeNodes;
      hide Touch, Eligible, Slack, Best;
      Disassemble();
      ReprInFoot();
      CountApart(pools);
      ghost var port := View();
      ghost var cs0, cs := port.classes, TouchAll(port.classes, now);
      TouchedPaired(port, now);
      BestFirst(cs, now);
      var least := KTIME_MAX;
      best, b := null, |qosvals|;
      for i := 0 to |qosvals|
        invariant pools.Valid() && forall j :: 0 <= j < |qosvals| ==> qosvals[j].Valid() && qosvals[j].home == (id, j)
        invariant forall j :: 0 <= j < |qosvals| ==> qosvals[j].View() == if j < i then cs[j] else cs0[j]
        invariant (b, least) == Best(cs, i, now)
        invariant if b < |qosvals| then best == qosvals[b] else best == null
        invariant forall j :: 0 <= j < |qosvals| ==> qosvals[j].Repr() <= old(qosvals[j].Repr())
        invariant pools.Repr() <= old(pools.Repr()) + old(Foot())
        invariant count == old(count)
        invariant PduNodes(pools) == old(PduNodes(pools)) && TimeNodes(pools) == old(TimeNodes(pools))
      {
        var c := qosvals[i];
        BestNext(cs, i, now);
        pools.ReprHas();
        ScanClass(c, now, pools, i);
        var verdict := c.Judge(now);
        if verdict.0 && verdict.1 < least {
          least := verdict.1;
          best, b := c, i;
        }
      }
      Assemble(cs);
      FootShrinks(old(Foot()));
    }

    lemma FootShrinks(f: set<object>)
      requires this in f && forall j :: 0 <= j < |qosvals| ==> qosvals[j].Repr() <= f
      ensures Foot() <= f
    {
    }

    /** Takes the PDU of the most urgent class, if there is one. */
    method Dequeue(now: int, pools: Pools) returns (r: Outcome)
      requires Valid() && pools.Valid() && AllPaired(View())
      modifies Foot(), pools.Repr()
      ensures old(PduNodes(pools)) <= PduNodes(pools) && old(TimeNodes(pools)) <= TimeNodes(pools)
      ensures Valid() && pools.Valid() && View() == DeltaQSpec.Dequeue(old(View()), now)
      ensures var port, b := old(View()), Chosen(old(View()), now);
              if b < |port.classes| then port.classes[b].queue != [] && r == Got(port.classes[b].queue[0])
              else r == NoPdu
    {
      hide Valid, View, QosVals.Valid, QosVals.View, QosVals.Repr, Pools.Valid, Pools.Repr, Heads, QosVals.Heads, Foot;
      hide PduQueues, TimeQueues, PduNodes, TimeNodes;
      hide Touch, Take, Chosen;
      ghost var port := View();
      DequeueValues(port, now);
      Disassemble();
      var best, b := ScanAll(now, pools);
      if best == null { return NoPdu; }
      Disassemble();
      ReprInFoot();
      CountApart(pools);
      ghost var cs := View().classes;
      var p := TakeOn(best, now, pools, b);
      CountApart(pools);
      count := count - 1;
      Assemble(cs[b := Take(cs[b], now)]);
      r := Got(p);
    }
  }

  /** The value a dequeue leads to, with the PDU it takes. */
  lemma DequeueValues(port: Port, now: int)
    requires AllPaired(port)
    ensures var cs, b := TouchAll(port.classes, now), Chosen(port, now);
            && (b == |cs| ==> DeltaQSpec.Dequeue(port, now) == port.(classes := cs))
            && (b < |cs| ==>
                  && cs[b].queue != [] && cs[b].wtimes != [] && cs[b].queue[0] == port.classes[b].queue[0]
                  && port.classes[b].queue != []
                  && DeltaQSpec.Dequeue(port, now) ==
                     port.(count := port.count - 1, classes := cs[b := Take(cs[b], now)]))
  {
    DequeueIs(port, now);
    if Chosen(port, now) < |port.classes| {
      ExpireKeeps(port.classes[Chosen(port, now)], now - port.classes[Chosen(port, now)].params.oBurstT);
    }
  }

  /** Ports with different numbers share no object, and none with the pools. */
  lemma PortsApart(p: PortVals, q: PortVals, pools: Pools)
    requires p.Valid() && q.Valid() && pools.Valid()
    ensures p.id != q.id ==> p.Foot() !! q.Foot()
    ensures p.Foot() !! pools.Repr()
    ensures p.Heads() <= p.Foot() && forall o :: o in p.Foot() ==> allocated(o)
  {
    hide QosVals.Valid, QosVals.Repr, Pools.Valid, Pools.Repr, QosVals.Heads;
    p.Disassemble();
    q.Disassemble();
    p.CountApart(pools);
    q.CountApart(pools);
    forall c: QosVals | c in p.qosvals
      ensures c.Repr() !! pools.Repr() && c.Heads() <= c.Repr() && p !in c.Repr() && q !in c.Repr()
      ensures forall o :: o in c.Repr() ==> allocated(o)
    {
      Apart(c, c, pools);
      c.ReprHas();
      c.ReprAllocated();
      NotInRepr(p, c);
      NotInRepr(q, c);
    }
    forall d: QosVals | d in q.qosvals ensures p !in d.Repr() {
      NotInRepr(p, d);
    }
    forall c: QosVals, d: QosVals | c in p.qosvals && d in q.qosvals && p.id != q.id
      ensures c.Repr() !! d.Repr()
    {
      Apart(c, d, pools);
    }
  }

  lemma NotInRepr(p: PortVals, c: QosVals)
    ensures p !in c.Repr()
  {
  }

  /** All ports, and the pools they share. */
  class Scheduler {
    const ports: seq<PortVals>
    const pools: Pools

    constructor (ports: seq<PortVals>, pools: Pools, ghost ps: seq<Port>)
      requires pools.Valid() && |ps| == |ports|
      requires forall i :: 0 <= i < |ports| ==> ports[i].id == i && ports[i].Valid() && ports[i].View() == ps[i]
      ensures this.ports == ports && this.pools == pools && Holds(ps)
    {
      hide PortVals.Valid, PortVals.View, Pools.Valid, Pools.Repr, PortVals.Foot, PortVals.Heads;
      forall i | 0 <= i < |ports|
        ensures ports[i].Heads() <= ports[i].Foot() && forall o :: o in ports[i].Foot() ==> allocated(o)
      {
        PortsApart(ports[i], ports[i], pools);
      }
      pools.ReprAllocated();
      this.ports, this.pools := ports, pools;
      new;
      FootHas();
    }

    ghost function Heads(): set<object> {
      set p: PortVals, o: object | p in ports && o in p.Heads() :: o
    }

    ghost function Foot(): set<object>
      reads Heads()
    {
      HeadsHave();
      set p: PortVals, o: object | p in ports && p.Heads() <= Heads() && o in p.Foot() :: o
    }

    lemma HeadsHave()
      ensures forall p :: p in ports ==> p.Heads() <= Heads()
    {
    }

    /** The objects are in order and hold the ports `ps`. */
    ghost predicate Holds(ps: seq<Port>)
      reads this, Heads(), Foot(), pools, pools.pdus, pools.times, pools.sends, pools.Repr()
    {
      && pools.Valid() && |ps| == |ports|
      && forall i :: 0 <= i < |ports| ==>
           && ports[i].Heads() <= Heads() && ports[i].Foot() <= Foot()
           && ports[i].id == i && ports[i].Valid() && ports[i].View() == ps[i]
    }

    ghost function PduQueues(): set<NodeQueue<Pdu>> {
      set p: PortVals, q: NodeQueue<Pdu> | p in ports && q in p.PduQueues() :: q
    }

    ghost function TimeQueues(): set<NodeQueue<int>> {
      set p: PortVals, q: NodeQueue<int> | p in ports && q in p.TimeQueues() :: q
    }

    /** The PDU nodes and the time nodes in the queues of all ports and in the free lists. */
    ghost function PduNodes(): set<ListNode<Pdu>>
      reads PduQueues(), pools.pdus
    {
      NodesHeld(PduQueues(), pools.pdus)
    }

    ghost function TimeNodes(): set<ListNode<int>>
      reads TimeQueues(), pools.times
    {
      NodesHeld(TimeQueues(), pools.times)
    }

    lemma FootHas()
      ensures forall i :: 0 <= i < |ports| ==>
                ports[i] in Heads() && ports[i].Heads() <= Heads() && ports[i].Foot() <= Foot()
    {
      forall i | 0 <= i < |ports| ensures ports[i] in ports[i].Heads() {}
    }

    lemma Keys(ps: seq<Port>)
      requires Holds(ps)
      ensures |ps| == |ports| && pools.Valid()
      ensures forall i :: 0 <= i < |ports| ==>
                ports[i].key == ps[i].key && ports[i].id == i && ports[i].Valid() && ports[i].View() == ps[i]
    {
      hide PortVals.Valid, PortVals.View, Pools.Valid, Foot, PortVals.Foot, Heads, PortVals.Heads;
      forall i | 0 <= i < |ports| ensures ports[i].View().key == ports[i].key {
        ports[i].Disassemble();
      }
    }

    /** Nothing of port `i` is shared with another port. */
    lemma Fence(i: nat, ps: seq<Port>)
      requires Holds(ps) && i < |ports|
      ensures forall j :: 0 <= j < |ports| && j != i ==> ports[j].Foot() !! ports[i].Foot()
    {
      hide *;
      Keys(ps);
      forall j | 0 <= j < |ports| && j != i ensures ports[j].Foot() !! ports[i].Foot() {
        PortsApart(ports[j], ports[i], pools);
      }
    }

    /** Nothing of a port is shared with the pools. */
    lemma PoolFence(ps: seq<Port>)
      requires Holds(ps)
      ensures forall j :: 0 <= j < |ports| ==>
                && ports[j].Foot() !! pools.Repr() && ports[j].Heads() <= ports[j].Foot() && ports[j] in ports[j].Foot()
                && forall o :: o in ports[j].Foot() ==> allocated(o)
    {
      hide *;
      Keys(ps);
      forall j | 0 <= j < |ports|
        ensures ports[j].Foot() !! pools.Repr() && ports[j].Heads() <= ports[j].Foot() && ports[j] in ports[j].Foot()
        ensures forall o :: o in ports[j].Foot() ==> allocated(o)
      {
        PortsApart(ports[j], ports[j], pools);
        ports[j].CountApart(pools);
      }
    }

    /** The nodes of one port apart from those of the others. */
    lemma NodesSplit(p: PortVals)
      requires p in ports
      ensures PduNodes() == p.PduNodes(pools) + NodesIn(PduQueues() - p.PduQueues())
      ensures TimeNodes() == p.TimeNodes(pools) + NodesIn(TimeQueues() - p.TimeQueues())
    {
      HeldSplit(p.PduQueues(), PduQueues(), pools.pdus);
      HeldSplit(p.TimeQueues(), TimeQueues(), pools.times);
    }

    /** The queues of the other ports are neither in port `i` nor in the pools. */
    lemma QueuesApart(i: nat, ps: seq<Port>)
      requires Holds(ps) && i < |ports|
      ensures PduQueues() - ports[i].PduQueues() !! ports[i].Foot()
      ensures PduQueues() - ports[i].PduQueues() !! pools.Repr()
      ensures TimeQueues() - ports[i].TimeQueues() !! ports[i].Foot()
      ensures TimeQueues() - ports[i].TimeQueues() !! pools.Repr()
    {
      hide Holds, PortVals.Foot, Pools.Repr, PortVals.PduQueues, PortVals.TimeQueues;
      Fence(i, ps);
      PoolFence(ps);
      forall p: PortVals | p in ports ensures p.PduQueues() <= p.Foot() && p.TimeQueues() <= p.Foot() {
        p.QueuesInFoot();
      }
    }

    lemma AllAllocated(ps: seq<Port>)
      requires Holds(ps)
      ensures forall o :: o in Heads() ==> allocated(o)
      ensures forall o :: o in Foot() ==> allocated(o)
      ensures forall o :: o in pools.Repr() ==> allocated(o)
      ensures forall q :: q in PduQueues() ==> allocated(q)
      ensures forall q :: q in TimeQueues() ==> allocated(q)
      ensures pools.pdus in pools.Repr() && pools.times in pools.Repr() && pools.sends in pools.Repr()
    {
      hide Holds, PortVals.Valid, PortVals.View, PortVals.Foot, PortVals.Heads, Pools.Valid, Pools.Repr;
      hide PortVals.PduQueues, PortVals.TimeQueues;
      Keys(ps);
      forall j | 0 <= j < |ports|
        ensures ports[j].Heads() <= ports[j].Foot() && forall o :: o in ports[j].Foot() ==> allocated(o)
        ensures forall q :: q in ports[j].PduQueues() ==> allocated(q)
        ensures forall q :: q in ports[j].TimeQueues() ==> allocated(q)
      {
        ports[j].QueuesInFoot();
        PortsApart(ports[j], ports[j], pools);
      }
      pools.ReprAllocated();
      pools.ReprHas();
    }

    /** Every PDU node and every time node is in one queue of one class of one port, or in the
        free list, and nowhere else.
     */
    lemma NodeHomes(ps: seq<Port>)
      requires Holds(ps)
      ensures forall n, q, r :: q in PduQueues() && r in PduQueues() && n in q.nodes && n in r.nodes ==> q == r
      ensures forall n, q :: q in PduQueues() && n in q.nodes ==> n !in pools.pdus.nodes
      ensures forall n, q, r :: q in TimeQueues() && r in TimeQueues() && n in q.nodes && n in r.nodes ==> q == r
      ensures forall n, q :: q in TimeQueues() && n in q.nodes ==> n !in pools.times.nodes
    {
    }

    /** The index of the first port with the key, or the number of ports. */
    method FindPortVals(id: nat, ghost ps: seq<Port>) returns (i: nat)
      requires Holds(ps)
      ensures Holds(ps) && i == FindPort(ps, id) <= |ports|
    {
      hide *;
      AllAllocated(ps);
      Keys(ps);
      for n := 0 to |ports|
        invariant forall j :: 0 <= j < n ==> ps[j].key != id
      {
        if ports[n].key == id {
          FirstPort(ps, id, n);
          return n;
        }
      }
      FirstPort(ps, id, |ports|);
      return |ports|;
    }

    lemma Assemble(ps: seq<Port>)
      requires pools.Valid() && |ps| == |ports|
      requires forall i :: 0 <= i < |ports| ==> ports[i].id == i && ports[i].Valid() && ports[i].View() == ps[i]
      ensures Holds(ps)
    {
      hide PortVals.Valid, Pools.Valid, PortVals.View, Foot, PortVals.Foot, Heads, PortVals.Heads;
      FootHas();
    }

    method EnqueueOn(i: nat, c: QosVals, p: Pdu, now: int, ghost k: nat, ghost ps: seq<Port>)
      requires Holds(ps) && i < |ports| && k < |ports[i].qosvals| && c == ports[i].qosvals[k] && k < |ps[i].classes|
      modifies ports[i].Foot(), pools.Repr()
      ensures old(PduNodes()) <= PduNodes() && old(TimeNodes()) <= TimeNodes()
      ensures Holds(ps[i := EnqueueAt(ps[i], k, p, now)])
    {
      hide *;
      Keys(ps);
      Fence(i, ps);
      PoolFence(ps);
      AllAllocated(ps);
      QueuesApart(i, ps);
      NodesSplit(ports[i]);
      ports[i].Enqueue(c, p, now, pools, k);
      NodesSplit(ports[i]);
      Assemble(ps[i := EnqueueAt(ps[i], k, p, now)]);
    }

    method RequeueOn(i: nat, c: QosVals, p: Pdu, ghost k: nat, ghost ps: seq<Port>, ghost after: seq<Port>)
      returns (ok: bool)
      requires i < |ps| && k < |ps[i].classes|
      requires after == ps[i := RequeueAt(ps[i], k, p)]
      requires i < |ports| && k < |ports[i].qosvals| && c == ports[i].qosvals[k] && Holds(ps)
      modifies ports[i].Foot(), pools.Repr()
      ensures old(PduNodes()) <= PduNodes() && old(TimeNodes()) <= TimeNodes()
      ensures Holds(after) && ok == !(ps[i].classes[k].params.limitOut && ps[i].classes[k].log == [])
    {
      hide *;
      Keys(ps);
      Fence(i, ps);
      PoolFence(ps);
      AllAllocated(ps);
      QueuesApart(i, ps);
      NodesSplit(ports[i]);
      ok := ports[i].Requeue(c, p, pools, k);
      NodesSplit(ports[i]);
      Assemble(after);
    }

    method DequeueOn(i: nat, now: int, ghost ps: seq<Port>, ghost after: seq<Port>) returns (r: Outcome)
      requires i < |ps| && AllPaired(ps[i]) && after == ps[i := DeltaQSpec.Dequeue(ps[i], now)]
      requires i < |ports| && Holds(ps)
      modifies ports[i].Foot(), pools.Repr()
      ensures old(PduNodes()) <= PduNodes() && old(TimeNodes()) <= TimeNodes()
      ensures Holds(after)
      ensures var b := Chosen(ps[i], now);
              if b < |ps[i].classes| then ps[i].classes[b].queue != [] && r == Got(ps[i].classes[b].queue[0])
              else r == NoPdu
    {
      hide *;
      Keys(ps);
      Fence(i, ps);
      PoolFence(ps);
      AllAllocated(ps);
      QueuesApart(i, ps);
      NodesSplit(ports[i]);
      r := ports[i].Dequeue(now, pools);
      NodesSplit(ports[i]);
      Assemble(after);
    }

    /** Finds the class of a PDU on a port. */
    method Locate(i: nat, qos: nat, ghost ps: seq<Port>) returns (c: QosVals?, ghost k: nat)
      requires Holds(ps) && i < |ports|
      ensures Holds(ps) && k == FindClass(ps[i].classes, qos) && |ps[i].classes| == |ports[i].qosvals|
      ensures c == if FindClass(ps[i].classes, qos) < |ps[i].classes|
              then ports[i].qosvals[FindClass(ps[i].classes, qos)] else null
    {
      hide *;
      Keys(ps);
      AllAllocated(ps);
      PoolFence(ps);
      ports[i].Disassemble();
      c, k := ports[i].FindQos(qos);
    }

    /** Accepts the PDU, unless its port or class is unknown or the environment drops it. */
    method Enqueue(port: nat, p: Pdu, now: int, drop: bool, ghost ps: seq<Port>) returns (res: int)
      requires Holds(ps) && Enabled(ps, Enq(port, p, now, drop))
      modifies Foot(), pools.Repr()
      ensures old(PduNodes()) <= PduNodes() && old(TimeNodes()) <= TimeNodes()
      ensures Holds(Step(ps, Enq(port, p, now, drop))) && res == EnqueueResult(ps, port, p, drop)
    {
      hide *;
      Keys(ps);
      FootHas();
      AllAllocated(ps);
      StepEnq(ps, port, p, now, drop);
      var i := FindPortVals(port, ps);
      if i == |ports| { return -1; }
      var c, k := Locate(i, p.qos, ps);
      if c == null { return -1; }
      if drop { return 1; }
      EnqueueOn(i, c, p, now, k, ps);
      res := 0;
    }

    /** Takes the most urgent PDU of the port. */
    method Dequeue(port: nat, now: int, ghost ps: seq<Port>) returns (r: Outcome)
      requires Holds(ps) && Enabled(ps, Deq(port, now))
      modifies Foot(), pools.Repr()
      ensures old(PduNodes()) <= PduNodes() && old(TimeNodes()) <= TimeNodes()
      ensures Holds(Step(ps, Deq(port, now)))
      ensures r == DequeueResult(ps, port, now)
    {
      hide *;
      Keys(ps);
      FootHas();
      AllAllocated(ps);
      StepDeq(ps, port, now);
      var i := FindPortVals(port, ps);
      if i == |ports| { return BadPort; }
      r := DequeueOn(i, now, ps, Step(ps, Deq(port, now)));
    }

    /** Puts the PDU back at the head of its class; on a limited class without a send record the
        call ends in a read through a null pointer.
     */
    method Requeue(port: nat, p: Pdu, ghost ps: seq<Port>) returns (r: Returned)
      requires Holds(ps) && PairedPorts(ps)
      modifies Foot(), pools.Repr()
      ensures old(PduNodes()) <= PduNodes() && old(TimeNodes()) <= TimeNodes()
      ensures Holds(Step(ps, Req(port, p)))
      ensures r == if Faults(ps, Req(port, p)) then NullRead else Code(EnqueueResult(ps, port, p, false))
    {
      hide *;
      Keys(ps);
      FootHas();
      AllAllocated(ps);
      StepReq(ps, port, p);
      var i := FindPortVals(port, ps);
      if i == |ports| { return Code(-1); }
      var c, k := Locate(i, p.qos, ps);
      if c == null { return Code(-1); }
      var ok := RequeueOn(i, c, p, k, ps, Step(ps, Req(port, p)));
      r := if ok then Code(0) else NullRead;
    }
  }

  /** What a step and its result code are, case by case. */
  lemma StepEnq(ps: seq<Port>, port: nat, p: Pdu, now: int, drop: bool)
    requires Enabled(ps, Enq(port, p, now, drop))
    ensures var i, after := FindPort(ps, port), Step(ps, Enq(port, p, now, drop));
            if i == |ps| then after == ps && EnqueueResult(ps, port, p, drop) == -1
            else
              var k := FindClass(ps[i].classes, p.qos);
              if k == |ps[i].classes| then after == ps && EnqueueResult(ps, port, p, drop) == -1
              else if drop then after == ps && EnqueueResult(ps, port, p, drop) == 1
              else after == ps[i := EnqueueAt(ps[i], k, p, now)] && EnqueueResult(ps, port, p, drop) == 0
  {
  }

  lemma StepDeq(ps: seq<Port>, port: nat, now: int)
    requires Enabled(ps, Deq(port, now))
    ensures PairedPorts(ps)
    ensures var i, after := FindPort(ps, port), Step(ps, Deq(port, now));
            if i == |ps| then after == ps && DequeueResult(ps, port, now) == BadPort
            else
              && AllPaired(ps[i]) && after == ps[i := DeltaQSpec.Dequeue(ps[i], now)]
              && var b := Chosen(ps[i], now);
                 && (b < |ps[i].classes| ==> ps[i].classes[b].queue != [])
                 && DequeueResult(ps, port, now) ==
                    if b < |ps[i].classes| then Got(ps[i].classes[b].queue[0]) else NoPdu
  {
    if FindPort(ps, port) < |ps| { DequeueValues(ps[FindPort(ps, port)], now); }
  }

  lemma StepReq(ps: seq<Port>, port: nat, p: Pdu)
    requires PairedPorts(ps)
    ensures var i, after := FindPort(ps, port), Step(ps, Req(port, p));
            if i == |ps| then after == ps && !Faults(ps, Req(port, p)) && EnqueueResult(ps, port, p, false) == -1
            else
              var k := FindClass(ps[i].classes, p.qos);
              if k == |ps[i].classes| then
                after == ps && !Faults(ps, Req(port, p)) && EnqueueResult(ps, port, p, false) == -1
              else
                && (Faults(ps, Req(port, p)) <==> ps[i].classes[k].params.limitOut && ps[i].classes[k].log == [])
                && after == ps[i := RequeueAt(ps[i], k, p)] && EnqueueResult(ps, port, p, false) == 0
  {
  }

  /** What a dequeue hands back: the head of the chosen class. */
  function DequeueResult(ps: seq<Port>, port: nat, now: int): Outcome
    requires Enabled(ps, Deq(port, now))
  {
    var i := FindPort(ps, port);
    if i == |ps| then BadPort
    else
      var b := Chosen(ps[i], now);
      DequeueValues(ps[i], now);
      if b < |ps[i].classes| then Got(ps[i].classes[b].queue[0]) else NoPdu
  }

  /** The result code of an enqueue. */
  function EnqueueResult(ps: seq<Port>, port: nat, p: Pdu, drop: bool): int {
    var i := FindPort(ps, port);
    if i == |ps| || FindClass(ps[i].classes, p.qos) == |ps[i].classes| then -1 else if drop then 1 else 0
  }
}
