/** The DeltaQ output scheduler as a function on values: ports with QoS classes, each with
    a queue of PDUs, a parallel queue of their enqueue times, and a log of recent sends.
 */
module DeltaQSpec {
  const U32 := 0x1_0000_0000
  const KTIME_MAX := 0x7fff_ffff_ffff_ffff

  type Size = n: int | 0 <= n < U32

  /** Reduction to 32 bits, the width of `send_size`. */
  function Wrap(n: int): (r: Size)
    ensures 0 <= n < U32 ==> r == n
  {
    n % U32
  }

  /** A PDU: which one it is, the class it asks for and the size of its buffer. */
  datatype Pdu = Pdu(tag: nat, qos: nat, size: Size)

  datatype Params = Params(limitOut: bool, oBurstT: int, oBurstS: Size, oExWaitT: int, oMulOver: int)

  datatype Send = Send(size: Size, time: int)

  datatype Class = Class(key: nat, params: Params, queue: seq<Pdu>, wtimes: seq<int>,
                         log: seq<Send>, sendSize: Size, lastST: int)

  datatype Port = Port(key: nat, count: int, classes: seq<Class>)

  // ---------- looking up ----------

  /** Index of the first class with the key, or the number of classes. */
  function FindClass(cs: seq<Class>, qos: nat): (i: nat)
    ensures i <= |cs|
    ensures i < |cs| ==> cs[i].key == qos
    ensures forall j :: 0 <= j < i ==> cs[j].key != qos
  {
    if cs == [] || cs[0].key == qos then 0 else 1 + FindClass(cs[1..], qos)
  }

  function FindPort(ps: seq<Port>, id: nat): (i: nat)
    ensures i <= |ps|
    ensures i < |ps| ==> ps[i].key == id
    ensures forall j :: 0 <= j < i ==> ps[j].key != id
  {
    if ps == [] || ps[0].key == id then 0 else 1 + FindPort(ps[1..], id)
  }

  // ---------- enqueue ----------

  function Append(c: Class, p: Pdu, now: int): Class {
    c.(queue := c.queue + [p], wtimes := c.wtimes + [now])
  }

  function EnqueueAt(port: Port, i: nat, p: Pdu, now: int): Port
    requires i < |port.classes|
  {
    port.(count := port.count + 1, classes := port.classes[i := Append(port.classes[i], p, now)])
  }

  // ---------- dequeue ----------

  /** Forgets the sends before `limit`. */
  function Expire(c: Class, limit: int): Class
    decreases |c.log|
  {
    if c.log == [] || c.log[0].time >= limit then c
    else Expire(c.(log := c.log[1..], sendSize := Wrap(c.sendSize - c.log[0].size)), limit)
  }

  /** What the scan does to a class it passes. */
  function Touch(c: Class, now: int): Class {
    if c.queue != [] && c.params.limitOut then Expire(c, now - c.params.oBurstT) else c
  }

  /** The 32-bit test of the burst limit. */
  predicate Admits(c: Class, size: Size) {
    Wrap(c.sendSize + size) <= c.params.oBurstS
  }

  predicate Eligible(c: Class) {
    c.queue != [] && (c.params.limitOut ==> Admits(c, c.queue[0].size))
  }

  /** Time left before the head is late, scaled. */
  function Slack(c: Class, now: int): int
    requires c.wtimes != []
  {
    var t := c.params.oExWaitT - now + c.wtimes[0];
    if t < 0 then t * c.params.oMulOver else t * 100
  }

  /** As many enqueue times as PDUs. */
  predicate Paired(c: Class) {
    |c.queue| == |c.wtimes|
  }

  /** The class chosen among the first `n`, and the least slack so far. */
  function Best(cs: seq<Class>, n: nat, now: int): (r: (nat, int))
    requires n <= |cs| && forall j :: 0 <= j < n ==> Paired(cs[j])
    ensures r.0 <= |cs| && (r.0 < |cs| ==> r.0 < n)
  {
    if n == 0 then (|cs|, KTIME_MAX)
    else
      var b := Best(cs, n - 1, now);
      var c := cs[n - 1];
      assert Paired(c);
      if Eligible(c) && Slack(c, now) < b.1 then (n - 1, Slack(c, now)) else b
  }

  /** Takes the head of the class. */
  function Take(c: Class, now: int): Class
    requires c.queue != [] && c.wtimes != []
  {
    var c' := c.(queue := c.queue[1..], wtimes := c.wtimes[1..], lastST := c.wtimes[0]);
    if c.params.limitOut then
      c'.(log := c.log + [Send(c.queue[0].size, now)], sendSize := Wrap(c.sendSize + c.queue[0].size))
    else c'
  }

  function TouchAll(cs: seq<Class>, now: int): (r: seq<Class>)
    ensures |r| == |cs| && forall j :: 0 <= j < |cs| ==> r[j] == Touch(cs[j], now)
  {
    seq(|cs|, j requires 0 <= j < |cs| => Touch(cs[j], now))
  }

  predicate AllPaired(port: Port) {
    forall j :: 0 <= j < |port.classes| ==> Paired(port.classes[j])
  }

  lemma {:induction false} ExpireKeeps(c: Class, limit: int)
    ensures Expire(c, limit) == c.(log := Expire(c, limit).log, sendSize := Expire(c, limit).sendSize)
    decreases |c.log|
  {
    if c.log != [] && c.log[0].time < limit {
      ExpireKeeps(c.(log := c.log[1..], sendSize := Wrap(c.sendSize - c.log[0].size)), limit);
    }
  }

  /** The class served next, or the number of classes. */
  function Chosen(port: Port, now: int): (b: nat)
    requires AllPaired(port)
    ensures b <= |port.classes|
  {
    var cs := TouchAll(port.classes, now);
    TouchedPaired(port, now);
    Best(cs, |cs|, now).0
  }

  lemma TouchedPaired(port: Port, now: int)
    requires AllPaired(port)
    ensures forall j :: 0 <= j < |port.classes| ==> Paired(Touch(port.classes[j], now))
  {
    forall j | 0 <= j < |port.classes| ensures Paired(Touch(port.classes[j], now)) {
      ExpireKeeps(port.classes[j], now - port.classes[j].params.oBurstT);
    }
  }

  /** The chosen class has a PDU. */
  lemma {:induction false} BestIsEligible(cs: seq<Class>, n: nat, now: int)
    requires n <= |cs| && forall j :: 0 <= j < n ==> Paired(cs[j])
    ensures Best(cs, n, now).0 < |cs| ==> Eligible(cs[Best(cs, n, now).0])
    ensures Best(cs, n, now).1 == if Best(cs, n, now).0 < |cs| then Slack(cs[Best(cs, n, now).0], now) else KTIME_MAX
    ensures Best(cs, n, now).1 <= KTIME_MAX
  {
    if n > 0 { BestIsEligible(cs, n - 1, now); }
  }

  function Dequeue(port: Port, now: int): Port
    requires AllPaired(port)
  {
    var cs := TouchAll(port.classes, now);
    TouchedPaired(port, now);
    var b := Chosen(port, now);
    BestIsEligible(cs, |cs|, now);
    if b < |cs| then port.(count := port.count - 1, classes := cs[b := Take(cs[b], now)])
    else port.(classes := cs)
  }

  // ---------- requeue ----------

  /** Puts a PDU back at the head, with the time of the last PDU taken, and takes the oldest
      send record off the log. Without a record there is nothing to take off: the code reads
      through a null pointer there, with the queues already put back.
   */
  function PutBack(c: Class, p: Pdu): Class {
    var c' := c.(queue := [p] + c.queue, wtimes := [c.lastST] + c.wtimes);
    if c.params.limitOut && c.log != [] then
      c'.(log := c.log[1..], sendSize := Wrap(c.sendSize - c.log[0].size))
    else c'
  }

  function RequeueAt(port: Port, i: nat, p: Pdu): Port
    requires i < |port.classes|
  {
    port.(count := port.count + 1, classes := port.classes[i := PutBack(port.classes[i], p)])
  }

  // ---------- steps and runs ----------

  datatype Op =
    | Enq(port: nat, p: Pdu, now: int, drop: bool)
    | Deq(port: nat, now: int)
    | Req(port: nat, p: Pdu)

  predicate PairedPorts(ps: seq<Port>) {
    forall i :: 0 <= i < |ps| ==> AllPaired(ps[i])
  }

  /** A requeue on a limited class without a send record. */
  predicate Faults(ps: seq<Port>, op: Op) {
    op.Req? &&
    var i := FindPort(ps, op.port);
    i < |ps| &&
    var k := FindClass(ps[i].classes, op.p.qos);
    k < |ps[i].classes| && ps[i].classes[k].params.limitOut && ps[i].classes[k].log == []
  }

  /** The queues are well paired, and the call does not read through a null pointer. */
  predicate Enabled(ps: seq<Port>, op: Op) {
    PairedPorts(ps) && !Faults(ps, op)
  }

  /** One policy call; a port or class that is not configured changes nothing. */
  function Step(ps: seq<Port>, op: Op): (r: seq<Port>)
    requires PairedPorts(ps)
    ensures |r| == |ps|
  {
    var i := FindPort(ps, op.port);
    if i == |ps| then ps
    else match op
      case Enq(_, p, now, drop) =>
        var k := FindClass(ps[i].classes, p.qos);
        if k == |ps[i].classes| || drop then ps else ps[i := EnqueueAt(ps[i], k, p, now)]
      case Deq(_, now) => ps[i := Dequeue(ps[i], now)]
      case Req(_, p) =>
        var k := FindClass(ps[i].classes, p.qos);
        if k == |ps[i].classes| then ps else ps[i := RequeueAt(ps[i], k, p)]
  }

  /** Every operation of the run is enabled where it happens. */
  predicate Runs(ps: seq<Port>, ops: seq<Op>)
    decreases |ops|
  {
    ops == [] || (Enabled(ps, ops[0]) && Runs(Step(ps, ops[0]), ops[1..]))
  }

  function Run(ps: seq<Port>, ops: seq<Op>): (r: seq<Port>)
    requires Runs(ps, ops)
    ensures |r| == |ps|
    decreases |ops|
  {
    if ops == [] then ps else Run(Step(ps, ops[0]), ops[1..])
  }

  /** The clock read by the operations never goes back, from `t` on. */
  predicate Clocked(t: int, ops: seq<Op>)
    decreases |ops|
  {
    ops == [] || if ops[0].Req? then Clocked(t, ops[1..]) else t <= ops[0].now && Clocked(ops[0].now, ops[1..])
  }
}
