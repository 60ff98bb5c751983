/** What every run of the three policy calls keeps, requeues included: the ledger of a port,
    the shape of its queues, and the accounting of the send logs.
 */
module DeltaQLedger {
  import opened DeltaQSpec

  predicate Ascending(s: seq<int>) {
    forall i, j :: 0 <= i < j < |s| ==> s[i] <= s[j]
  }

  predicate InTimeOrder(log: seq<Send>) {
    forall i, j :: 0 <= i < j < |log| ==> log[i].time <= log[j].time
  }

  function Sum(log: seq<Send>): (n: nat) {
    if log == [] then 0 else log[0].size + Sum(log[1..])
  }

  /** Enqueue times run with the PDUs and ascend from the last time taken up to the clock; the
      log ascends too, and `send_size` is its sum in 32 bits.
   */
  predicate ClassInv(c: Class, now: int) {
    && Paired(c)
    && Ascending(c.wtimes) && c.lastST <= now
    && (forall i :: 0 <= i < |c.wtimes| ==> c.lastST <= c.wtimes[i] <= now)
    && InTimeOrder(c.log) && (forall i :: 0 <= i < |c.log| ==> c.log[i].time <= now)
    && (!c.params.limitOut ==> c.log == [])
    && c.sendSize == Wrap(Sum(c.log))
  }

  function Queued(cs: seq<Class>): nat {
    if cs == [] then 0 else |cs[0].queue| + Queued(cs[1..])
  }

  predicate PortInv(port: Port, now: int) {
    && port.count == Queued(port.classes)
    && forall k :: 0 <= k < |port.classes| ==> ClassInv(port.classes[k], now)
  }

  predicate Inv(ps: seq<Port>, now: int) {
    forall i :: 0 <= i < |ps| ==> PortInv(ps[i], now)
  }

  /** As configured, before anything was enqueued. */
  predicate FreshClass(c: Class) {
    c.queue == [] && c.wtimes == [] && c.log == [] && c.sendSize == 0 && c.lastST == 0
  }

  predicate Fresh(ps: seq<Port>) {
    forall i :: 0 <= i < |ps| ==>
      ps[i].count == 0 && forall k :: 0 <= k < |ps[i].classes| ==> FreshClass(ps[i].classes[k])
  }

  // ---------- sums ----------

  lemma {:induction false} SumAppend(a: seq<Send>, b: seq<Send>)
    ensures Sum(a + b) == Sum(a) + Sum(b)
  {
    if a == [] {
      assert a + b == b;
    } else {
      assert (a + b)[1..] == a[1..] + b;
      SumAppend(a[1..], b);
    }
  }

  lemma WrapAdd(n: int, m: int)
    ensures Wrap(Wrap(n) + m) == Wrap(n + m)
  {
    assert (n % U32 + m) % U32 == (n + m) % U32;
  }

  lemma {:induction false} QueuedUpdate(cs: seq<Class>, k: nat, c: Class)
    requires k < |cs|
    ensures Queued(cs[k := c]) == Queued(cs) - |cs[k].queue| + |c.queue|
  {
    if k > 0 {
      assert cs[k := c][1..] == cs[1..][k - 1 := c];
      QueuedUpdate(cs[1..], k - 1, c);
    } else {
      assert cs[k := c][1..] == cs[1..];
    }
  }

  lemma {:induction false} QueuedSame(cs: seq<Class>, ds: seq<Class>)
    requires |cs| == |ds| && forall k :: 0 <= k < |cs| ==> |cs[k].queue| == |ds[k].queue|
    ensures Queued(cs) == Queued(ds)
  {
    if cs != [] { QueuedSame(cs[1..], ds[1..]); }
  }

  // ---------- the log ----------

  /** The sends at or after `limit`. */
  function Since(log: seq<Send>, limit: int): seq<Send> {
    if log == [] then [] else (if log[0].time >= limit then [log[0]] else []) + Since(log[1..], limit)
  }

  lemma {:induction false} SinceAll(log: seq<Send>, limit: int)
    requires forall i :: 0 <= i < |log| ==> log[i].time >= limit
    ensures Since(log, limit) == log
  {
    if log != [] { SinceAll(log[1..], limit); }
  }

  lemma {:induction false} SinceMember(log: seq<Send>, limit: int, i: nat)
    requires i < |Since(log, limit)|
    ensures Since(log, limit)[i].time >= limit && Since(log, limit)[i] in log
  {
    if log != [] {
      var n := if log[0].time >= limit then 1 else 0;
      if i >= n { SinceMember(log[1..], limit, i - n); }
    }
  }

  /** How many sends expiry drops. */
  function Cut(log: seq<Send>, limit: int): (n: nat)
    ensures n <= |log|
  {
    if log == [] || log[0].time >= limit then 0 else 1 + Cut(log[1..], limit)
  }

  lemma {:induction false} ExpireCuts(c: Class, limit: int)
    ensures Expire(c, limit) == c.(log := c.log[Cut(c.log, limit)..], sendSize := Expire(c, limit).sendSize)
    ensures c.sendSize == Wrap(Sum(c.log)) ==> Expire(c, limit).sendSize == Wrap(Sum(Expire(c, limit).log))
    decreases |c.log|
  {
    if c.log != [] && c.log[0].time < limit {
      var d := c.(log := c.log[1..], sendSize := Wrap(c.sendSize - c.log[0].size));
      var head: int := c.log[0].size;
      WrapAdd(Sum(c.log), -head);
      ExpireCuts(d, limit);
    }
  }

  lemma {:induction false} CutIsOld(log: seq<Send>, limit: int)
    ensures forall i :: 0 <= i < Cut(log, limit) ==> log[i].time < limit
  {
    if log != [] && log[0].time < limit {
      CutIsOld(log[1..], limit);
      forall i | 0 < i < Cut(log, limit) ensures log[i].time < limit {
        assert log[i] == log[1..][i - 1];
      }
    }
  }

  lemma InOrderTail(log: seq<Send>)
    requires InTimeOrder(log) && log != []
    ensures InTimeOrder(log[1..])
  {
  }

  lemma {:induction false} CutKeepsSince(log: seq<Send>, limit: int)
    requires InTimeOrder(log)
    ensures log[Cut(log, limit)..] == Since(log, limit)
  {
    hide InTimeOrder;
    if log == [] || log[0].time >= limit {
      FirstIsLeast(log, limit);
      SinceAll(log, limit);
    } else {
      InOrderTail(log);
      CutKeepsSince(log[1..], limit);
      assert log[Cut(log[1..], limit) + 1..] == log[1..][Cut(log[1..], limit)..];
      assert [] + Since(log[1..], limit) == Since(log[1..], limit);
    }
  }

  lemma FirstIsLeast(log: seq<Send>, limit: int)
    requires InTimeOrder(log) && (log != [] ==> log[0].time >= limit)
    ensures forall i :: 0 <= i < |log| ==> log[i].time >= limit
  {
  }

  /** In a log in time order, expiry keeps exactly the sends of the window. */
  lemma {:induction false} CutIsSince(log: seq<Send>, limit: int)
    requires InTimeOrder(log)
    ensures log[Cut(log, limit)..] == Since(log, limit)
    ensures forall i :: 0 <= i < Cut(log, limit) ==> log[i].time < limit
  {
    hide *;
    CutKeepsSince(log, limit);
    CutIsOld(log, limit);
  }

  /** Expiry leaves exactly the sends of the window, in order, and keeps the sum right. */
  lemma {:induction false} ExpireIsWindow(c: Class, limit: int)
    requires InTimeOrder(c.log) && c.sendSize == Wrap(Sum(c.log))
    ensures Expire(c, limit) == c.(log := Since(c.log, limit), sendSize := Wrap(Sum(Since(c.log, limit))))
  {
    ExpireCuts(c, limit);
    CutIsSince(c.log, limit);
  }

  // ---------- one step ----------

  lemma {:induction false} TouchKeepsInv(c: Class, now: int, now': int)
    requires ClassInv(c, now) && now <= now'
    ensures ClassInv(Touch(c, now'), now') && Touch(c, now').queue == c.queue && Touch(c, now').wtimes == c.wtimes
    ensures Touch(c, now').params == c.params && Touch(c, now').key == c.key
  {
    ExpireCuts(c, now' - c.params.oBurstT);
  }

  lemma {:induction false} TakeKeepsInv(c: Class, now: int)
    requires ClassInv(c, now) && c.queue != []
    ensures ClassInv(Take(c, now), now) && |Take(c, now).queue| == |c.queue| - 1
  {
    if c.params.limitOut {
      var s := Send(c.queue[0].size, now);
      SumAppend(c.log, [s]);
      assert Sum([s]) == s.size;
      WrapAdd(Sum(c.log), s.size);
    }
  }

  lemma {:induction false} PutBackKeepsInv(c: Class, p: Pdu, now: int)
    requires ClassInv(c, now)
    ensures ClassInv(PutBack(c, p), now)
  {
    if c.params.limitOut && c.log != [] {
      var head: int := c.log[0].size;
      WrapAdd(Sum(c.log), -head);
    }
  }

  lemma {:induction false} AppendKeepsInv(c: Class, p: Pdu, now: int)
    requires ClassInv(c, now)
    ensures ClassInv(Append(c, p, now), now)
  {
  }

  /** The classes after the scan still satisfy the invariant, with the same queues. */
  lemma {:induction false} TouchedInv(port: Port, now: int, now': int)
    requires PortInv(port, now) && now <= now'
    ensures AllPaired(port)
    ensures PortInv(port.(classes := TouchAll(port.classes, now')), now')
    ensures forall k :: 0 <= k < |port.classes| ==> TouchAll(port.classes, now')[k].queue == port.classes[k].queue
  {
    var cs := TouchAll(port.classes, now');
    forall k | 0 <= k < |cs|
      ensures ClassInv(cs[k], now') && cs[k].queue == port.classes[k].queue && Paired(port.classes[k])
    {
      TouchKeepsInv(port.classes[k], now, now');
    }
    QueuedSame(cs, port.classes);
  }

  /** The two outcomes of a dequeue. */
  lemma {:induction false} DequeueIs(port: Port, now: int)
    requires AllPaired(port)
    ensures var cs, b := TouchAll(port.classes, now), Chosen(port, now);
            && b <= |cs|
            && (b == |cs| ==> Dequeue(port, now) == port.(classes := cs))
            && (b < |cs| ==>
                  && Eligible(cs[b]) && cs[b].wtimes != []
                  && Dequeue(port, now) == port.(count := port.count - 1, classes := cs[b := Take(cs[b], now)]))
  {
    var cs := TouchAll(port.classes, now);
    TouchedPaired(port, now);
    BestIsEligible(cs, |cs|, now);
    if Chosen(port, now) < |cs| { assert Paired(cs[Chosen(port, now)]); }
  }

  lemma {:induction false} DequeueKeepsInv(port: Port, now: int, now': int)
    requires PortInv(port, now) && now <= now'
    ensures AllPaired(port) && PortInv(Dequeue(port, now'), now')
  {
    hide ClassInv, Dequeue, Chosen, Take, TouchAll, Touch, Admits, AllPaired;
    TouchedInv(port, now, now');
    var cs, b := TouchAll(port.classes, now'), Chosen(port, now');
    DequeueIs(port, now');
    if b < |cs| {
      assert ClassInv(cs[b], now');
      TakeKeepsInv(cs[b], now');
      QueuedUpdate(cs, b, Take(cs[b], now'));
    }
  }

  lemma {:induction false} EnqueueKeepsInv(port: Port, k: nat, p: Pdu, now: int)
    requires PortInv(port, now) && k < |port.classes|
    ensures PortInv(EnqueueAt(port, k, p, now), now)
  {
    hide ClassInv;
    assert ClassInv(port.classes[k], now);
    AppendKeepsInv(port.classes[k], p, now);
    QueuedUpdate(port.classes, k, Append(port.classes[k], p, now));
  }

  lemma {:induction false} RequeueKeepsInv(port: Port, k: nat, p: Pdu, now: int)
    requires PortInv(port, now) && k < |port.classes|
    ensures PortInv(RequeueAt(port, k, p), now)
  {
    hide ClassInv;
    assert ClassInv(port.classes[k], now);
    PutBackKeepsInv(port.classes[k], p, now);
    QueuedUpdate(port.classes, k, PutBack(port.classes[k], p));
  }

  lemma {:induction false} LaterKeepsInv(ps: seq<Port>, now: int, now': int)
    requires Inv(ps, now) && now <= now'
    ensures Inv(ps, now')
  {
  }

  /** The clock after an operation. */
  function ClockAfter(now: int, op: Op): int {
    if op.Req? then now else op.now
  }

  lemma {:induction false} StepKeepsInv(ps: seq<Port>, op: Op, now: int)
    requires Inv(ps, now) && PairedPorts(ps) && now <= ClockAfter(now, op)
    ensures Inv(Step(ps, op), ClockAfter(now, op))
  {
    var i := FindPort(ps, op.port);
    LaterKeepsInv(ps, now, ClockAfter(now, op));
    hide PortInv, Dequeue, EnqueueAt, RequeueAt;
    if i < |ps| {
      assert PortInv(ps[i], now) && PortInv(ps[i], ClockAfter(now, op));
      match op
      case Enq(_, p, t, _) =>
        var k := FindClass(ps[i].classes, p.qos);
        if k < |ps[i].classes| { EnqueueKeepsInv(ps[i], k, p, t); }
      case Deq(_, t) => DequeueKeepsInv(ps[i], now, t);
      case Req(_, p) =>
        var k := FindClass(ps[i].classes, p.qos);
        if k < |ps[i].classes| { RequeueKeepsInv(ps[i], k, p, now); }
    }
  }

  lemma {:induction false} FreshInv(ps: seq<Port>, now: int)
    requires Fresh(ps) && now >= 0
    ensures Inv(ps, now)
  {
    forall i | 0 <= i < |ps| ensures ps[i].count == Queued(ps[i].classes) {
      FreshQueued(ps[i].classes);
    }
  }

  lemma {:induction false} FreshQueued(cs: seq<Class>)
    requires forall k :: 0 <= k < |cs| ==> FreshClass(cs[k])
    ensures Queued(cs) == 0
  {
    if cs != [] { FreshQueued(cs[1..]); }
  }

  /** The ledger holds after every run, requeues included, whose clock does not go back. */
  lemma {:induction false} RunKeepsInv(ps: seq<Port>, ops: seq<Op>, now: int) returns (now': int)
    requires Inv(ps, now) && Runs(ps, ops) && Clocked(now, ops)
    ensures Inv(Run(ps, ops), now') && now <= now'
    decreases |ops|
  {
    now' := now;
    if ops != [] {
      StepKeepsInv(ps, ops[0], now);
      now' := RunKeepsInv(Step(ps, ops[0]), ops[1..], ClockAfter(now, ops[0]));
    }
  }
}
