/** Which PDU a dequeue takes: the class with the first least slack, and with equal scaling the
    PDU with the earliest deadline on the whole port. And first-in first-out per class over
    whole runs, with undone dequeues.
 */
module DeltaQOrder {
  import opened DeltaQSpec
  import opened DeltaQLedger

  // ---------- the scan ----------

  /** The scan takes the first class with the least scaled slack among the eligible ones, and
      none exactly when no eligible slack is below KTIME_MAX.
   */
  lemma {:induction false} BestIsFirstLeast(cs: seq<Class>, n: nat, now: int)
    requires n <= |cs| && forall j :: 0 <= j < |cs| ==> Paired(cs[j])
    ensures var b := Best(cs, n, now).0;
            if b < |cs| then
              && b < n && Eligible(cs[b]) && Slack(cs[b], now) < KTIME_MAX
              && (forall j :: 0 <= j < n && Eligible(cs[j]) ==> Slack(cs[b], now) <= Slack(cs[j], now))
              && (forall j :: 0 <= j < b && Eligible(cs[j]) ==> Slack(cs[b], now) < Slack(cs[j], now))
            else forall j :: 0 <= j < n && Eligible(cs[j]) ==> Slack(cs[j], now) >= KTIME_MAX
    ensures Best(cs, n, now).1 ==
            if Best(cs, n, now).0 < |cs| then Slack(cs[Best(cs, n, now).0], now) else KTIME_MAX
  {
    if n > 0 {
      assert Paired(cs[n - 1]);
      BestIsFirstLeast(cs, n - 1, now);
    }
  }

  /** Whether the class can be served now: a PDU, and room for it among the recent sends. */
  predicate Servable(c: Class, now: int) {
    && c.queue != []
    && (c.params.limitOut ==>
          Wrap(Sum(Since(c.log, now - c.params.oBurstT)) + c.queue[0].size) <= c.params.oBurstS)
  }

  lemma {:induction false} TouchedEligible(c: Class, now: int, now': int)
    requires ClassInv(c, now)
    ensures Eligible(Touch(c, now')) <==> Servable(c, now')
    ensures c.queue != [] ==>
              Touch(c, now').wtimes == c.wtimes && c.wtimes != [] && Slack(Touch(c, now'), now') == Slack(c, now')
  {
    if c.params.limitOut {
      var limit := now' - c.params.oBurstT;
      var w := Sum(Since(c.log, limit));
      ExpireIsWindow(c, limit);
      if c.queue != [] { WrapAdd(w, c.queue[0].size); }
    }
  }

  /** The class a dequeue serves, in terms of the port before the call. */
  lemma {:induction false} ChosenIsFirstLeast(port: Port, now: int, now': int)
    requires PortInv(port, now) && now <= now'
    ensures AllPaired(port)
    ensures var cs, b := port.classes, Chosen(port, now');
            if b < |cs| then
              && Servable(cs[b], now') && Slack(cs[b], now') < KTIME_MAX
              && (forall j :: 0 <= j < |cs| && Servable(cs[j], now') ==> Slack(cs[b], now') <= Slack(cs[j], now'))
              && (forall j :: 0 <= j < b && Servable(cs[j], now') ==> Slack(cs[b], now') < Slack(cs[j], now'))
            else forall j :: 0 <= j < |cs| && Servable(cs[j], now') ==> Slack(cs[j], now') >= KTIME_MAX
  {
    hide Servable, Eligible, Slack, ClassInv, Best;
    var cs, ts := port.classes, TouchAll(port.classes, now');
    TouchedInv(port, now, now');
    TouchedPaired(port, now');
    BestIsFirstLeast(ts, |ts|, now');
    forall j | 0 <= j < |cs|
      ensures ts[j].queue == cs[j].queue && Paired(cs[j])
      ensures Eligible(ts[j]) <==> Servable(cs[j], now')
      ensures cs[j].queue != [] ==> ts[j].wtimes == cs[j].wtimes && Slack(ts[j], now') == Slack(cs[j], now')
    {
      assert ClassInv(cs[j], now);
      TouchedEligible(cs[j], now, now');
    }
    ServableHasPdu();
  }

  lemma ServableHasPdu()
    ensures forall c, now :: Servable(c, now) ==> c.queue != []
  {
  }

  // ---------- earliest deadline first ----------

  /** No class of the port is rate limited and all scale lateness alike. */
  predicate EqualTreatment(port: Port, mul: int) {
    forall k :: 0 <= k < |port.classes| ==>
      !port.classes[k].params.limitOut && port.classes[k].params.oMulOver == mul
  }

  /** Scaling keeps the order of slacks. */
  lemma ScaleOrder(s: int, t: int, mul: int)
    requires mul > 0
    ensures t < s ==> (if t < 0 then t * mul else t * 100) < (if s < 0 then s * mul else s * 100)
  {
    if t < s {
      if s < 0 {
        assert t * mul < s * mul;
      } else if t < 0 {
        assert t * mul < 0;
      }
    }
  }

  lemma SlackOrder(c: Class, d: Class, now: int, mul: int)
    requires c.wtimes != [] && d.wtimes != [] && mul > 0
    requires c.params.oMulOver == mul && d.params.oMulOver == mul && Slack(c, now) <= Slack(d, now)
    ensures c.wtimes[0] + c.params.oExWaitT <= d.wtimes[0] + d.params.oExWaitT
  {
    ScaleOrder(c.params.oExWaitT - now + c.wtimes[0], d.params.oExWaitT - now + d.wtimes[0], mul);
  }

  /** The PDU taken has the least enqueue time plus allowed wait among all PDUs of the port,
      not only among the heads.
   */
  lemma {:induction false} EarliestDeadlineFirst(port: Port, now: int, now': int, mul: int, k: nat, i: nat)
    requires PortInv(port, now) && now <= now' && EqualTreatment(port, mul) && mul > 0
    requires Chosen(port, now') < |port.classes| && k < |port.classes| && i < |port.classes[k].queue|
    ensures var c, d := port.classes[Chosen(port, now')], port.classes[k];
            c.wtimes != [] && i < |d.wtimes|
            && c.wtimes[0] + c.params.oExWaitT <= d.wtimes[i] + d.params.oExWaitT
  {
    hide Slack;
    var c, d := port.classes[Chosen(port, now')], port.classes[k];
    ChosenIsFirstLeast(port, now, now');
    assert ClassInv(c, now) && ClassInv(d, now);
    assert Servable(d, now') && Servable(c, now');
    SlackOrder(c, d, now', mul);
  }

  /** A port treated alike has nothing to give only when it is empty, as long as no slack
      reaches KTIME_MAX.
   */
  lemma {:induction false} NothingMeansEmpty(port: Port, now: int, now': int, mul: int)
    requires PortInv(port, now) && now <= now' && EqualTreatment(port, mul)
    requires forall k :: 0 <= k < |port.classes| && port.classes[k].queue != [] ==>
               port.classes[k].wtimes != [] && Slack(port.classes[k], now') < KTIME_MAX
    ensures Chosen(port, now') == |port.classes| <==> port.count == 0
  {
    hide Slack, Chosen;
    ChosenIsFirstLeast(port, now, now');
    if Chosen(port, now') == |port.classes| {
      forall k | 0 <= k < |port.classes| ensures port.classes[k].queue == [] {
        assert !Servable(port.classes[k], now');
      }
    }
    EmptyMeansZero(port.classes);
  }

  lemma {:induction false} EmptyMeansZero(cs: seq<Class>)
    ensures Queued(cs) == 0 <==> forall k :: 0 <= k < |cs| ==> cs[k].queue == []
  {
    if cs != [] {
      EmptyMeansZero(cs[1..]);
      assert forall k :: 0 < k < |cs| ==> cs[k] == cs[1..][k - 1];
      if Queued(cs) == 0 {
        forall k | 0 <= k < |cs| ensures cs[k].queue == [] {
          if k > 0 { assert cs[1..][k - 1].queue == []; }
        }
      }
    }
  }

  // ---------- first in, first out ----------

  /** A PDU with the time it was accepted. */
  datatype Timed = Timed(p: Pdu, at: int)

  /** What a class accepted and delivered so far; `open` while the last delivery may be undone. */
  datatype History = History(accepted: seq<Timed>, delivered: seq<Timed>, open: bool)

  function Zip(queue: seq<Pdu>, wtimes: seq<int>): seq<Timed>
    requires |queue| == |wtimes|
  {
    seq(|queue|, j requires 0 <= j < |queue| => Timed(queue[j], wtimes[j]))
  }

  /** Does the operation reach class `k` of port `i`? */
  predicate Reaches(ps: seq<Port>, op: Op, i: nat, k: nat)
    requires Enabled(ps, op)
  {
    && i < |ps| && k < |ps[i].classes| && FindPort(ps, op.port) == i
    && (if op.Deq? then Chosen(ps[i], op.now) == k else FindClass(ps[i].classes, op.p.qos) == k)
    && (op.Enq? ==> !op.drop)
  }

  /** A requeue is an undo: it brings back the PDU the class delivered last, once. */
  predicate Undoes(ps: seq<Port>, op: Op, i: nat, k: nat, h: History)
    requires Enabled(ps, op)
  {
    op.Req? && Reaches(ps, op, i, k) ==>
      h.open && h.delivered != [] && op.p == h.delivered[|h.delivered| - 1].p
  }

  function Recorded(ps: seq<Port>, op: Op, i: nat, k: nat, h: History): History
    requires Enabled(ps, op) && Undoes(ps, op, i, k, h)
  {
    if !Reaches(ps, op, i, k) then h
    else match op
      case Enq(_, p, now, _) => h.(accepted := h.accepted + [Timed(p, now)])
      case Deq(_, _) =>
        var c := ps[i].classes[k];
        if c.queue == [] || c.wtimes == [] then h
        else h.(delivered := h.delivered + [Timed(c.queue[0], c.wtimes[0])], open := true)
      case Req(_, _) => h.(delivered := h.delivered[..|h.delivered| - 1], open := false)
  }

  /** Accepted PDUs, in order, are the delivered ones followed by the queue, times included. */
  predicate InOrder(c: Class, h: History) {
    && Paired(c) && h.accepted == h.delivered + Zip(c.queue, c.wtimes)
    && (h.open ==> h.delivered != [] && h.delivered[|h.delivered| - 1].at == c.lastST)
  }

  /** Same queues and same last time taken. */
  predicate SameQueues(c: Class, d: Class) {
    d.queue == c.queue && d.wtimes == c.wtimes && d.lastST == c.lastST
  }

  /** A step that reaches the class appends, takes or puts back; any other leaves its queues. */
  lemma {:induction false} StepQueues(ps: seq<Port>, op: Op, i: nat, k: nat)
    requires Enabled(ps, op) && i < |ps| && k < |ps[i].classes|
    ensures |Step(ps, op)[i].classes| == |ps[i].classes|
    ensures var c, d := ps[i].classes[k], Step(ps, op)[i].classes[k];
            if !Reaches(ps, op, i, k) then SameQueues(c, d)
            else match op
              case Enq(_, p, now, _) => SameQueues(Append(c, p, now), d)
              case Deq(_, now) => c.queue != [] && c.wtimes != [] && SameQueues(Take(c, now), d)
              case Req(_, p) => SameQueues(PutBack(c, p), d)
  {
    if FindPort(ps, op.port) == i && op.Deq? {
      var c := ps[i].classes[k];
      DequeueIs(ps[i], op.now);
      ExpireKeeps(c, op.now - c.params.oBurstT);
    }
  }

  lemma AppendInOrder(c: Class, d: Class, p: Pdu, now: int, h: History)
    requires InOrder(c, h) && SameQueues(Append(c, p, now), d)
    ensures InOrder(d, h.(accepted := h.accepted + [Timed(p, now)]))
  {
    assert Zip(d.queue, d.wtimes) == Zip(c.queue, c.wtimes) + [Timed(p, now)];
  }

  lemma TakeInOrder(c: Class, d: Class, now: int, h: History)
    requires InOrder(c, h) && c.queue != [] && c.wtimes != [] && SameQueues(Take(c, now), d)
    ensures InOrder(d, h.(delivered := h.delivered + [Timed(c.queue[0], c.wtimes[0])], open := true))
  {
    assert Zip(c.queue, c.wtimes) == [Timed(c.queue[0], c.wtimes[0])] + Zip(d.queue, d.wtimes);
  }

  lemma PutBackInOrder(c: Class, d: Class, p: Pdu, h: History)
    requires InOrder(c, h) && SameQueues(PutBack(c, p), d)
    requires h.open && p == h.delivered[|h.delivered| - 1].p
    ensures InOrder(d, h.(delivered := h.delivered[..|h.delivered| - 1], open := false))
  {
    var last := h.delivered[|h.delivered| - 1];
    assert Zip(d.queue, d.wtimes) == [last] + Zip(c.queue, c.wtimes);
    assert h.delivered == h.delivered[..|h.delivered| - 1] + [last];
  }

  lemma {:induction false} StepInOrder(ps: seq<Port>, op: Op, i: nat, k: nat, h: History)
    requires Enabled(ps, op) && i < |ps| && k < |ps[i].classes| && Undoes(ps, op, i, k, h)
    requires InOrder(ps[i].classes[k], h)
    ensures |Step(ps, op)[i].classes| == |ps[i].classes|
    ensures InOrder(Step(ps, op)[i].classes[k], Recorded(ps, op, i, k, h))
  {
    StepQueues(ps, op, i, k);
    hide Step, Enabled, Zip, Take, Append, PutBack, Reaches;
    var c, d := ps[i].classes[k], Step(ps, op)[i].classes[k];
    if Reaches(ps, op, i, k) {
      match op
      case Enq(_, p, now, _) => AppendInOrder(c, d, p, now, h);
      case Deq(_, now) => TakeInOrder(c, d, now, h);
      case Req(_, p) => PutBackInOrder(c, d, p, h);
    }
  }

  /** All requeues of the run that reach the class are undos. */
  predicate UndoRun(ps: seq<Port>, ops: seq<Op>, i: nat, k: nat, h: History)
    requires Runs(ps, ops)
    decreases |ops|
  {
    ops == [] ||
    (Undoes(ps, ops[0], i, k, h) && UndoRun(Step(ps, ops[0]), ops[1..], i, k, Recorded(ps, ops[0], i, k, h)))
  }

  function HistoryAfter(ps: seq<Port>, ops: seq<Op>, i: nat, k: nat, h: History): History
    requires Runs(ps, ops) && UndoRun(ps, ops, i, k, h)
    decreases |ops|
  {
    if ops == [] then h else HistoryAfter(Step(ps, ops[0]), ops[1..], i, k, Recorded(ps, ops[0], i, k, h))
  }

  /** First in, first out, over every run in which requeues undo the last dequeue. */
  lemma {:induction false} FifoWithUndo(ps: seq<Port>, ops: seq<Op>, i: nat, k: nat, h: History)
    requires Runs(ps, ops) && UndoRun(ps, ops, i, k, h) && i < |ps| && k < |ps[i].classes|
    requires InOrder(ps[i].classes[k], h)
    ensures |Run(ps, ops)[i].classes| == |ps[i].classes|
    ensures InOrder(Run(ps, ops)[i].classes[k], HistoryAfter(ps, ops, i, k, h))
    decreases |ops|
  {
    hide Step, Recorded, InOrder, PairedPorts, Faults, Undoes;
    if ops != [] {
      StepInOrder(ps, ops[0], i, k, h);
      FifoWithUndo(Step(ps, ops[0]), ops[1..], i, k, Recorded(ps, ops[0], i, k, h));
    }
  }

  /** A dequeue followed by the requeue of its PDU gives back both queues of every class, and
      the count of the port.
   */
  lemma {:induction false} RequeueUndoesDequeue(port: Port, now: int)
    requires AllPaired(port)
    requires var b := Chosen(port, now); b < |port.classes|
    ensures var b, mid := Chosen(port, now), Dequeue(port, now);
            && port.classes[b].queue != [] && |mid.classes| == |port.classes|
            && (port.classes[b].params.limitOut ==> mid.classes[b].log != [])
            && var after := RequeueAt(mid, b, port.classes[b].queue[0]);
               && after.count == port.count
               && forall k :: 0 <= k < |port.classes| ==>
                    after.classes[k].queue == port.classes[k].queue && after.classes[k].wtimes == port.classes[k].wtimes
  {
    DequeueIs(port, now);
    forall k | 0 <= k < |port.classes|
      ensures Touch(port.classes[k], now).queue == port.classes[k].queue
      ensures Touch(port.classes[k], now).wtimes == port.classes[k].wtimes
      ensures Touch(port.classes[k], now).params == port.classes[k].params
    {
      ExpireKeeps(port.classes[k], now - port.classes[k].params.oBurstT);
    }
  }

  // ---------- undo after other operations ----------

  /** No dequeue and no requeue of the run reaches the class. */
  predicate LeavesHead(ps: seq<Port>, ops: seq<Op>, i: nat, k: nat)
    requires Runs(ps, ops)
    decreases |ops|
  {
    ops == [] || ((Reaches(ps, ops[0], i, k) ==> ops[0].Enq?) && LeavesHead(Step(ps, ops[0]), ops[1..], i, k))
  }

  /** What the class accepts in the run. */
  function Accepted(ps: seq<Port>, ops: seq<Op>, i: nat, k: nat): seq<Timed>
    requires Runs(ps, ops)
    decreases |ops|
  {
    if ops == [] then []
    else
      (if ops[0].Enq? && Reaches(ps, ops[0], i, k) then [Timed(ops[0].p, ops[0].now)] else [])
      + Accepted(Step(ps, ops[0]), ops[1..], i, k)
  }

  lemma RecordsAccepted(ps: seq<Port>, op: Op, i: nat, k: nat, h: History)
    requires Enabled(ps, op) && (Reaches(ps, op, i, k) ==> op.Enq?)
    ensures Undoes(ps, op, i, k, h)
    ensures Recorded(ps, op, i, k, h) ==
            h.(accepted := h.accepted + if op.Enq? && Reaches(ps, op, i, k) then [Timed(op.p, op.now)] else [])
  {
    hide PairedPorts, Faults, Reaches;
    assert h.accepted + [] == h.accepted;
  }

  lemma {:induction false} OnlyAccepted(ps: seq<Port>, ops: seq<Op>, i: nat, k: nat, h: History)
    requires Runs(ps, ops) && LeavesHead(ps, ops, i, k)
    ensures UndoRun(ps, ops, i, k, h)
    ensures HistoryAfter(ps, ops, i, k, h) == h.(accepted := h.accepted + Accepted(ps, ops, i, k))
    decreases |ops|
  {
    hide Step, PairedPorts, Faults, Reaches, Undoes, Recorded;
    if ops == [] {
      assert h.accepted + [] == h.accepted;
    } else {
      RecordsAccepted(ps, ops[0], i, k, h);
      OnlyAccepted(Step(ps, ops[0]), ops[1..], i, k, Recorded(ps, ops[0], i, k, h));
      var one := if ops[0].Enq? && Reaches(ps, ops[0], i, k) then [Timed(ops[0].p, ops[0].now)] else [];
      var rest := Accepted(Step(ps, ops[0]), ops[1..], i, k);
      assert (h.accepted + one) + rest == h.accepted + (one + rest);
    }
  }

  /** A dequeue is undone by the requeue of its PDU also after other operations, as long as none of
      them takes from the class or puts back to it: its queue, with the times, is as it was, followed
      by what was accepted meanwhile, and the count of the port gets back what it lost.
   */
  lemma {:induction false} RequeueRestores(ps: seq<Port>, deq: Op, between: seq<Op>, req: Op, i: nat, k: nat)
    requires Enabled(ps, deq) && i < |ps| && k < |ps[i].classes| && deq.Deq? && Reaches(ps, deq, i, k)
    requires Runs(Step(ps, deq), between) && LeavesHead(Step(ps, deq), between, i, k)
    requires var mid := Run(Step(ps, deq), between);
             && Enabled(mid, req) && i < |mid| && k < |mid[i].classes| && req.Req? && Reaches(mid, req, i, k)
             && ps[i].classes[k].queue != [] && req.p == ps[i].classes[k].queue[0]
    ensures Step(ps, deq)[i].count == ps[i].count - 1
    ensures Step(Run(Step(ps, deq), between), req)[i].count == Run(Step(ps, deq), between)[i].count + 1
    ensures var c, after := ps[i].classes[k], Step(Run(Step(ps, deq), between), req);
            && Paired(c) && k < |after[i].classes| && Paired(after[i].classes[k])
            && var d := after[i].classes[k];
               Zip(d.queue, d.wtimes) == Zip(c.queue, c.wtimes) + Accepted(Step(ps, deq), between, i, k)
  {
    var c := ps[i].classes[k];
    var ps1 := Step(ps, deq);
    var mid := Run(ps1, between);
    StepQueues(ps, deq, i, k);
    DequeueIs(ps[i], deq.now);
    ClassPaired(ps, i, k);
    var h0 := History(Zip(c.queue, c.wtimes), [], false);
    assert [] + Zip(c.queue, c.wtimes) == Zip(c.queue, c.wtimes);
    StepInOrder(ps, deq, i, k, h0);
    var h1 := Recorded(ps, deq, i, k, h0);
    OnlyAccepted(ps1, between, i, k, h1);
    FifoWithUndo(ps1, between, i, k, h1);
    var h2 := HistoryAfter(ps1, between, i, k, h1);
    hide Step, PairedPorts, Faults, Zip, Reaches, Runs, Run;
    StepInOrder(mid, req, i, k, h2);
    assert h2.delivered[..0] == [];
  }

  lemma ClassPaired(ps: seq<Port>, i: nat, k: nat)
    requires PairedPorts(ps) && i < |ps| && k < |ps[i].classes|
    ensures Paired(ps[i].classes[k])
  {
    assert AllPaired(ps[i]);
  }
}
