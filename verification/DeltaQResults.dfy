/** What the results of the three policy calls tell the caller about the queues. */
module DeltaQResults {
  import opened DeltaQSpec
  import opened DeltaQLedger
  import opened DeltaQOrder
  import opened DeltaQ
  import Rmt
  import Protocol = RmtDeltaQ

  /** Only one class of one port differs in its queue, by the PDU at the back or at the front. */
  predicate QueuesElsewhere(ps: seq<Port>, qs: seq<Port>, i: nat, k: nat) {
    && |qs| == |ps|
    && forall j :: 0 <= j < |ps| ==>
         && |qs[j].classes| == |ps[j].classes|
         && forall n :: 0 <= n < |ps[j].classes| && !(j == i && n == k) ==>
              qs[j].classes[n].queue == ps[j].classes[n].queue
  }

  predicate SameQueuesAll(ps: seq<Port>, qs: seq<Port>) {
    && |qs| == |ps|
    && forall j :: 0 <= j < |ps| ==>
         && |qs[j].classes| == |ps[j].classes|
         && forall n :: 0 <= n < |ps[j].classes| ==> qs[j].classes[n].queue == ps[j].classes[n].queue
  }

  /** An enqueue returns 0 exactly when the PDU joined the back of the queue of its class; with 1 the
      PDU was dropped, with -1 its port or class is unknown, and then no queue changes.
   */
  lemma {:induction false} EnqueueTells(ps: seq<Port>, port: nat, p: Pdu, now: int, drop: bool)
    requires PairedPorts(ps)
    ensures var qs, res, i := Step(ps, Enq(port, p, now, drop)), EnqueueResult(ps, port, p, drop), FindPort(ps, port);
            var known := i < |ps| && FindClass(ps[i].classes, p.qos) < |ps[i].classes|;
            && (res == -1 <==> !known) && (res == 1 <==> known && drop) && (res == 0 <==> known && !drop)
            && (res != 0 ==> qs == ps)
            && (res == 0 ==>
                  var k := FindClass(ps[i].classes, p.qos);
                  && QueuesElsewhere(ps, qs, i, k) && qs[i].classes[k].queue == ps[i].classes[k].queue + [p]
                  && qs[i].count == ps[i].count + 1)
  {
  }

  /** A dequeue hands out the PDU that some class lost from its front, and none when no queue
      changed.
   */
  lemma {:induction false} DequeueTells(ps: seq<Port>, port: nat, now: int)
    requires Enabled(ps, Deq(port, now))
    ensures var qs, res, i := Step(ps, Deq(port, now)), DequeueResult(ps, port, now), FindPort(ps, port);
            && (res == BadPort <==> i == |ps|)
            && (!res.Got? ==> SameQueuesAll(ps, qs))
            && (res.Got? ==>
                  var k := Chosen(ps[i], now);
                  && k < |ps[i].classes| && QueuesElsewhere(ps, qs, i, k)
                  && ps[i].classes[k].queue == [res.p] + qs[i].classes[k].queue && qs[i].count == ps[i].count - 1)
  {
    StepDeq(ps, port, now);
    forall j, n | 0 <= j < |ps| && 0 <= n < |ps[j].classes|
      ensures |Step(ps, Deq(port, now))[j].classes| == |ps[j].classes|
      ensures var c, d := ps[j].classes[n], Step(ps, Deq(port, now))[j].classes[n];
              if Reaches(ps, Deq(port, now), j, n) then c.queue != [] && d.queue == c.queue[1..] else d.queue == c.queue
    {
      StepQueues(ps, Deq(port, now), j, n);
    }
    if FindPort(ps, port) < |ps| { DequeueIs(ps[FindPort(ps, port)], now); }
    hide Chosen, PairedPorts, Faults, Dequeue, FindPort;
  }

  /** A requeue returns 0 exactly when the PDU is back at the front of the queue of its class. */
  lemma {:induction false} RequeueTells(ps: seq<Port>, port: nat, p: Pdu)
    requires PairedPorts(ps)
    ensures var qs, res, i := Step(ps, Req(port, p)), EnqueueResult(ps, port, p, false), FindPort(ps, port);
            && (res == 0 || res == -1) && (res == -1 ==> qs == ps)
            && (res == 0 ==>
                  && i < |ps|
                  && var k := FindClass(ps[i].classes, p.qos);
                     && k < |ps[i].classes| && QueuesElsewhere(ps, qs, i, k)
                     && qs[i].classes[k].queue == [p] + ps[i].classes[k].queue && qs[i].count == ps[i].count + 1)
  {
  }

  /** The RMT hears these results: an enqueue is accepted when it returns 0, a poll gets the PDU
      handed out.
   */
  lemma {:induction false} AnswersAreResults(ps: seq<Port>, op: Op, a: Rmt.Action)
    requires Enabled(ps, op) && Protocol.Configured(ps, op) && Protocol.Answers(ps, op, a)
    ensures op.Enq? && a.Step? ==> (a.accept <==> EnqueueResult(ps, op.port, op.p, op.drop) == 0)
    ensures op.Deq? && a.Work? ==> (a.got <==> DequeueResult(ps, op.port, op.now).Got?)
    ensures op.Deq? && a.Work? && a.got ==>
              Protocol.Took(ps, op).Some? && DequeueResult(ps, op.port, op.now) == Got(Protocol.Took(ps, op).value)
  {
    if op.Deq? { StepDeq(ps, op.port, op.now); }
    hide Chosen, PairedPorts, Faults;
  }
}
