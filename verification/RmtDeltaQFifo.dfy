/** The order of service of the RMT running with DeltaQ: as long as no sender's own write on a port
    says EAGAIN, every requeue on the port undoes the worker's last dequeue.
 */
module RmtDeltaQFifo {
  import opened Options
  import opened Rmt
  import opened RmtSafety
  import opened RmtDeltaQ
  import opened RmtDeltaQRuns
  import DQ = DeltaQSpec
  import Ledger = DeltaQLedger
  import Order = DeltaQOrder

  // ---------- the DeltaQ calls of a run ----------

  function Calls(w: World, run: seq<Event>): seq<DQ.Op>
    requires Happens(w, run)
    decreases |run|
  {
    if run == [] then []
    else
      var call := PolicyCall(w, run[0]);
      (if call.Some? then [call.value] else []) + Calls(Happen(w, run[0]), run[1..])
  }

  lemma CallFirst(ps: seq<DQ.Port>, op: DQ.Op, ops: seq<DQ.Op>)
    requires DQ.Enabled(ps, op) && DQ.Runs(DQ.Step(ps, op), ops)
    ensures DQ.Runs(ps, [op] + ops) && DQ.Run(ps, [op] + ops) == DQ.Run(DQ.Step(ps, op), ops)
  {
    assert ([op] + ops)[1..] == ops;
  }

  /** They are a run of DeltaQ alone, with the same end. */
  lemma {:induction false} CallsRun(w: World, run: seq<Event>)
    requires Happens(w, run)
    ensures DQ.Runs(w.ps, Calls(w, run)) && DQ.Run(w.ps, Calls(w, run)) == Outcome(w, run).ps
    decreases |run|
  {
    hide PolicyCall, Carried, Can, Do, Hand, DQ.Step, DQ.PairedPorts, DQ.Faults, Answers, Configured;
    if run != [] {
      var call, w', rest := PolicyCall(w, run[0]), Happen(w, run[0]), Calls(Happen(w, run[0]), run[1..]);
      CallsRun(w', run[1..]);
      if call.Some? {
        CallFirst(w.ps, call.value, rest);
      } else {
        assert Calls(w, run) == rest;
      }
    }
  }

  // ---------- no sender is told to try again ----------

  /** A sender's own write on the port says EAGAIN. */
  predicate SenderEagain(s: Sys, a: Action, r: Ref)
    requires Can(s, a)
  {
    a.Step? && s.threads[a.t] == Thread(r, Writing) && a.ret == EAGAIN
  }

  predicate NoSenderEagain(w: World, run: seq<Event>, r: Ref)
    requires Happens(w, run)
    decreases |run|
  {
    run == [] || (!SenderEagain(w.s, run[0].a, r) && NoSenderEagain(Happen(w, run[0]), run[1..], r))
  }

  predicate NoneReturns(s: Sys, r: Ref) {
    forall t :: t in s.threads ==> s.threads[t] != Thread(r, Returning)
  }

  lemma StepKeepsNone(s: Sys, a: Action, r: Ref)
    requires NoneReturns(s, r) && Can(s, a) && !SenderEagain(s, a, r)
    ensures NoneReturns(Do(s, a), r)
  {
    forall t | t in Do(s, a).threads ensures Do(s, a).threads[t] != Thread(r, Returning) {
      if a.Step? && t == a.t { assert s.threads[t] != Thread(r, Returning); }
    }
  }

  // ---------- the PDU in the worker's hand ----------

  /** The worker may put back a PDU of class `k` of the port. */
  predicate InHand(w: World, r: Ref, k: nat) {
    && w.s.worker.pc.Visit? && w.s.worker.pc.r == r && r in w.s.ports
    && (w.s.worker.pc.at.Sending? || w.s.worker.pc.at.PuttingBack?)
    && var i := DQ.FindPort(w.ps, r);
       i < |w.ps| && k < |w.ps[i].classes| && DQ.FindClass(w.ps[i].classes, w.hand.qos) == k
  }

  /** Then the class has a send record if it is limited. */
  predicate HandLogged(w: World, r: Ref, k: nat) {
    InHand(w, r, k) ==>
      var c := w.ps[DQ.FindPort(w.ps, r)].classes[k];
      c.params.limitOut ==> c.log != []
  }

  /** And the PDU is the last one its history delivered, still open. */
  predicate HandOpen(w: World, r: Ref, k: nat, h: Order.History) {
    InHand(w, r, k) ==> h.open && h.delivered != [] && h.delivered[|h.delivered| - 1].p == w.hand
  }

  /** What an event does to the hand: nothing, or it takes the head of class `k`. */
  lemma HandComesFrom(w: World, e: Event, r: Ref, k: nat)
    requires WorldInv(w) && CanEvent(w, e) && InHand(Happen(w, e), r, k) && NoneReturns(w.s, r)
    ensures var call, i := PolicyCall(w, e), DQ.FindPort(w.ps, r);
            && i < |w.ps| && k < |w.ps[i].classes|
            && if InHand(w, r, k) && Happen(w, e).hand == w.hand && (call.Some? ==> !call.value.Deq?)
               then call.Some? && call.value.Req? ==> DQ.FindPort(w.ps, call.value.port) != i
               else
                 && call.Some? && call.value.Deq? && DQ.FindPort(w.ps, call.value.port) == i
                 && DQ.Chosen(w.ps[i], call.value.now) == k
                 && Took(w.ps, call.value) == Some(Happen(w, e).hand)
  {
    hide Accounted, Ledger.Inv, Filed, HandKnown, Carried, Placed, Linked, PolicyCall, Do, Can, Took;
    hide DQ.FindPort, DQ.FindClass, DQ.Chosen, DQ.Step, DQ.PairedPorts, DQ.Faults;
    var w' := Happen(w, e);
    AccountedLinked(w.s);
    HandFrom(w.s, e.a);
    EventConfig(w, e);
    SamePortFound(w.ps, w'.ps, r);
    SameClassFound(w.ps[DQ.FindPort(w.ps, r)].classes, w'.ps[DQ.FindPort(w.ps, r)].classes, w'.hand.qos);
    HandCall(w, e, r);
    var call := PolicyCall(w, e);
    if call.Some? && call.value.Deq? { TookIsKnown(w.ps, call.value); }
  }

  /** The calls of a step while the worker is at a poll, or has a PDU in hand, on the port. */
  lemma HandCall(w: World, e: Event, r: Ref)
    requires CanEvent(w, e) && NoneReturns(w.s, r) && WorksOn(w.s.worker, r) && r in w.s.ports
    ensures var call, at, i := PolicyCall(w, e), w.s.worker.pc.at, DQ.FindPort(w.ps, r);
            && (e.a.Work? && at.Polling? ==>
                  call == Some(DQ.Deq(r, e.now)) && (e.a.got <==> DQ.Chosen(w.ps[i], e.now) < |w.ps[i].classes|))
            && (e.a.Work? && at.Sending? ==> call.None?)
            && (!e.a.Work? && call.Some? ==>
                  !call.value.Deq? && (call.value.Req? ==> DQ.FindPort(w.ps, call.value.port) != i))
  {
    hide DQ.Chosen, DQ.PairedPorts, DQ.Faults, Carried;
    PortByKey(w.ps, r);
    if PolicyCall(w, e).Some? { PortByKey(w.ps, PolicyCall(w, e).value.port); }
    hide DQ.FindPort;
  }

  lemma PortByKey(ps: seq<DQ.Port>, r: Ref)
    ensures DQ.FindPort(ps, r) < |ps| ==> ps[DQ.FindPort(ps, r)].key == r
  {
  }

  // ---------- the log under the PDU in hand ----------

  /** A dequeue that chooses the limited class leaves a record; an enqueue leaves the log alone, and
      so does a requeue elsewhere.
   */
  lemma CallLogs(ps: seq<DQ.Port>, op: DQ.Op, i: nat, k: nat)
    requires DQ.Enabled(ps, op) && i < |ps| && k < |ps[i].classes|
    ensures var qs := DQ.Step(ps, op);
            && i < |qs| && |qs[i].classes| == |ps[i].classes|
            && (op.Enq? || (op.Req? && DQ.FindPort(ps, op.port) != i) ==> qs[i].classes[k].log == ps[i].classes[k].log)
            && (op.Deq? && DQ.FindPort(ps, op.port) == i && DQ.Chosen(ps[i], op.now) == k ==>
                  ps[i].classes[k].params.limitOut ==> qs[i].classes[k].log != [])
  {
    if op.Deq? && DQ.FindPort(ps, op.port) == i {
      Ledger.DequeueIs(ps[i], op.now);
      if DQ.Chosen(ps[i], op.now) == k { Order.RequeueUndoesDequeue(ps[i], op.now); }
    }
    hide DQ.Dequeue, DQ.Chosen;
  }

  lemma EventKeepsLogged(w: World, e: Event, r: Ref, k: nat)
    requires WorldInv(w) && CanEvent(w, e) && NoneReturns(w.s, r) && HandLogged(w, r, k)
    ensures HandLogged(Happen(w, e), r, k)
  {
    hide WorldInv, PolicyCall, Carried, Can, Do, DQ.FindPort, DQ.FindClass, DQ.Chosen, DQ.Step, DQ.PairedPorts;
    hide DQ.Faults, Took, Answers, Hand;
    var w' := Happen(w, e);
    if InHand(w', r, k) {
      HandComesFrom(w, e, r, k);
      EventConfig(w, e);
      SamePortFound(w.ps, w'.ps, r);
      var call, i := PolicyCall(w, e), DQ.FindPort(w.ps, r);
      if call.Some? { CallLogs(w.ps, call.value, i, k); }
    }
  }

  lemma EventKeepsOpen(w: World, e: Event, r: Ref, k: nat, h: Order.History)
    requires WorldInv(w) && CanEvent(w, e) && NoneReturns(w.s, r) && HandOpen(w, r, k, h)
    ensures var call, i := PolicyCall(w, e), DQ.FindPort(w.ps, r);
            && (call.Some? ==> Order.Undoes(w.ps, call.value, i, k, h))
            && HandOpen(Happen(w, e), r, k, if call.Some? then Order.Recorded(w.ps, call.value, i, k, h) else h)
  {
    hide WorldInv, PolicyCall, Carried, Can, Do, Hand, InHand, Took, Answers, Configured, Order.Undoes, Order.Recorded;
    hide DQ.FindPort, DQ.FindClass, DQ.Chosen, DQ.Step, DQ.PairedPorts, DQ.Faults;
    var call, i := PolicyCall(w, e), DQ.FindPort(w.ps, r);
    var w' := Happen(w, e);
    if call.Some? { RequeueIsUndo(w, e, r, k, h); }
    if InHand(w', r, k) {
      HandComesFrom(w, e, r, k);
      if call.Some? { CallRecords(w.ps, call.value, i, k, h); }
    }
  }

  /** What a call does to the history of a class. */
  lemma CallRecords(ps: seq<DQ.Port>, op: DQ.Op, i: nat, k: nat, h: Order.History)
    requires DQ.Enabled(ps, op) && Order.Undoes(ps, op, i, k, h) && i < |ps| && k < |ps[i].classes|
    ensures var h' := Order.Recorded(ps, op, i, k, h);
            && (op.Enq? || (op.Req? && DQ.FindPort(ps, op.port) != i) ==>
                  h'.open == h.open && h'.delivered == h.delivered)
            && (op.Deq? && Configured(ps, op) && DQ.FindPort(ps, op.port) == i && DQ.Chosen(ps[i], op.now) == k ==>
                  Took(ps, op).Some? ==>
                  h'.open && h'.delivered != [] && h'.delivered[|h'.delivered| - 1].p == Took(ps, op).value)
  {
    Order.StepQueues(ps, op, i, k);
    hide DQ.Step, DQ.Chosen, DQ.PairedPorts, DQ.Faults;
  }

  lemma RequeueIsUndo(w: World, e: Event, r: Ref, k: nat, h: Order.History)
    requires WorldInv(w) && CanEvent(w, e) && NoneReturns(w.s, r) && HandOpen(w, r, k, h) && PolicyCall(w, e).Some?
    ensures Order.Undoes(w.ps, PolicyCall(w, e).value, DQ.FindPort(w.ps, r), k, h)
  {
    hide WorldInv, Carried, DQ.FindClass, DQ.Chosen, DQ.Step, DQ.PairedPorts, DQ.Faults, Took, Answers, Hand;
    PortByKey(w.ps, r);
    PortByKey(w.ps, PolicyCall(w, e).value.port);
    hide DQ.FindPort;
  }

  /** From a state in which the hand is open in the history, every requeue of the run that reaches
      the class is an undo.
   */
  lemma {:induction false} RunUndoes(w: World, run: seq<Event>, r: Ref, k: nat, h: Order.History)
    requires WorldInv(w) && Happens(w, run) && NoSenderEagain(w, run, r) && NoneReturns(w.s, r) && HandOpen(w, r, k, h)
    ensures DQ.Runs(w.ps, Calls(w, run)) && Order.UndoRun(w.ps, Calls(w, run), DQ.FindPort(w.ps, r), k, h)
    decreases |run|
  {
    CallsRun(w, run);
    hide WorldInv, PolicyCall, Carried, Can, Do, Hand, DQ.Step, DQ.PairedPorts, DQ.Faults, Answers, Configured;
    hide DQ.FindPort, HandOpen, NoneReturns, SenderEagain, Order.Recorded, Order.Undoes;
    if run != [] {
      var e, call, i := run[0], PolicyCall(w, run[0]), DQ.FindPort(w.ps, r);
      var w' := Happen(w, e);
      EventKeepsInv(w, e);
      EventKeepsOpen(w, e, r, k, h);
      StepKeepsNone(w.s, e.a, r);
      EventConfig(w, e);
      SamePortsFound(w.ps, w'.ps, r);
      RunUndoes(w', run[1..], r, k, if call.Some? then Order.Recorded(w.ps, call.value, i, k, h) else h);
      var rest := Calls(w', run[1..]);
      if call.Some? {
        assert Calls(w, run) == [call.value] + rest && ([call.value] + rest)[1..] == rest;
      } else {
        assert Calls(w, run) == rest;
      }
    }
  }

  lemma SamePortsFound(ps: seq<DQ.Port>, qs: seq<DQ.Port>, r: Ref)
    requires SameConfig(ps, qs)
    ensures DQ.FindPort(ps, r) == DQ.FindPort(qs, r)
  {
    SamePortFound(ps, qs, r);
  }

  lemma {:induction false} RunKeepsLogged(w: World, run: seq<Event>, r: Ref, k: nat)
    requires WorldInv(w) && Happens(w, run) && NoSenderEagain(w, run, r) && NoneReturns(w.s, r) && HandLogged(w, r, k)
    ensures NoneReturns(Outcome(w, run).s, r) && HandLogged(Outcome(w, run), r, k)
    decreases |run|
  {
    hide WorldInv, PolicyCall, Carried, Can, Do, Hand, DQ.Step, DQ.PairedPorts, DQ.Faults, Answers, Configured;
    hide DQ.FindPort, HandLogged, NoneReturns, SenderEagain;
    if run != [] {
      EventKeepsInv(w, run[0]);
      EventKeepsLogged(w, run[0], r, k);
      StepKeepsNone(w.s, run[0].a, r);
      RunKeepsLogged(Happen(w, run[0]), run[1..], r, k);
    }
  }

  lemma StartIsIdle(w: World, r: Ref, k: nat, h: Order.History)
    requires Start(w)
    ensures NoneReturns(w.s, r) && HandLogged(w, r, k) && HandOpen(w, r, k, h)
  {
  }

  /** As long as no sender's write on the port says EAGAIN, no step of the protocol on it reads
      through a null pointer: the PDU that comes back finds its send record.
   */
  lemma {:induction false} NeverReadsNull(w: World, run: seq<Event>, r: Ref, e: Event)
    requires Start(w) && Happens(w, run) && NoSenderEagain(w, run, r)
    requires Carried(Outcome(w, run)) && Can(Outcome(w, run).s, e.a)
    requires PolicyCall(Outcome(w, run), e).Some? && PolicyCall(Outcome(w, run), e).value.port == r
    ensures !ReadsNull(Outcome(w, run), e)
  {
    var w', op := Outcome(w, run), PolicyCall(Outcome(w, run), e).value;
    var i := DQ.FindPort(w'.ps, r);
    var k := if i < |w'.ps| then DQ.FindClass(w'.ps[i].classes, w'.hand.qos) else 0;
    StartInv(w);
    StartIsIdle(w, r, k, Order.History([], [], false));
    RunKeepsLogged(w, run, r, k);
    LoggedReturn(w', e, r, k);
  }

  lemma LoggedReturn(w: World, e: Event, r: Ref, k: nat)
    requires Carried(w) && Can(w.s, e.a) && NoneReturns(w.s, r) && HandLogged(w, r, k)
    requires PolicyCall(w, e).Some? && PolicyCall(w, e).value.port == r
    requires var i := DQ.FindPort(w.ps, r); i < |w.ps| ==> k == DQ.FindClass(w.ps[i].classes, w.hand.qos)
    ensures !ReadsNull(w, e)
  {
    hide DQ.FindPort, DQ.FindClass, Carried;
  }

  /** The RMT running with DeltaQ serves every class of the port first in, first out: as long as no
      sender's write on the port says EAGAIN, all its requeues undo the worker's last dequeue, and
      what the class accepted is, in order and with its times, what the worker took for good
      followed by the queue.
   */
  lemma {:induction false} ServiceIsFifo(w: World, run: seq<Event>, r: Ref, k: nat)
    requires Start(w) && Happens(w, run) && NoSenderEagain(w, run, r)
    requires var i := DQ.FindPort(w.ps, r); i < |w.ps| && k < |w.ps[i].classes|
    ensures var i, ops, none := DQ.FindPort(w.ps, r), Calls(w, run), Order.History([], [], false);
            && DQ.Runs(w.ps, ops) && Order.UndoRun(w.ps, ops, i, k, none)
            && i < |Outcome(w, run).ps| && k < |Outcome(w, run).ps[i].classes|
            && Order.InOrder(Outcome(w, run).ps[i].classes[k], Order.HistoryAfter(w.ps, ops, i, k, none))
  {
    hide Order.Zip, Can, Do, Carried, Hand, PolicyCall;
    var i, ops, none := DQ.FindPort(w.ps, r), Calls(w, run), Order.History([], [], false);
    StartInv(w);
    StartIsIdle(w, r, k, none);
    RunUndoes(w, run, r, k, none);
    CallsRun(w, run);
    FreshInOrder(w.ps[i].classes[k]) by { assert Ledger.FreshClass(w.ps[i].classes[k]); }
    Order.FifoWithUndo(w.ps, ops, i, k, none);
  }

  lemma FreshInOrder(c: DQ.Class)
    requires Ledger.FreshClass(c)
    ensures Order.InOrder(c, Order.History([], [], false))
  {
  }
}
