/** The burst limit of the RMT running with DeltaQ. */
module RmtDeltaQRate {
  import opened Options
  import opened Rmt
  import opened RmtSafety
  import opened RmtDeltaQ
  import opened RmtDeltaQFifo
  import DQ = DeltaQSpec
  import Ledger = DeltaQLedger
  import Rate = DeltaQRate
  import Order = DeltaQOrder
  import Undo = DeltaQUndo

  // ---------- the clock of the calls ----------

  lemma EarlierClock(t: int, now: int, ops: seq<DQ.Op>)
    requires DQ.Clocked(now, ops) && t <= now
    ensures DQ.Clocked(t, ops)
    decreases |ops|
  {
    if ops != [] && ops[0].Req? { EarlierClock(t, now, ops[1..]); }
  }

  lemma {:induction false} CallsClocked(w: World, run: seq<Event>)
    requires Happens(w, run)
    ensures DQ.Clocked(w.now, Calls(w, run))
    decreases |run|
  {
    hide Carried, Can, Do, Hand, DQ.Step, DQ.PairedPorts, DQ.Faults, Answers, Configured;
    if run != [] {
      var call, w' := PolicyCall(w, run[0]), Happen(w, run[0]);
      if call.Some? { CallClock(w, run[0]); }
      hide PolicyCall;
      var rest := Calls(w', run[1..]);
      CallsClocked(w', run[1..]);
      EarlierClock(w.now, w'.now, rest);
      if call.Some? {
        assert Calls(w, run) == [call.value] + rest && ([call.value] + rest)[1..] == rest;
      } else {
        assert Calls(w, run) == rest;
      }
    }
  }

  // ---------- the sizes in the calls ----------

  predicate SmallQueue(c: DQ.Class, m: nat) {
    forall j :: 0 <= j < |c.queue| ==> c.queue[j].size <= m
  }

  predicate SmallQueues(ps: seq<DQ.Port>, m: nat) {
    forall i, k :: 0 <= i < |ps| && 0 <= k < |ps[i].classes| ==> SmallQueue(ps[i].classes[k], m)
  }

  /** The worker carries a PDU. */
  predicate HasInHand(s: Sys) {
    var pc := s.worker.pc;
    pc.Visit? && pc.r in s.ports && (pc.at.Sending? || pc.at.PuttingBack?)
  }

  /** The PDUs in hand and in the queues have at most `m` bytes. */
  predicate Small(w: World, m: nat) {
    && SmallQueues(w.ps, m)
    && (forall t :: t in w.s.threads && HasPdu(w.s.threads[t].at) ==> t in w.held && w.held[t].size <= m)
    && (HasInHand(w.s) ==> w.hand.size <= m)
  }

  predicate SmallSends(run: seq<Event>, m: nat) {
    forall j :: 0 <= j < |run| && run[j].a.Send? ==> run[j].p.size <= m
  }

  lemma CallKeepsSmall(ps: seq<DQ.Port>, op: DQ.Op, m: nat)
    requires DQ.Enabled(ps, op) && SmallQueues(ps, m) && (!op.Deq? ==> op.p.size <= m)
    ensures SmallQueues(DQ.Step(ps, op), m)
  {
    hide DQ.Step, DQ.PairedPorts, DQ.Faults, Order.Reaches;
    CallKeepsConfig(ps, op);
    forall i, k | 0 <= i < |ps| && 0 <= k < |ps[i].classes| ensures SmallQueue(DQ.Step(ps, op)[i].classes[k], m) {
      Order.StepQueues(ps, op, i, k);
      assert SmallQueue(ps[i].classes[k], m);
    }
  }

  lemma CallIsSmall(w: World, e: Event, m: nat)
    requires Small(w, m) && CanEvent(w, e) && PolicyCall(w, e).Some?
    ensures !PolicyCall(w, e).value.Deq? ==> PolicyCall(w, e).value.p.size <= m
  {
    hide SmallQueues, DQ.PairedPorts, DQ.Faults, DQ.FindPort, Carried, Answers;
  }

  /** The hand changes only by a poll, to a PDU that was queued. */
  lemma NewHandSmall(w: World, e: Event, m: nat)
    requires CanEvent(w, e) && SmallQueues(w.ps, m)
    ensures Hand(w, e) == w.hand || Hand(w, e).size <= m
    ensures var pc := w.s.worker.pc;
            pc.Visit? && pc.r in w.s.ports && pc.at.Polling? && e.a.Work? && e.a.got ==> Hand(w, e).size <= m
  {
    var call := PolicyCall(w, e);
    if call.Some? && call.value.Deq? {
      var i := DQ.FindPort(w.ps, call.value.port);
      Ledger.DequeueIs(w.ps[i], call.value.now);
      var b := DQ.Chosen(w.ps[i], call.value.now);
      if b < |w.ps[i].classes| {
        DQ.ExpireKeeps(w.ps[i].classes[b], call.value.now - w.ps[i].classes[b].params.oBurstT);
        assert SmallQueue(w.ps[i].classes[b], m);
      }
    }
  }

  lemma EventKeepsSmall(w: World, e: Event, m: nat)
    requires Linked(w.s) && Small(w, m) && CanEvent(w, e) && (e.a.Send? ==> e.p.size <= m)
    ensures Small(Happen(w, e), m)
  {
    hide SmallQueues, PolicyCall, Carried, Hand, Answers, Configured, Can, Do, Linked;
    hide DQ.Step, DQ.PairedPorts, DQ.Faults;
    var w', call := Happen(w, e), PolicyCall(w, e);
    if call.Some? {
      CallIsSmall(w, e, m);
      CallKeepsSmall(w.ps, call.value, m);
    }
    forall t | t in w'.s.threads && HasPdu(w'.s.threads[t].at) ensures t in w'.held && w'.held[t].size <= m {
      ThreadsFrom(w.s, e.a, t);
    }
    if HasInHand(w'.s) {
      HandFrom(w.s, e.a);
      NewHandSmall(w, e, m);
    }
  }

  lemma {:induction false} CallsSmall(w: World, run: seq<Event>, m: nat)
    requires WorldInv(w) && Small(w, m) && Happens(w, run) && SmallSends(run, m)
    ensures Rate.SmallOps(Calls(w, run), m)
    decreases |run|
  {
    hide WorldInv, PolicyCall, Carried, Can, Do, Hand, DQ.Step, DQ.PairedPorts, DQ.Faults, Answers, Configured, Small;
    if run != [] {
      var call, w' := PolicyCall(w, run[0]), Happen(w, run[0]);
      InvLinked(w);
      EventKeepsInv(w, run[0]);
      EventKeepsSmall(w, run[0], m);
      assert forall j :: 0 <= j < |run[1..]| ==> run[1..][j] == run[j + 1];
      CallsSmall(w', run[1..], m);
      var rest := Calls(w', run[1..]);
      if call.Some? {
        CallIsSmall(w, run[0], m);
        assert Calls(w, run) == [call.value] + rest;
      } else {
        assert Calls(w, run) == rest;
      }
    }
  }

  lemma InvLinked(w: World)
    requires WorldInv(w)
    ensures Linked(w.s)
  {
    AccountedLinked(w.s);
  }

  // ---------- the burst limit ----------

  lemma StartFacts(w: World, m: nat)
    requires Start(w)
    ensures Small(w, m) && w.now >= 0 && Ledger.Fresh(w.ps)
  {
    forall i, k | 0 <= i < |w.ps| && 0 <= k < |w.ps[i].classes| ensures SmallQueue(w.ps[i].classes[k], m) {
      assert Ledger.FreshClass(w.ps[i].classes[k]);
    }
  }

  /** As long as no sender's own write on the port says EAGAIN, and the oldest send record of a limited
      class is never larger than a PDU the worker puts back to it, what the worker takes of it for good
      stays within the burst size in every closed interval as long as the burst time.
   */
  lemma {:induction false} ServiceWithinBurst(w: World, run: seq<Event>, r: Ref, k: nat, m: nat, from: int)
    requires Start(w) && Happens(w, run) && NoSenderEagain(w, run, r) && SmallSends(run, m)
    requires var i := DQ.FindPort(w.ps, r);
             && i < |w.ps| && k < |w.ps[i].classes|
             && w.ps[i].classes[k].params.limitOut && w.ps[i].classes[k].params.oBurstS + m < DQ.U32
    requires DQ.Runs(w.ps, Calls(w, run)) && Undo.FittingRun(w.ps, Calls(w, run), DQ.FindPort(w.ps, r), k)
    ensures var i, ops := DQ.FindPort(w.ps, r), Calls(w, run);
            var q, h := w.ps[i].classes[k].params, Undo.TrailAfter(w.ps, ops, i, k, Undo.NOTHING).sent;
            Ledger.Sum(Rate.Window(h, from, from + q.oBurstT)) <= q.oBurstS
  {
    hide *;
    CallsFacts(w, run, r, k, m);
    Undo.UndoRateGuarantee(w.ps, Calls(w, run), m, DQ.FindPort(w.ps, r), k, from);
  }

  lemma CallsFacts(w: World, run: seq<Event>, r: Ref, k: nat, m: nat)
    requires Start(w) && Happens(w, run) && NoSenderEagain(w, run, r) && SmallSends(run, m)
    requires var i := DQ.FindPort(w.ps, r); i < |w.ps| && k < |w.ps[i].classes|
    ensures var ops := Calls(w, run);
            && Ledger.Fresh(w.ps) && DQ.Runs(w.ps, ops) && DQ.Clocked(0, ops) && Rate.SmallOps(ops, m)
            && Order.UndoRun(w.ps, ops, DQ.FindPort(w.ps, r), k, Order.History([], [], false))
  {
    hide *;
    StartInv(w);
    StartFacts(w, m);
    ServiceIsFifo(w, run, r, k);
    CallsSmall(w, run, m);
    CallsClocked(w, run);
    EarlierClock(0, w.now, Calls(w, run));
  }
}
