/** What the port protocol and DeltaQ give each other over whole runs: the protocol's results with
    DeltaQ's queues, and which steps of the protocol DeltaQ can answer.
 */
module RmtDeltaQRuns {
  import opened Options
  import opened Rmt
  import opened RmtSafety
  import opened RmtCalls
  import opened RmtDeltaQ
  import DQ = DeltaQSpec
  import Ledger = DeltaQLedger
  import Order = DeltaQOrder

  // ---------- the protocol's own results, with DeltaQ ----------

  function Actions(run: seq<Event>): (r: seq<Action>)
    ensures |r| == |run| && forall i :: 0 <= i < |run| ==> r[i] == run[i].a
  {
    seq(|run|, i requires 0 <= i < |run| => run[i].a)
  }

  /** A run with DeltaQ is a run of the protocol. */
  lemma {:induction false} Projects(w: World, run: seq<Event>)
    requires Happens(w, run)
    ensures Runs(w.s, Actions(run)) && After(w.s, Actions(run)) == Outcome(w, run).s
    decreases |run|
  {
    hide Can, Do, PolicyCall, Carried, Hand;
    if run != [] {
      assert Actions(run)[1..] == Actions(run[1..]);
      Projects(Happen(w, run[0]), run[1..]);
    }
  }

  /** A freed port leaves in DeltaQ's queues and in flight exactly the PDUs that came back with
      EAGAIN beyond those DeltaQ dropped.
   */
  lemma {:induction false} FreedWithDeltaQ(w: World, run: seq<Event>, e: Event, r: Ref)
    requires Start(w) && Happens(w, run) && NoStrays(w, run) && CanEvent(Outcome(w, run), e)
    requires r in Outcome(w, run).s.ports && r !in Happen(Outcome(w, run), e).s.ports
    ensures var w', i := Outcome(w, run), DQ.FindPort(Outcome(w, run).ps, r);
            && i < |w'.ps|
            && Ledger.Queued(w'.ps[i].classes) + InFlight(Happen(w', e).s, r) ==
               w'.s.ports[r].returned - w'.s.ports[r].refused
  {
    hide Can, Do, PolicyCall, InFlight, Carried, Hand;
    CountsAgree(w, run, r);
    Projects(w, run);
    FreedPort(w.s, Actions(run), e.a, r);
    RunRemembers(w.s, Actions(run));
  }

  /** A sender comes to write its PDU itself only when no class of its port holds any, so that it
      overtakes nothing.
   */
  lemma {:induction false} WritesOnlyWhenEmpty(w: World, run: seq<Event>, e: Event, t: Tid, r: Ref)
    requires Start(w) && Happens(w, run) && NoStrays(w, run) && CanEvent(Outcome(w, run), e)
    requires IsAt(Happen(Outcome(w, run), e).s, t, r, Writing) && !IsAt(Outcome(w, run).s, t, r, Writing)
    ensures var ps, i := Outcome(w, run).ps, DQ.FindPort(Outcome(w, run).ps, r);
            && i < |ps| && Ledger.Queued(ps[i].classes) == 0
            && forall k :: 0 <= k < |ps[i].classes| ==> ps[i].classes[k].queue == []
  {
    hide Can, Do, PolicyCall, Carried, Hand, IsAt;
    var w' := Outcome(w, run);
    WritesPastNothing(w'.s, e.a, t, r);
    CountsAgree(w, run, r);
    Order.EmptyMeansZero(w'.ps[DQ.FindPort(w'.ps, r)].classes);
  }

  // ---------- a poll ----------

  lemma PollAnswer(w: World, e: Event, r: Ref, sent: nat)
    requires CanEvent(w, e) && e.a.Work? && r in w.s.ports && w.s.worker.pc == Visit(r, Polling(sent))
    ensures w.now <= e.now
    ensures var i := DQ.FindPort(w.ps, r);
            i < |w.ps| && DQ.AllPaired(w.ps[i]) && e.a.got == (DQ.Chosen(w.ps[i], e.now) < |w.ps[i].classes|)
  {
    hide DQ.Chosen, DQ.FindPort, Carried;
  }

  lemma PolledHasPdu(s: Sys, r: Ref, sent: nat)
    requires Accounted(s) && r in s.ports && s.worker.pc == Visit(r, Polling(sent))
    ensures s.ports[r].nSdus > 0
  {
  }

  /** When DeltaQ limits no class of the port and treats them alike, a poll gets a PDU. */
  lemma {:induction false} PollServes(w: World, run: seq<Event>, e: Event, r: Ref, sent: nat, mul: int)
    requires Start(w) && Happens(w, run) && NoStrays(w, run) && CanEvent(Outcome(w, run), e)
    requires e.a.Work? && r in Outcome(w, run).s.ports && Outcome(w, run).s.worker.pc == Visit(r, Polling(sent))
    requires var ps, i := Outcome(w, run).ps, DQ.FindPort(Outcome(w, run).ps, r);
             i < |ps| ==> Order.EqualTreatment(ps[i], mul) && InTime(ps[i], e.now)
    ensures e.a.got
  {
    hide *;
    var w' := Outcome(w, run);
    StartInv(w);
    RunKeepsInv(w, run);
    CountsAgree(w, run, r);
    var i := DQ.FindPort(w'.ps, r);
    PortOf(w', i);
    PolledHasPdu(w'.s, r, sent);
    PollAnswer(w', e, r, sent);
    HeadsInTime(w'.ps[i], w'.now, e.now);
    Order.NothingMeansEmpty(w'.ps[i], w'.now, e.now, mul);
  }

  lemma PortOf(w: World, i: nat)
    requires WorldInv(w) && i < |w.ps|
    ensures Accounted(w.s) && Ledger.PortInv(w.ps[i], w.now)
  {
  }

  /** No head is so early that its scaled slack reaches KTIME_MAX. */
  predicate InTime(port: DQ.Port, now: int) {
    forall k :: 0 <= k < |port.classes| && port.classes[k].queue != [] && port.classes[k].wtimes != [] ==>
      DQ.Slack(port.classes[k], now) < DQ.KTIME_MAX
  }

  lemma HeadsInTime(port: DQ.Port, now: int, now': int)
    requires Ledger.PortInv(port, now) && InTime(port, now')
    ensures forall k :: 0 <= k < |port.classes| && port.classes[k].queue != [] ==>
              port.classes[k].wtimes != [] && DQ.Slack(port.classes[k], now') < DQ.KTIME_MAX
  {
    hide DQ.Slack;
    forall k | 0 <= k < |port.classes| && port.classes[k].queue != [] ensures port.classes[k].wtimes != [] {
      assert Ledger.ClassInv(port.classes[k], now);
    }
  }

  // ---------- which steps DeltaQ can answer ----------

  /** The step as DeltaQ answers it. */
  function Answered(w: World, e: Event): Event
    requires Carried(w) && Can(w.s, e.a) && DQ.PairedPorts(w.ps)
  {
    var call := PolicyCall(w, e);
    if call.None? || !Configured(w.ps, call.value) then e
    else
      var op := call.value;
      var i := DQ.FindPort(w.ps, op.port);
      if op.Enq? && e.a.Step? then e.(a := Step(e.a.t, HasClass(w.ps, op) && !e.drop, e.a.ret))
      else if op.Deq? && e.a.Work? then e.(a := Work(DQ.Chosen(w.ps[i], op.now) < |w.ps[i].classes|, e.a.ret))
      else e
  }

  /** The step returns a PDU to a limited class that has no send record. */
  predicate ReadsNull(w: World, e: Event)
    requires Carried(w) && Can(w.s, e.a)
  {
    PolicyCall(w, e).Some? && DQ.Faults(w.ps, PolicyCall(w, e).value)
  }

  /** Every step of the protocol, with DeltaQ's answers, is a step of the two together, except one
      that reads through a null pointer.
   */
  lemma {:induction false} StepHappensIff(w: World, e: Event)
    requires WorldInv(w) && Can(w.s, e.a) && w.now <= e.now
    requires e.a.Bind? ==> DQ.FindPort(w.ps, e.a.r) < |w.ps|
    ensures DQ.PairedPorts(w.ps) && (CanEvent(w, Answered(w, e)) <==> !ReadsNull(w, e))
  {
    LedgerPairs(w);
    SameCall(w, e);
    if PolicyCall(w, e).Some? { CallIsBound(w, e); }
    hide Accounted, Ledger.Inv, Filed, HandKnown, Carried, DQ.PairedPorts, DQ.Faults, DQ.FindPort, DQ.FindClass;
    hide DQ.Chosen, PolicyCall, Can;
  }

  lemma LedgerPairs(w: World)
    requires WorldInv(w)
    ensures DQ.PairedPorts(w.ps)
  {
    hide Accounted, Filed, HandKnown, Carried, Placed;
    forall i | 0 <= i < |w.ps| ensures DQ.AllPaired(w.ps[i]) {
      assert Ledger.PortInv(w.ps[i], w.now);
      forall k | 0 <= k < |w.ps[i].classes| ensures DQ.Paired(w.ps[i].classes[k]) {
        assert Ledger.ClassInv(w.ps[i].classes[k], w.now);
      }
    }
  }

  /** The answers do not change the call. */
  lemma SameCall(w: World, e: Event)
    requires Carried(w) && Can(w.s, e.a) && DQ.PairedPorts(w.ps)
    ensures Can(w.s, Answered(w, e).a) && PolicyCall(w, Answered(w, e)) == PolicyCall(w, e)
    ensures Answered(w, e).now == e.now && (Answered(w, e).a.Bind? <==> e.a.Bind?)
            && (e.a.Bind? ==> Answered(w, e).a == e.a)
    ensures PolicyCall(w, e).Some? && Configured(w.ps, PolicyCall(w, e).value)
            && DQ.Enabled(w.ps, PolicyCall(w, e).value) ==>
              Answers(w.ps, PolicyCall(w, e).value, Answered(w, e).a)
  {
    hide DQ.PairedPorts, DQ.Faults, DQ.FindPort, DQ.Chosen, Carried, HasClass;
  }

  // ---------- conditions a caller can check ----------

  /** DeltaQ limits no class of the port. */
  predicate Unlimited(ps: seq<DQ.Port>, r: Ref) {
    var i := DQ.FindPort(ps, r);
    i < |ps| ==> forall k :: 0 <= k < |ps[i].classes| ==> !ps[i].classes[k].params.limitOut
  }

  lemma {:induction false} RunKeepsConfig(w: World, run: seq<Event>)
    requires Happens(w, run)
    ensures SameConfig(w.ps, Outcome(w, run).ps)
    decreases |run|
  {
    hide CanEvent, Happen;
    if run != [] {
      EventConfig(w, run[0]);
      RunKeepsConfig(Happen(w, run[0]), run[1..]);
    }
  }

  /** On a port without limited classes no step of any run reads through a null pointer. */
  lemma {:induction false} UnlimitedReadsNoNull(w: World, run: seq<Event>, r: Ref, e: Event)
    requires Happens(w, run) && Unlimited(w.ps, r)
    requires Carried(Outcome(w, run)) && Can(Outcome(w, run).s, e.a)
    requires PolicyCall(Outcome(w, run), e).Some? && PolicyCall(Outcome(w, run), e).value.port == r
    ensures !ReadsNull(Outcome(w, run), e)
  {
    var w' := Outcome(w, run);
    RunKeepsConfig(w, run);
    hide Can, Carried, Happens, Outcome, PolicyCall, DQ.FindPort, DQ.FindClass;
    SamePortFound(w.ps, w'.ps, r);
  }

  /** DeltaQ knows the class of every PDU that is sent. */
  predicate SendsKnown(ps: seq<DQ.Port>, run: seq<Event>) {
    forall j :: 0 <= j < |run| && run[j].a.Send? ==> Known(ps, run[j].a.r, run[j].p)
  }

  predicate HeldKnown(w: World) {
    forall t :: t in w.s.threads && HasPdu(w.s.threads[t].at) ==>
      t in w.held && Known(w.ps, w.s.threads[t].r, w.held[t])
  }

  lemma EventKeepsHeld(w: World, e: Event)
    requires HeldKnown(w) && CanEvent(w, e) && (e.a.Send? ==> Known(w.ps, e.a.r, e.p))
    ensures HeldKnown(Happen(w, e))
  {
    hide DQ.Step, PolicyCall, Configured, Answers, Hand, DQ.PairedPorts, DQ.Faults, Known, Carried;
    var w' := Happen(w, e);
    EventConfig(w, e);
    forall t | t in w'.s.threads && HasPdu(w'.s.threads[t].at)
      ensures t in w'.held && Known(w'.ps, w'.s.threads[t].r, w'.held[t])
    {
      ThreadsFrom(w.s, e.a, t);
      SameConfigKnows(w.ps, w'.ps, w'.s.threads[t].r, w'.held[t]);
    }
  }

  /** Then no returned PDU strays, so that the counts agree. */
  lemma {:induction false} KnownNeverStrays(w: World, run: seq<Event>)
    requires HeldKnown(w) && Happens(w, run) && SendsKnown(w.ps, run)
    ensures NoStrays(w, run)
    decreases |run|
  {
    hide PolicyCall, Can, Do, Hand, DQ.Step, DQ.PairedPorts, DQ.Faults, Answers, Configured, Known;
    if run != [] {
      var w' := Happen(w, run[0]);
      KnownDoesNotStray(w, run[0]);
      EventKeepsHeld(w, run[0]);
      EventConfig(w, run[0]);
      forall j | 0 <= j < |run[1..]| && run[1..][j].a.Send? ensures Known(w'.ps, run[1..][j].a.r, run[1..][j].p) {
        assert run[1..][j] == run[j + 1];
        SameConfigKnows(w.ps, w'.ps, run[j + 1].a.r, run[j + 1].p);
      }
      KnownNeverStrays(w', run[1..]);
    }
  }

  lemma KnownDoesNotStray(w: World, e: Event)
    requires HeldKnown(w) && Carried(w) && Can(w.s, e.a)
    ensures !Strays(w, e)
  {
  }

  /** So `n_sdus` and DeltaQ's counts agree throughout when every PDU sent has a class. */
  lemma {:induction false} KnownClassesAgree(w: World, run: seq<Event>)
    requires Start(w) && Happens(w, run) && SendsKnown(w.ps, run)
    ensures AgreesThroughout(w, run)
  {
    StartInv(w);
    KnownNeverStrays(w, run);
    RunAgreesIff(w, run);
  }

  // ---------- a direct write that says EAGAIN ----------

  /** One port with one class of key 7, nothing done yet. */
  function Untouched(limited: bool, p: DQ.Pdu): World {
    World(Sys(Policy(true, true), map[], {}, map[], Worker(Idle, {}, 0), false),
          [DQ.Port(1, 0, [DQ.Class(7, DQ.Params(limited, 0, 10, 0, 0), [], [], [], 0, 0)])], 0, map[], p)
  }

  /** The port is bound, and a sender with the PDU is at the given place. */
  function SenderAt(limited: bool, p: DQ.Pdu, at: Spot): World {
    var w := Untouched(limited, p);
    World(Sys(Policy(true, true), map[1 := Port(ENABLED, 0, 1, 0, 0, 0)], {1}, map[0 := Thread(1, at)],
              Worker(Idle, {}, 0), false),
          w.ps, 0, map[0 := p], p)
  }

  ghost predicate ReachedWorld(w: World, w': World) {
    exists run: seq<Event> :: Happens(w, run) && Outcome(w, run) == w'
  }

  lemma {:induction false} ExtendEvents(w: World, run: seq<Event>, e: Event)
    requires Happens(w, run) && CanEvent(Outcome(w, run), e)
    ensures Happens(w, run + [e]) && Outcome(w, run + [e]) == Happen(Outcome(w, run), e)
    decreases |run|
  {
    hide CanEvent, Happen;
    if run == [] {
      assert run + [e] == [e] && [e][1..] == [];
    } else {
      assert (run + [e])[1..] == run[1..] + [e];
      ExtendEvents(Happen(w, run[0]), run[1..], e);
    }
  }

  lemma ReachWorld(w: World, w': World, e: Event)
    requires ReachedWorld(w, w') && CanEvent(w', e)
    ensures ReachedWorld(w, Happen(w', e))
  {
    hide CanEvent, Happen;
    var run :| Happens(w, run) && Outcome(w, run) == w';
    ExtendEvents(w, run, e);
  }

  /** The sender finds the port idle, writes the PDU itself, and is told to try again. */
  lemma ReachReturning(limited: bool, p: DQ.Pdu)
    ensures Start(Untouched(limited, p)) && ReachedWorld(Untouched(limited, p), SenderAt(limited, p, Returning))
  {
    hide ReachedWorld;
    var w0 := Untouched(limited, p);
    assert ReachedWorld(w0, w0) by { ReachNothing(w0); }
    var bind := Event(Bind(1, false), p, false, 0);
    ReachWorld(w0, w0, bind);
    var w1 := Happen(w0, bind);
    assert w1.s.ports == map[1 := Port(ENABLED, 0, 0, 0, 0, 0)] && w1.s.threads == map[] && w1.ps == w0.ps;
    var send := Event(Send(0, 1), p, false, 0);
    ReachWorld(w0, w1, send);
    assert Happen(w1, send) == SenderAt(limited, p, Queueing);
    SenderMoves(limited, p, Queueing, OK, Writing);
    ReachWorld(w0, SenderAt(limited, p, Queueing), Event(Step(0, true, OK), p, false, 0));
    SenderMoves(limited, p, Writing, EAGAIN, Returning);
    ReachWorld(w0, SenderAt(limited, p, Writing), Event(Step(0, true, EAGAIN), p, false, 0));
  }

  lemma ReachNothing(w: World)
    ensures ReachedWorld(w, w)
  {
    assert Happens(w, []) && Outcome(w, []) == w;
  }

  lemma SenderMoves(limited: bool, p: DQ.Pdu, at: Spot, ret: Ret, next: Spot)
    requires (at == Queueing && next == Writing) || (at == Writing && ret == EAGAIN && next == Returning)
    ensures var w, e := SenderAt(limited, p, at), Event(Step(0, true, ret), p, false, 0);
            CanEvent(w, e) && Happen(w, e) == SenderAt(limited, p, next)
  {
    var w, e := SenderAt(limited, p, at), Event(Step(0, true, ret), p, false, 0);
    assert PolicyCall(w, e).None?;
    assert Do(w.s, e.a).threads == map[0 := Thread(1, next)];
  }

  /** A returned PDU of a class DeltaQ does not know strays: a run in which the counts agree up to a
      possible step after which they differ.
   */
  lemma DriftHappens() returns (w: World, w': World, e: Event)
    ensures Start(w) && ReachedWorld(w, w') && Agree(w') && CanEvent(w', e) && Strays(w', e)
    ensures var s, ps := Happen(w', e).s, Happen(w', e).ps; 1 in s.ports && s.ports[1].nSdus == 1 && Count(ps, 1) == 0
  {
    var p := DQ.Pdu(0, 8, 1);
    w, w', e := Untouched(false, p), SenderAt(false, p, Returning), Event(Step(0, true, OK), p, false, 0);
    ReachReturning(false, p);
    hide ReachedWorld, Start;
    DriftStep(p);
  }

  lemma DriftStep(p: DQ.Pdu)
    requires p.qos == 8
    ensures var w, e := SenderAt(false, p, Returning), Event(Step(0, true, OK), p, false, 0);
            && Agree(w) && CanEvent(w, e) && Strays(w, e)
            && var s, ps := Happen(w, e).s, Happen(w, e).ps; 1 in s.ports && s.ports[1].nSdus == 1 && Count(ps, 1) == 0
  {
    var w, e := SenderAt(false, p, Returning), Event(Step(0, true, OK), p, false, 0);
    assert DQ.FindPort(w.ps, 1) == 0 && DQ.FindClass(w.ps[0].classes, 8) == 1;
    assert PolicyCall(w, e) == Some(DQ.Req(1, p)) && DQ.Step(w.ps, DQ.Req(1, p)) == w.ps;
    hide DQ.Step, DQ.FindClass;
  }

  /** A PDU of a limited class that was never sent reads through a null pointer: a step that the
      protocol can take and DeltaQ cannot answer, whatever the answers.
   */
  lemma NullReadHappens() returns (w: World, w': World, e: Event)
    ensures Start(w) && ReachedWorld(w, w') && Carried(w') && Can(w'.s, e.a) && ReadsNull(w', e)
    ensures e.a.Step? && forall e': Event :: e'.a.Step? && e'.a.t == e.a.t ==> !CanEvent(w', e')
  {
    var p := DQ.Pdu(0, 7, 1);
    w, w', e := Untouched(true, p), SenderAt(true, p, Returning), Event(Step(0, true, OK), p, false, 0);
    ReachReturning(true, p);
    hide ReachedWorld;
    assert DQ.FindPort(w'.ps, 1) == 0 && DQ.FindClass(w'.ps[0].classes, 7) == 0;
    forall e': Event | e'.a.Step? && e'.a.t == e.a.t ensures !CanEvent(w', e') {
      if Can(w'.s, e'.a) { assert PolicyCall(w', e') == Some(DQ.Req(1, p)) && DQ.Faults(w'.ps, DQ.Req(1, p)); }
    }
  }
}
