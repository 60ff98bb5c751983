/** The port protocol with DeltaQ as its scheduling policy: every step that asks the policy makes
    the DeltaQ call, and takes its answer. Threads and worker carry their PDUs.
 */
module RmtDeltaQ {
  import opened Options
  import opened Rmt
  import opened RmtSafety
  import DQ = DeltaQSpec
  import Ledger = DeltaQLedger
  import Order = DeltaQOrder

  /** The RMT, DeltaQ's ports, the last time read, the PDU each sender was given, and the PDU the
      worker took last. A port object has the key of its DeltaQ port as its reference.
   */
  datatype World = World(s: Sys, ps: seq<DQ.Port>, now: int, held: map<Tid, DQ.Pdu>, hand: DQ.Pdu)

  /** A step with the PDU a new sender is given, DeltaQ's drop draw, and the clock. */
  datatype Event = Event(a: Action, p: DQ.Pdu, drop: bool, now: int)

  /** A sender that has its PDU still in hand. */
  predicate HasPdu(at: Spot) {
    at.Queueing? || at.Writing? || at.Returning?
  }

  /** Every sender's PDU is known. */
  predicate Carried(w: World) {
    forall t :: t in w.s.threads && HasPdu(w.s.threads[t].at) ==> t in w.held
  }

  /** The DeltaQ call that the step makes, if any. */
  function PolicyCall(w: World, e: Event): Option<DQ.Op>
    requires Carried(w) && Can(w.s, e.a)
  {
    var s := w.s;
    if e.a.Step? && s.threads[e.a.t].r in s.ports then
      var r := s.threads[e.a.t].r;
      if s.threads[e.a.t].at == Queueing && Queues(s.ports[r]) then Some(DQ.Enq(r, w.held[e.a.t], e.now, e.drop))
      else if s.threads[e.a.t].at == Returning then Some(DQ.Req(r, w.held[e.a.t]))
      else None
    else if e.a.Work? && s.worker.pc.r in s.ports then
      if s.worker.pc.at.Polling? then Some(DQ.Deq(s.worker.pc.r, e.now))
      else if s.worker.pc.at.PuttingBack? then Some(DQ.Req(s.worker.pc.r, w.hand))
      else None
    else None
  }

  /** DeltaQ knows the port of the call. */
  predicate Configured(ps: seq<DQ.Port>, op: DQ.Op) {
    DQ.FindPort(ps, op.port) < |ps|
  }

  /** DeltaQ has a class for the PDU of the call. */
  predicate HasClass(ps: seq<DQ.Port>, op: DQ.Op)
    requires Configured(ps, op) && !op.Deq?
  {
    var cs := ps[DQ.FindPort(ps, op.port)].classes;
    DQ.FindClass(cs, op.p.qos) < |cs|
  }

  /** What the RMT is told: an enqueue is accepted when the PDU has a class and is not dropped,
      and a poll gets a PDU when a class was chosen. The result of a requeue is not looked at.
   */
  predicate Answers(ps: seq<DQ.Port>, op: DQ.Op, a: Action)
    requires DQ.Enabled(ps, op) && Configured(ps, op)
  {
    var i := DQ.FindPort(ps, op.port);
    (op.Enq? && a.Step? ==> a.accept == (HasClass(ps, op) && !op.drop)) &&
    (op.Deq? && a.Work? ==> a.got == (DQ.Chosen(ps[i], op.now) < |ps[i].classes|))
  }

  predicate CanEvent(w: World, e: Event) {
    && Carried(w) && Can(w.s, e.a) && w.now <= e.now
    && (e.a.Bind? ==> DQ.FindPort(w.ps, e.a.r) < |w.ps|)
    && var call := PolicyCall(w, e);
       call.Some? ==>
         DQ.Enabled(w.ps, call.value) && Configured(w.ps, call.value) && Answers(w.ps, call.value, e.a)
  }

  /** The PDU a dequeue hands out: the head of the chosen class. */
  function Took(ps: seq<DQ.Port>, op: DQ.Op): Option<DQ.Pdu>
    requires DQ.PairedPorts(ps) && Configured(ps, op) && op.Deq?
  {
    var cs := ps[DQ.FindPort(ps, op.port)].classes;
    var b := DQ.Chosen(ps[DQ.FindPort(ps, op.port)], op.now);
    if b < |cs| && cs[b].queue != [] then Some(cs[b].queue[0]) else None
  }

  /** What the worker has in hand after the step. */
  function Hand(w: World, e: Event): DQ.Pdu
    requires CanEvent(w, e)
  {
    var call := PolicyCall(w, e);
    if call.Some? && call.value.Deq? && Took(w.ps, call.value).Some? then Took(w.ps, call.value).value else w.hand
  }

  function Happen(w: World, e: Event): World
    requires CanEvent(w, e)
  {
    var call := PolicyCall(w, e);
    World(Do(w.s, e.a), if call.Some? then DQ.Step(w.ps, call.value) else w.ps, e.now,
          if e.a.Send? then w.held[e.a.t := e.p] else w.held, Hand(w, e))
  }

  predicate Happens(w: World, run: seq<Event>)
    decreases |run|
  {
    run == [] || (CanEvent(w, run[0]) && Happens(Happen(w, run[0]), run[1..]))
  }

  function Outcome(w: World, run: seq<Event>): World
    requires Happens(w, run)
    decreases |run|
  {
    if run == [] then w else Outcome(Happen(w, run[0]), run[1..])
  }

  /** Before any port is bound; DeltaQ answers null and can requeue. */
  predicate Start(w: World) {
    && Init(w.s) && w.s.policy == Policy(true, true)
    && Ledger.Fresh(w.ps) && w.now >= 0 && w.held == map[]
  }

  /** DeltaQ's count of the port. */
  function Count(ps: seq<DQ.Port>, r: Ref): int {
    var i := DQ.FindPort(ps, r);
    if i < |ps| then ps[i].count else 0
  }

  /** `n_sdus` is DeltaQ's count on every port, and DeltaQ has nothing for a port never bound. */
  ghost predicate Agree(w: World) {
    && w.s.policy == Policy(true, true)
    && (forall r :: r in w.s.ports ==> DQ.FindPort(w.ps, r) < |w.ps| && w.s.ports[r].nSdus == Count(w.ps, r))
    && (forall r :: r !in w.s.used ==> Count(w.ps, r) == 0)
  }

  /** What a DeltaQ call adds to the count of its port. */
  function Added(ps: seq<DQ.Port>, op: DQ.Op): int
    requires DQ.Enabled(ps, op) && Configured(ps, op)
  {
    var i := DQ.FindPort(ps, op.port);
    match op
    case Enq(_, _, _, drop) => if HasClass(ps, op) && !drop then 1 else 0
    case Deq(_, now) => if DQ.Chosen(ps[i], now) < |ps[i].classes| then -1 else 0
    case Req(_, _) => if HasClass(ps, op) then 1 else 0
  }

  /** The call is not a requeue of a PDU whose class DeltaQ does not know. */
  predicate Stored(ps: seq<DQ.Port>, op: DQ.Op)
    requires Configured(ps, op)
  {
    op.Req? ==> HasClass(ps, op)
  }

  /** What the call adds to `n_sdus`: a requeue counts even when DeltaQ had no class for the PDU. */
  function Owed(ps: seq<DQ.Port>, op: DQ.Op): int
    requires DQ.Enabled(ps, op) && Configured(ps, op)
  {
    Added(ps, op) + if Stored(ps, op) then 0 else 1
  }

  lemma CallCounts(ps: seq<DQ.Port>, op: DQ.Op, r: Ref)
    requires DQ.Enabled(ps, op) && Configured(ps, op)
    ensures DQ.FindPort(DQ.Step(ps, op), r) == DQ.FindPort(ps, r)
    ensures Count(DQ.Step(ps, op), r) == Count(ps, r) + if r == op.port then Added(ps, op) else 0
  {
    var i := DQ.FindPort(ps, op.port);
    if op.Deq? { Ledger.DequeueIs(ps[i], op.now); }
    hide DQ.Chosen, DQ.Dequeue;
    CallKeepsConfig(ps, op);
    SamePortFound(ps, DQ.Step(ps, op), r);
  }

  /** What the step does to `n_sdus` of a port that is still there. */
  function Gained(s: Sys, a: Action, r: Ref): int
    requires Can(s, a) && r in Do(s, a).ports
  {
    Do(s, a).ports[r].nSdus - if r in s.ports then s.ports[r].nSdus else 0
  }

  /** A thread's step changes `n_sdus` as its DeltaQ call changes the count. */
  lemma ThreadGains(w: World, e: Event, r: Ref)
    requires w.s.policy == Policy(true, true) && CanEvent(w, e) && e.a.Step? && r in Do(w.s, e.a).ports
    ensures var call := PolicyCall(w, e);
            Gained(w.s, e.a, r) == if call.Some? && call.value.port == r then Owed(w.ps, call.value) else 0
  {
    hide DQ.Enabled, Configured, DQ.FindPort, Carried;
  }

  lemma VisitGains(w: World, e: Event, r: Ref)
    requires w.s.policy == Policy(true, true) && CanEvent(w, e) && e.a.Work? && r in Do(w.s, e.a).ports
    ensures var call := PolicyCall(w, e);
            Gained(w.s, e.a, r) == if call.Some? && call.value.port == r then Owed(w.ps, call.value) else 0
  {
    hide DQ.Enabled, Configured, DQ.FindPort, DQ.Chosen, Carried;
  }

  lemma OtherGains(w: World, e: Event, r: Ref)
    requires Linked(w.s) && CanEvent(w, e) && !e.a.Step? && !e.a.Work? && r in Do(w.s, e.a).ports
    ensures PolicyCall(w, e).None? && Gained(w.s, e.a, r) == 0
  {
  }

  /** No step but a bind brings a port or uses up a reference. */
  lemma OldPorts(s: Sys, a: Action)
    requires Linked(s) && Can(s, a)
    ensures s.used <= Do(s, a).used && Do(s, a).policy == s.policy
    ensures forall r :: r in Do(s, a).ports && r !in s.ports ==> a.Bind? && r == a.r
    ensures forall r :: r in Do(s, a).ports && r !in s.ports ==> r !in s.used
  {
  }

  lemma EventGains(w: World, e: Event, r: Ref)
    requires w.s.policy == Policy(true, true) && Linked(w.s) && CanEvent(w, e) && r in Do(w.s, e.a).ports
    ensures var call := PolicyCall(w, e);
            Gained(w.s, e.a, r) == if call.Some? && call.value.port == r then Owed(w.ps, call.value) else 0
  {
    hide *;
    if e.a.Step? { ThreadGains(w, e, r); } else if e.a.Work? { VisitGains(w, e, r); } else { OtherGains(w, e, r); }
  }

  /** A DeltaQ call is about a port that is bound. */
  lemma CallIsBound(w: World, e: Event)
    requires Carried(w) && Can(w.s, e.a) && PolicyCall(w, e).Some?
    ensures PolicyCall(w, e).value.port in w.s.ports
  {
  }

  /** The event's call, if it makes one, is stored. */
  predicate EventStored(w: World, e: Event)
    requires CanEvent(w, e)
  {
    var call := PolicyCall(w, e);
    call.Some? ==> Stored(w.ps, call.value)
  }

  lemma CallCount(w: World, e: Event, r: Ref)
    requires CanEvent(w, e)
    ensures var w', call := Happen(w, e), PolicyCall(w, e);
            && DQ.FindPort(w'.ps, r) == DQ.FindPort(w.ps, r) && |w'.ps| == |w.ps|
            && Count(w'.ps, r) == Count(w.ps, r) + if call.Some? && r == call.value.port
               then Added(w.ps, call.value) else 0
  {
    hide PolicyCall, Carried, Hand, Can, Do, DQ.Step, DQ.FindPort, Configured, Answers, DQ.Enabled, Count, Added;
    var call := PolicyCall(w, e);
    if call.Some? { CallCounts(w.ps, call.value, r); }
  }

  /** One step keeps `n_sdus` and DeltaQ's counts equal if and only if it does not requeue a PDU
      of a class DeltaQ does not know.
   */
  lemma {:induction false} EventAgreesIff(w: World, e: Event)
    requires Agree(w) && Linked(w.s) && CanEvent(w, e)
    ensures Agree(Happen(w, e)) <==> EventStored(w, e)
  {
    hide PolicyCall, Carried, Hand, Can, DQ.Step, DQ.FindPort, Configured, Answers, DQ.Enabled, Count, Added;
    hide Stored, Do;
    var w' := Happen(w, e);
    var call := PolicyCall(w, e);
    OldPorts(w.s, e.a);
    if call.Some? { CallIsBound(w, e); }
    forall r ensures DQ.FindPort(w'.ps, r) == DQ.FindPort(w.ps, r) && |w'.ps| == |w.ps|
      ensures r !in w'.s.used ==> Count(w'.ps, r) == 0
    {
      CallCount(w, e, r);
    }
    forall r | r in w'.s.ports
      ensures DQ.FindPort(w'.ps, r) < |w'.ps|
      ensures w'.s.ports[r].nSdus - Count(w'.ps, r) ==
              if call.Some? && call.value.port == r && !Stored(w.ps, call.value) then 1 else 0
    {
      EventGains(w, e, r);
      CallCount(w, e, r);
    }
    if !EventStored(w, e) { CallKeepsPort(w, e); }
  }

  /** A step that requeues does not free the port. */
  lemma CallKeepsPort(w: World, e: Event)
    requires CanEvent(w, e) && !EventStored(w, e)
    ensures PolicyCall(w, e).value.port in Do(w.s, e.a).ports
  {
    hide DQ.Enabled, DQ.FindPort, DQ.FindClass, Carried;
  }

  // ---------- what DeltaQ's configuration and queues keep ----------

  /** Same classes, with the same keys and parameters. */
  predicate SamePort(p: DQ.Port, q: DQ.Port) {
    && p.key == q.key && |p.classes| == |q.classes|
    && forall k :: 0 <= k < |p.classes| ==>
         p.classes[k].key == q.classes[k].key && p.classes[k].params == q.classes[k].params
  }

  predicate SameConfig(ps: seq<DQ.Port>, qs: seq<DQ.Port>) {
    |ps| == |qs| && forall i :: 0 <= i < |ps| ==> SamePort(ps[i], qs[i])
  }

  lemma DequeueKeepsConfig(port: DQ.Port, now: int)
    requires DQ.AllPaired(port)
    ensures SamePort(port, DQ.Dequeue(port, now))
  {
    Ledger.DequeueIs(port, now);
    forall k | 0 <= k < |port.classes|
      ensures DQ.Touch(port.classes[k], now).key == port.classes[k].key
      ensures DQ.Touch(port.classes[k], now).params == port.classes[k].params
    {
      DQ.ExpireKeeps(port.classes[k], now - port.classes[k].params.oBurstT);
    }
    hide DQ.Touch, DQ.Chosen, DQ.Eligible, DQ.Dequeue;
  }

  lemma StoreKeepsConfig(port: DQ.Port, k: nat, p: DQ.Pdu, now: int)
    requires k < |port.classes|
    ensures SamePort(port, DQ.EnqueueAt(port, k, p, now)) && SamePort(port, DQ.RequeueAt(port, k, p))
  {
  }

  lemma CallKeepsConfig(ps: seq<DQ.Port>, op: DQ.Op)
    requires DQ.PairedPorts(ps)
    ensures SameConfig(ps, DQ.Step(ps, op))
  {
    hide DQ.Dequeue, DQ.EnqueueAt, DQ.RequeueAt;
    var i := DQ.FindPort(ps, op.port);
    if i < |ps| {
      if op.Deq? {
        DequeueKeepsConfig(ps[i], op.now);
      } else {
        var k := DQ.FindClass(ps[i].classes, op.p.qos);
        if k < |ps[i].classes| { StoreKeepsConfig(ps[i], k, op.p, if op.Enq? then op.now else 0); }
      }
    }
  }

  lemma {:induction false} SameClassFound(cs: seq<DQ.Class>, ds: seq<DQ.Class>, qos: nat)
    requires |cs| == |ds| && forall k :: 0 <= k < |cs| ==> cs[k].key == ds[k].key
    ensures DQ.FindClass(cs, qos) == DQ.FindClass(ds, qos)
  {
    if cs != [] { SameClassFound(cs[1..], ds[1..], qos); }
  }

  lemma {:induction false} SamePortFound(ps: seq<DQ.Port>, qs: seq<DQ.Port>, r: Ref)
    requires |ps| == |qs| && forall i :: 0 <= i < |ps| ==> ps[i].key == qs[i].key
    ensures DQ.FindPort(ps, r) == DQ.FindPort(qs, r)
  {
    if ps != [] { SamePortFound(ps[1..], qs[1..], r); }
  }

  /** DeltaQ knows the port, and on it the class of the PDU. */
  predicate Known(ps: seq<DQ.Port>, r: Ref, p: DQ.Pdu) {
    var i := DQ.FindPort(ps, r);
    i < |ps| && DQ.FindClass(ps[i].classes, p.qos) < |ps[i].classes|
  }

  lemma SameConfigKnows(ps: seq<DQ.Port>, qs: seq<DQ.Port>, r: Ref, p: DQ.Pdu)
    requires SameConfig(ps, qs)
    ensures DQ.FindPort(ps, r) == DQ.FindPort(qs, r) && (Known(ps, r, p) <==> Known(qs, r, p))
  {
    SamePortFound(ps, qs, r);
    var i := DQ.FindPort(ps, r);
    if i < |ps| { SameClassFound(ps[i].classes, qs[i].classes, p.qos); }
  }

  /** Every queued PDU waits in the class it asks for. */
  predicate FiledClass(cs: seq<DQ.Class>, k: nat)
    requires k < |cs|
  {
    forall j :: 0 <= j < |cs[k].queue| ==> DQ.FindClass(cs, cs[k].queue[j].qos) == k
  }

  predicate Filed(ps: seq<DQ.Port>) {
    forall i, k :: 0 <= i < |ps| && 0 <= k < |ps[i].classes| ==> FiledClass(ps[i].classes, k)
  }

  lemma CallKeepsFiledClass(ps: seq<DQ.Port>, op: DQ.Op, i: nat, k: nat)
    requires DQ.Enabled(ps, op) && i < |ps| && k < |ps[i].classes| && FiledClass(ps[i].classes, k)
    ensures i < |DQ.Step(ps, op)| && k < |DQ.Step(ps, op)[i].classes| && FiledClass(DQ.Step(ps, op)[i].classes, k)
  {
    hide DQ.Step, DQ.PairedPorts, DQ.Faults, DQ.FindClass, DQ.FindPort, DQ.Chosen;
    var qs := DQ.Step(ps, op);
    CallKeepsConfig(ps, op);
    Order.StepQueues(ps, op, i, k);
    var c, d := ps[i].classes[k], qs[i].classes[k];
    forall j | 0 <= j < |d.queue| ensures DQ.FindClass(qs[i].classes, d.queue[j].qos) == k {
      SameClassFound(ps[i].classes, qs[i].classes, d.queue[j].qos);
      if d.queue[j] in c.queue {
        var n :| 0 <= n < |c.queue| && c.queue[n] == d.queue[j];
        assert DQ.FindClass(ps[i].classes, c.queue[n].qos) == k;
      } else {
        assert Order.Reaches(ps, op, i, k) && !op.Deq? && d.queue[j] == op.p;
      }
    }
  }

  lemma CallKeepsFiled(ps: seq<DQ.Port>, op: DQ.Op)
    requires DQ.Enabled(ps, op) && Filed(ps)
    ensures Filed(DQ.Step(ps, op))
  {
    hide DQ.Step, FiledClass, DQ.Faults, DQ.PairedPorts;
    CallKeepsConfig(ps, op);
    forall i, k | 0 <= i < |ps| && 0 <= k < |ps[i].classes| ensures FiledClass(DQ.Step(ps, op)[i].classes, k) {
      CallKeepsFiledClass(ps, op, i, k);
    }
  }

  /** What a dequeue hands out has the class it was taken from. */
  lemma TookIsKnown(ps: seq<DQ.Port>, op: DQ.Op)
    requires DQ.PairedPorts(ps) && Configured(ps, op) && op.Deq? && Filed(ps)
    ensures var i := DQ.FindPort(ps, op.port);
            && (DQ.Chosen(ps[i], op.now) < |ps[i].classes| <==> Took(ps, op).Some?)
            && (Took(ps, op).Some? ==>
                  Known(ps, op.port, Took(ps, op).value)
                  && DQ.FindClass(ps[i].classes, Took(ps, op).value.qos) == DQ.Chosen(ps[i], op.now))
  {
    var i := DQ.FindPort(ps, op.port);
    Ledger.DequeueIs(ps[i], op.now);
    var b := DQ.Chosen(ps[i], op.now);
    if b < |ps[i].classes| {
      DQ.ExpireKeeps(ps[i].classes[b], op.now - ps[i].classes[b].params.oBurstT);
      hide DQ.Chosen, DQ.FindClass;
      assert FiledClass(ps[i].classes, b);
    }
  }

  // ---------- what every run keeps ----------

  /** Every bound port is one of DeltaQ's. */
  predicate Placed(w: World) {
    forall r :: r in w.s.ports ==> DQ.FindPort(w.ps, r) < |w.ps|
  }

  /** DeltaQ knows the class of a PDU that the worker may put back. */
  predicate HandKnown(w: World) {
    w.s.worker.pc.Visit? && w.s.worker.pc.r in w.s.ports && (w.s.worker.pc.at.Sending? || w.s.worker.pc.at.PuttingBack?)
    ==> Known(w.ps, w.s.worker.pc.r, w.hand)
  }

  ghost predicate WorldInv(w: World) {
    && w.s.policy == Policy(true, true) && Carried(w) && Accounted(w.s) && Placed(w)
    && Ledger.Inv(w.ps, w.now) && Filed(w.ps) && HandKnown(w)
  }

  lemma StepKeepsCarried(w: World, e: Event)
    requires CanEvent(w, e)
    ensures Carried(Happen(w, e))
  {
    hide DQ.Step, DQ.Enabled, Configured, Answers, Hand;
    forall t | t in Do(w.s, e.a).threads && HasPdu(Do(w.s, e.a).threads[t].at)
      ensures t in w.held || (e.a.Send? && t == e.a.t)
    {
      ThreadsFrom(w.s, e.a, t);
    }
  }

  /** A sender with a PDU is a new one, or had it before. */
  lemma ThreadsFrom(s: Sys, a: Action, t: Tid)
    requires Can(s, a) && t in Do(s, a).threads && HasPdu(Do(s, a).threads[t].at)
    ensures (a.Send? && t == a.t) ||
            (t in s.threads && HasPdu(s.threads[t].at) && s.threads[t].r == Do(s, a).threads[t].r)
  {
  }

  /** The worker comes to a PDU only by a poll that gets one, and stays on its port with it. */
  lemma HandFrom(s: Sys, a: Action)
    requires Linked(s) && Can(s, a)
    requires var pc := Do(s, a).worker.pc; pc.Visit? && pc.r in Do(s, a).ports && (pc.at.Sending? || pc.at.PuttingBack?)
    ensures var pc, pc' := s.worker.pc, Do(s, a).worker.pc;
            && pc.Visit? && pc.r == pc'.r && pc.r in s.ports
            && (if a.Work? && pc.at.Polling? then a.got else pc.at.Sending? || pc.at.PuttingBack?)
            && (pc.at.PuttingBack? ==> !a.Work?)
  {
  }

  lemma EventConfig(w: World, e: Event)
    requires CanEvent(w, e)
    ensures SameConfig(w.ps, Happen(w, e).ps)
    ensures Filed(w.ps) ==> Filed(Happen(w, e).ps)
  {
    hide DQ.Step, PolicyCall, Configured, Answers, Filed, Can, Do, Carried, Hand, DQ.PairedPorts, DQ.Faults;
    var call := PolicyCall(w, e);
    if call.Some? {
      CallKeepsConfig(w.ps, call.value);
      if Filed(w.ps) { CallKeepsFiled(w.ps, call.value); }
    }
  }

  lemma EventKeepsHand(w: World, e: Event)
    requires WorldInv(w) && CanEvent(w, e)
    ensures HandKnown(Happen(w, e))
  {
    hide Accounted, Ledger.Inv, DQ.Step, DQ.Chosen, DQ.FindPort, DQ.PairedPorts, DQ.Faults, Filed, Known, Do, Can;
    var w' := Happen(w, e);
    var pc' := w'.s.worker.pc;
    if pc'.Visit? && pc'.r in w'.s.ports && (pc'.at.Sending? || pc'.at.PuttingBack?) {
      AccountedLinked(w.s);
      HandFrom(w.s, e.a);
      EventConfig(w, e);
      SameConfigKnows(w.ps, w'.ps, pc'.r, w'.hand);
      NewHand(w, e);
    }
  }

  /** The hand changes only by a poll, to what DeltaQ hands out. */
  lemma NewHand(w: World, e: Event)
    requires CanEvent(w, e) && Filed(w.ps) && w.s.worker.pc.Visit? && w.s.worker.pc.r in w.s.ports
    ensures if e.a.Work? && w.s.worker.pc.at.Polling? && e.a.got
            then Known(w.ps, w.s.worker.pc.r, Hand(w, e)) else Hand(w, e) == w.hand
  {
    hide DQ.Chosen, DQ.FindPort, DQ.FindClass, DQ.PairedPorts, DQ.Faults, Filed, Known, Took, Carried;
    var call := PolicyCall(w, e);
    if call.Some? && call.value.Deq? { TookIsKnown(w.ps, call.value); }
  }

  lemma EventKeepsPlaced(w: World, e: Event)
    requires Placed(w) && Linked(w.s) && CanEvent(w, e)
    ensures Placed(Happen(w, e))
  {
    hide PolicyCall, Carried, Hand, DQ.Step, DQ.Enabled, Configured, Answers, Can, Do, DQ.FindPort;
    OldPorts(w.s, e.a);
    EventConfig(w, e);
    forall r | r in Do(w.s, e.a).ports ensures DQ.FindPort(Happen(w, e).ps, r) < |w.ps| {
      SamePortFound(w.ps, Happen(w, e).ps, r);
    }
  }

  lemma EventKeepsLedger(w: World, e: Event)
    requires Ledger.Inv(w.ps, w.now) && CanEvent(w, e)
    ensures Ledger.Inv(Happen(w, e).ps, e.now)
  {
    hide Ledger.Inv, Can, Do, DQ.Step, PolicyCall, Configured, Answers, Carried, Hand, DQ.PairedPorts, DQ.Faults;
    var call := PolicyCall(w, e);
    Ledger.LaterKeepsInv(w.ps, w.now, e.now);
    if call.Some? {
      CallClock(w, e);
      Ledger.StepKeepsInv(w.ps, call.value, e.now);
    }
  }

  /** The call reads the event's clock. */
  lemma CallClock(w: World, e: Event)
    requires Carried(w) && Can(w.s, e.a) && PolicyCall(w, e).Some?
    ensures Ledger.ClockAfter(e.now, PolicyCall(w, e).value) == e.now
  {
  }

  lemma AccountedLinked(s: Sys)
    requires Accounted(s)
    ensures Linked(s)
  {
  }

  lemma {:induction false} EventKeepsInv(w: World, e: Event)
    requires WorldInv(w) && CanEvent(w, e)
    ensures WorldInv(Happen(w, e))
  {
    hide Accounted, Linked, Ledger.Inv, Filed, HandKnown, Placed, Carried, Hand, DQ.Step, PolicyCall, Answers;
    hide Configured, Do, Can;
    AccountedLinked(w.s);
    OldPorts(w.s, e.a);
    StepKeepsCarried(w, e);
    StepKeepsAccounted(w.s, e.a);
    EventKeepsPlaced(w, e);
    EventKeepsLedger(w, e);
    EventConfig(w, e);
    EventKeepsHand(w, e);
  }

  lemma {:induction false} RunKeepsInv(w: World, run: seq<Event>)
    requires WorldInv(w) && Happens(w, run)
    ensures WorldInv(Outcome(w, run))
    decreases |run|
  {
    hide WorldInv, CanEvent, Happen;
    if run != [] {
      EventKeepsInv(w, run[0]);
      RunKeepsInv(Happen(w, run[0]), run[1..]);
    }
  }

  lemma StartInv(w: World)
    requires Start(w)
    ensures Agree(w) && WorldInv(w)
  {
    InitAccounted(w.s);
    Ledger.FreshInv(w.ps, w.now);
  }

  // ---------- agreement over whole runs ----------

  /** What the worker puts back has a class. */
  lemma WorkerStores(w: World, e: Event)
    requires WorldInv(w) && CanEvent(w, e) && e.a.Work?
    ensures EventStored(w, e)
  {
    hide Accounted, Ledger.Inv, Filed, Carried, DQ.FindPort, DQ.FindClass, DQ.PairedPorts, DQ.Faults;
  }

  /** A sender's return of a PDU whose class DeltaQ does not know. */
  predicate Strays(w: World, e: Event)
    requires Carried(w) && Can(w.s, e.a)
  {
    && e.a.Step? && w.s.threads[e.a.t].at == Returning && w.s.threads[e.a.t].r in w.s.ports
    && !Known(w.ps, w.s.threads[e.a.t].r, w.held[e.a.t])
  }

  /** One step keeps `n_sdus` and DeltaQ's counts equal if and only if it is not a sender's return
      of a PDU whose class DeltaQ does not know.
   */
  lemma {:induction false} StepAgreesIff(w: World, e: Event)
    requires Agree(w) && WorldInv(w) && CanEvent(w, e)
    ensures Agree(Happen(w, e)) <==> !Strays(w, e)
  {
    AccountedLinked(w.s);
    EventAgreesIff(w, e);
    if e.a.Work? { WorkerStores(w, e); }
    hide Agree, WorldInv, Happen, Linked, DQ.FindPort, DQ.FindClass, DQ.Enabled, Answers, Carried;
  }

  predicate NoStrays(w: World, run: seq<Event>)
    requires Happens(w, run)
    decreases |run|
  {
    run == [] || (!Strays(w, run[0]) && NoStrays(Happen(w, run[0]), run[1..]))
  }

  ghost predicate AgreesThroughout(w: World, run: seq<Event>)
    requires Happens(w, run)
    decreases |run|
  {
    Agree(w) && (run != [] ==> AgreesThroughout(Happen(w, run[0]), run[1..]))
  }

  /** The counts agree all along a run if and only if no sender returns such a PDU. */
  lemma {:induction false} RunAgreesIff(w: World, run: seq<Event>)
    requires Agree(w) && WorldInv(w) && Happens(w, run)
    ensures AgreesThroughout(w, run) <==> NoStrays(w, run)
    decreases |run|
  {
    hide Agree, WorldInv, Happen, Strays;
    if run != [] {
      StepAgreesIff(w, run[0]);
      EventKeepsInv(w, run[0]);
      if !Strays(w, run[0]) { RunAgreesIff(Happen(w, run[0]), run[1..]); }
    }
  }

  lemma {:induction false} ThroughoutAtEnd(w: World, run: seq<Event>)
    requires Happens(w, run) && AgreesThroughout(w, run)
    ensures Agree(Outcome(w, run))
    decreases |run|
  {
    hide Agree, CanEvent, Happen;
    if run != [] { ThroughoutAtEnd(Happen(w, run[0]), run[1..]); }
  }

  /** After every such run, through drops, direct writes, returns after EAGAIN and worker batches:
      `n_sdus` of every port is DeltaQ's count for it, which is the PDUs in its class queues.
   */
  lemma {:induction false} CountsAgree(w: World, run: seq<Event>, r: Ref)
    requires Start(w) && Happens(w, run) && NoStrays(w, run) && r in Outcome(w, run).s.ports
    ensures var w', i := Outcome(w, run), DQ.FindPort(Outcome(w, run).ps, r);
            && i < |w'.ps|
            && w'.s.ports[r].nSdus == w'.ps[i].count == Ledger.Queued(w'.ps[i].classes)
  {
    StartInv(w);
    RunKeepsInv(w, run);
    RunAgreesIff(w, run);
    ThroughoutAtEnd(w, run);
    hide Accounted, Filed, HandKnown, Carried;
  }
}
