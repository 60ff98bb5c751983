/** The N-1 port protocol of the RMT as a state machine: any number of calling threads and one
    egress worker (a tasklet) over the ports of one instance. Steps are cut where a lock is
    taken or released. A port's own lock is held from one step to the next only by the worker,
    while it polls, judges or leaves the port; the lock of the port table never is.
 */
module Rmt {
  import opened Options

  const MAX_PDUS_SENT_PER_CYCLE := 10

  /** A port object; every object is a new reference. */
  type Ref = nat
  type Tid = nat

  datatype PortState = ENABLED | DISABLED | DEALLOCATED

  /** The fields of a port, then three counters of the model: enqueues the policy refused, PDUs
      put back after EAGAIN, and queued PDUs forgotten when `n_sdus` was set to 0.
   */
  datatype Port = Port(state: PortState, nSdus: int, pendingOps: int, refused: int, returned: int, forgotten: int)

  /** Outcome of a write: success, an error, or "try again". */
  datatype Ret = OK | FAIL | EAGAIN

  /** Where a calling thread is, between locks. */
  datatype Spot =
    | Queueing    // a sender counted in pending_ops, about to take the port lock
    | Writing     // a sender writing directly to the N-1 flow
    | Returning   // the write said EAGAIN: about to put the PDU back
    | Finishing   // about to leave pending_ops
    | Enabling    // about to take the port lock and enable the port
    | Disabling   // about to take the port lock and disable the port

  datatype Thread = Thread(r: Ref, at: Spot)

  /** Where the worker is on the port it visits; `sent` counts the PDUs written on this visit. */
  datatype Place =
    | Entering
    | Polling(sent: nat)
    | Sending(sent: nat)
    | PuttingBack(sent: nat)
    | Sent(sent: nat, ret: Ret)
    | Judging(sent: nat, ret: Ret)
    | Leaving(ret: Ret)

  datatype Pc = Idle | Scanning | Visit(r: Ref, at: Place)

  /** The worker; `todo` are the ports its scan has still to visit. */
  datatype Worker = Worker(pc: Pc, todo: set<Ref>, reschedule: nat)

  /** What the installed policy set offers. */
  datatype Policy = Policy(allowNull: bool, canRequeue: bool)

  datatype Sys = Sys(policy: Policy, ports: map<Ref, Port>, used: set<Ref>, threads: map<Tid, Thread>,
                     worker: Worker, scheduled: bool)

  /** `accept` is the policy's answer to an enqueue, `got` whether it hands out a PDU, `ret` the
      answer of the N-1 flow; a step that asks none of them ignores them.
   */
  datatype Action =
    | Bind(r: Ref, seen: bool)                 // `seen`: a running scan will meet the new port
    | Unbind(r: Ref)
    | Switch(t: Tid, r: Ref, on: bool)         // enable or disable: look the port up
    | Send(t: Tid, r: Ref)
    | Step(t: Tid, accept: bool, ret: Ret)     // a thread's next step
    | WorkerStart
    | WorkerPick(r: Ref)
    | Work(got: bool, ret: Ret)                // the worker's next step on its port
    | WorkerEnd

  /** The worker is busy with the port. */
  predicate WorksOn(w: Worker, r: Ref) {
    w.pc.Visit? && w.pc.r == r
  }

  /** The worker keeps the port's lock between its steps. */
  predicate Holds(w: Worker, r: Ref) {
    WorksOn(w, r) && (w.pc.at.Polling? || w.pc.at.Judging? || w.pc.at.Leaving?)
  }

  /** The worker has a PDU in its hands that is counted in pending_ops. */
  predicate Bears(at: Place) {
    at.Sending? || at.PuttingBack? || at.Sent?
  }

  predicate Carries(w: Worker, r: Ref) {
    WorksOn(w, r) && Bears(w.pc.at)
  }

  // ---------- ports ----------

  /** The port is unlinked and freed; a running scan will not meet it any more. */
  function Destroy(s: Sys, r: Ref): Sys {
    s.(ports := s.ports - {r}, worker := s.worker.(todo := s.worker.todo - {r}))
  }

  function Put(s: Sys, r: Ref, p: Port): Sys {
    s.(ports := s.ports[r := p])
  }

  function Leave(p: Port): Port {
    p.(pendingOps := p.pendingOps - 1)
  }

  /** The last one to leave pending_ops frees a deallocated port. */
  predicate Frees(p: Port) {
    Leave(p).pendingOps == 0 && p.state == DEALLOCATED
  }

  /** EAGAIN: the port is disabled and, if the policy can, the PDU goes back to its queue. */
  function PutBack(policy: Policy, p: Port): Port {
    var q := p.(state := DISABLED);
    if policy.canRequeue then q.(nSdus := p.nSdus + 1, returned := p.returned + 1) else q
  }

  function BindPort(s: Sys, r: Ref, seen: bool): Sys {
    s.(ports := s.ports[r := Port(ENABLED, 0, 0, 0, 0, 0)], used := s.used + {r},
       worker := if seen && !s.worker.pc.Idle? then s.worker.(todo := s.worker.todo + {r}) else s.worker)
  }

  function UnbindPort(s: Sys, r: Ref): Sys
    requires r in s.ports
  {
    var p := s.ports[r].(state := DEALLOCATED);
    if p.pendingOps != 0 then Put(s, r, p) else Destroy(s, r)
  }

  // ---------- calling threads ----------

  /** What a thread's step does to its port: the port after it, whether it is freed, where the
      thread goes on, and whether the tasklet is scheduled.
   */
  datatype Move = Move(p: Port, freed: bool, next: Option<Spot>, wake: bool)

  /** A busy or disabled port queues the PDU; otherwise the sender writes it itself. */
  predicate Queues(p: Port) {
    p.nSdus > 0 || p.state == DISABLED
  }

  function MoveOn(policy: Policy, p: Port, at: Spot, accept: bool, ret: Ret): Move {
    match at
    case Queueing =>
      if !Queues(p) then Move(p, false, Some(Writing), false)
      else if accept then Move(p.(nSdus := p.nSdus + 1), false, None, false)
      else Move(p.(refused := p.refused + 1), false, None, false)
    case Writing => Move(p, false, Some(if ret == EAGAIN then Returning else Finishing), false)
    case Returning => Move(PutBack(policy, p), false, Some(Finishing), false)
    case Finishing => Move(Leave(p), Frees(p), None, false)
    case Enabling =>
      if p.state == DISABLED then Move(p.(state := ENABLED), false, None, p.nSdus > 0) else Move(p, false, None, false)
    case Disabling => Move(p.(state := DISABLED), false, None, false)
  }

  /** The thread goes to its next place, or returns from its call. */
  function Goto(threads: map<Tid, Thread>, t: Tid, r: Ref, next: Option<Spot>): map<Tid, Thread> {
    if next.None? then threads - {t} else threads[t := Thread(r, next.value)]
  }

  /** The next step of a thread; when the port was freed under it, the thread leaves. */
  function ThreadStep(s: Sys, t: Tid, accept: bool, ret: Ret): Sys
    requires t in s.threads
  {
    var r := s.threads[t].r;
    if r !in s.ports then s.(threads := s.threads - {t})
    else
      var m := MoveOn(s.policy, s.ports[r], s.threads[t].at, accept, ret);
      var s' := s.(threads := Goto(s.threads, t, r, m.next), scheduled := s.scheduled || m.wake);
      if m.freed then Destroy(s', r) else Put(s', r, m.p)
  }

  /** Enable and disable first look the port up in the table. */
  function SwitchPort(s: Sys, t: Tid, r: Ref, on: bool): Sys
    requires r in s.ports
  {
    if s.ports[r].state == DEALLOCATED then s
    else s.(threads := s.threads[t := Thread(r, if on then Enabling else Disabling)])
  }

  /** A sender looks the port up and is counted in pending_ops. */
  function SendPdu(s: Sys, t: Tid, r: Ref): Sys
    requires r in s.ports
  {
    var p := s.ports[r];
    if p.state == DEALLOCATED then s
    else Put(s.(threads := s.threads[t := Thread(r, Queueing)]), r, p.(pendingOps := p.pendingOps + 1))
  }

  // ---------- the worker ----------

  /** What a step of the worker does to its port: the port after it, whether it is freed, where
      the visit goes on, and what is added to `reschedule`.
   */
  datatype Effect = Effect(p: Port, freed: bool, next: Option<Place>, more: nat)

  /** The worker's step at its place; `got` says whether the policy hands out a PDU, `ret` what
      the flow answers.
   */
  function Visited(policy: Policy, p: Port, at: Place, got: bool, ret: Ret): Effect {
    match at
    case Entering => Effect(p, false, if p.state == DISABLED || p.nSdus == 0 then None else Some(Polling(0)), 0)
    case Polling(sent) =>
      // without a PDU the visit ends, and a policy that should never answer null loses its count
      if got then Effect(p.(nSdus := p.nSdus - 1), false, Some(Sending(sent)), 0)
      else if policy.allowNull then Effect(p, false, Some(Leaving(OK)), 0)
      else Effect(p.(nSdus := 0, forgotten := p.forgotten + p.nSdus), false, Some(Leaving(OK)), 0)
    case Sending(sent) => Effect(p, false, Some(if ret == EAGAIN then PuttingBack(sent) else Sent(sent, ret)), 0)
    case PuttingBack(sent) =>
      Effect(PutBack(policy, p), false, Some(Sent(sent, if policy.canRequeue then EAGAIN else FAIL)), 0)
    case Sent(sent, said) => Effect(Leave(p), Frees(p), if Frees(p) then None else Some(Judging(sent, said)), 0)
    case Judging(sent, said) =>
      // after a good write the visit goes on, up to the limit, while there are PDUs
      var again := said == OK && sent + 1 < MAX_PDUS_SENT_PER_CYCLE && p.nSdus > 0;
      Effect(p, false, Some(if again then Polling(sent + 1) else Leaving(said)), 0)
    case Leaving(said) =>
      var q := if said == EAGAIN then p.(state := DISABLED) else p;
      Effect(q, false, None, if q.state == ENABLED && q.nSdus > 0 then 1 else 0)
  }

  /** The worker's next step on the port it visits; a port freed under it ends the visit. */
  function VisitStep(s: Sys, got: bool, ret: Ret): Sys
    requires s.worker.pc.Visit?
  {
    var r := s.worker.pc.r;
    if r !in s.ports then s.(worker := s.worker.(pc := Scanning))
    else
      var e := Visited(s.policy, s.ports[r], s.worker.pc.at, got, ret);
      var pc := if e.next.None? then Scanning else Visit(r, e.next.value);
      var s' := s.(worker := Worker(pc, s.worker.todo, s.worker.reschedule + e.more));
      if e.freed then Destroy(s', r) else Put(s', r, e.p)
  }

  /** The scan meets the port: a deallocated one is freed if it has no pending operations. */
  function PickPort(s: Sys, r: Ref): Sys {
    var s' := s.(worker := s.worker.(todo := s.worker.todo - {r}));
    if r !in s.ports then s'
    else if s.ports[r].state != DEALLOCATED then s'.(worker := s'.worker.(pc := Visit(r, Entering)))
    else if s.ports[r].pendingOps == 0 then Destroy(s', r)
    else s'
  }

  // ---------- steps and runs ----------

  /** The step starts by taking the port's lock. */
  predicate NeedsLock(at: Spot) {
    !at.Writing? && !at.Finishing?
  }

  predicate Can(s: Sys, a: Action) {
    match a
    case Bind(r, _) => r !in s.used
    case Unbind(r) => r in s.ports
    case Switch(t, r, _) => t !in s.threads && r in s.ports
    case Send(t, r) => t !in s.threads && r in s.ports
    case Step(t, _, _) => t in s.threads && (NeedsLock(s.threads[t].at) ==> !Holds(s.worker, s.threads[t].r))
    case WorkerStart => s.worker.pc.Idle? && s.scheduled
    case WorkerPick(r) => s.worker.pc.Scanning? && r in s.worker.todo
    case Work(_, _) => s.worker.pc.Visit?
    case WorkerEnd => s.worker.pc.Scanning? && s.worker.todo == {}
  }

  function Do(s: Sys, a: Action): Sys
    requires Can(s, a)
  {
    match a
    case Bind(r, seen) => BindPort(s, r, seen)
    case Unbind(r) => UnbindPort(s, r)
    case Switch(t, r, on) => SwitchPort(s, t, r, on)
    case Send(t, r) => SendPdu(s, t, r)
    case Step(t, accept, ret) => ThreadStep(s, t, accept, ret)
    case WorkerStart => s.(scheduled := false, worker := Worker(Scanning, s.ports.Keys, 0))
    case WorkerPick(r) => PickPort(s, r)
    case Work(got, ret) => VisitStep(s, got, ret)
    case WorkerEnd => s.(worker := s.worker.(pc := Idle), scheduled := s.scheduled || s.worker.reschedule > 0)
  }

  /** Before any port is bound. */
  predicate Init(s: Sys) {
    s.ports == map[] && s.used == {} && s.threads == map[] && s.worker == Worker(Idle, {}, 0) && !s.scheduled
  }

  predicate Runs(s: Sys, run: seq<Action>)
    decreases |run|
  {
    run == [] || (Can(s, run[0]) && Runs(Do(s, run[0]), run[1..]))
  }

  function After(s: Sys, run: seq<Action>): Sys
    requires Runs(s, run)
    decreases |run|
  {
    if run == [] then s else After(Do(s, run[0]), run[1..])
  }

  lemma {:induction false} Extend(s: Sys, run: seq<Action>, a: Action)
    requires Runs(s, run) && Can(After(s, run), a)
    ensures Runs(s, run + [a]) && After(s, run + [a]) == Do(After(s, run), a)
    decreases |run|
  {
    hide Can, Do;
    if run == [] {
      assert run + [a] == [a] && [a][1..] == [];
    } else {
      assert (run + [a])[1..] == run[1..] + [a];
      Extend(Do(s, run[0]), run[1..], a);
    }
  }
}
