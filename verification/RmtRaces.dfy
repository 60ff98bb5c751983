/** Runs of the port protocol that its design does not want: a port freed with a PDU in its
    queue, and an enable that is overwritten so that a PDU stays behind.
 */
module RmtRaces {
  import opened Options
  import opened Rmt
  import opened RmtSafety

  const NO_PORTS := Sys(Policy(true, true), map[], {}, map[], Worker(Idle, {}, 0), false)

  /** Nobody asks to disable a port. */
  predicate NoDisable(run: seq<Action>) {
    forall i :: 0 <= i < |run| ==> !(run[i].Switch? && !run[i].on)
  }

  /** Some run from the empty instance ends in the state, without a call to disable a port. */
  ghost predicate Reached(s: Sys) {
    exists run: seq<Action> :: Runs(NO_PORTS, run) && After(NO_PORTS, run) == s && NoDisable(run)
  }

  lemma Reach(s: Sys, a: Action)
    requires Reached(s) && Can(s, a) && (a.Switch? ==> a.on)
    ensures Reached(Do(s, a))
  {
    hide Can, Do;
    var run :| Runs(NO_PORTS, run) && After(NO_PORTS, run) == s && NoDisable(run);
    Extend(NO_PORTS, run, a);
  }

  lemma StartReached()
    ensures Reached(NO_PORTS) && Init(NO_PORTS)
  {
    assert Runs(NO_PORTS, []) && After(NO_PORTS, []) == NO_PORTS && NoDisable([]);
  }

  /** One port, and at most one thread in a call. */
  function OnePort(p: Port, thread: Option<Spot>, worker: Worker, scheduled: bool): Sys {
    var threads: map<Tid, Thread> := if thread.None? then map[] else map[0 := Thread(1, thread.value)];
    Sys(Policy(true, true), map[1 := p], {1}, threads, worker, scheduled)
  }

  const POLICY := Policy(true, true)
  const RESTING := Worker(Idle, {}, 0)

  function Visiting(at: Place): Worker {
    Worker(Visit(1, at), {}, 0)
  }

  lemma ReachMove(p: Port, at: Spot, w: Worker, scheduled: bool, ret: Ret)
    requires Reached(OnePort(p, Some(at), w, scheduled)) && (NeedsLock(at) ==> !Holds(w, 1))
    requires !MoveOn(POLICY, p, at, true, ret).freed
    ensures var m := MoveOn(POLICY, p, at, true, ret);
            Reached(OnePort(m.p, m.next, w, scheduled || m.wake))
  {
    hide Reached, MoveOn, Holds;
    var s, m := OnePort(p, Some(at), w, scheduled), MoveOn(POLICY, p, at, true, ret);
    Reach(s, Step(0, true, ret));
    assert Do(s, Step(0, true, ret)) == OnePort(m.p, m.next, w, scheduled || m.wake);
  }

  lemma ReachVisit(p: Port, at: Place, thread: Option<Spot>, scheduled: bool, ret: Ret)
    requires Reached(OnePort(p, thread, Visiting(at), scheduled))
    requires !Visited(POLICY, p, at, true, ret).freed && Visited(POLICY, p, at, true, ret).next.Some?
    ensures var e := Visited(POLICY, p, at, true, ret);
            e.more == 0 ==> Reached(OnePort(e.p, thread, Visiting(e.next.value), scheduled))
  {
    hide Reached, Visited;
    var s, e := OnePort(p, thread, Visiting(at), scheduled), Visited(POLICY, p, at, true, ret);
    Reach(s, Work(true, ret));
    if e.more == 0 {
      assert Do(s, Work(true, ret)) == OnePort(e.p, thread, Visiting(e.next.value), scheduled);
    }
  }

  lemma ReachBind()
    ensures Reached(OnePort(Port(ENABLED, 0, 0, 0, 0, 0), None, RESTING, false))
  {
    hide Reached;
    StartReached();
    Reach(NO_PORTS, Bind(1, false));
    assert Do(NO_PORTS, Bind(1, false)) == OnePort(Port(ENABLED, 0, 0, 0, 0, 0), None, RESTING, false);
  }

  lemma ReachSend(p: Port, w: Worker, scheduled: bool)
    requires Reached(OnePort(p, None, w, scheduled)) && p.state != DEALLOCATED
    ensures Reached(OnePort(p.(pendingOps := p.pendingOps + 1), Some(Queueing), w, scheduled))
  {
    hide Reached;
    var s := OnePort(p, None, w, scheduled);
    Reach(s, Send(0, 1));
    assert Do(s, Send(0, 1)) == OnePort(p.(pendingOps := p.pendingOps + 1), Some(Queueing), w, scheduled);
  }

  lemma ReachSwitch(p: Port, w: Worker, scheduled: bool)
    requires Reached(OnePort(p, None, w, scheduled)) && p.state != DEALLOCATED
    ensures Reached(OnePort(p, Some(Enabling), w, scheduled))
  {
    hide Reached;
    var s := OnePort(p, None, w, scheduled);
    Reach(s, Switch(0, 1, true));
    assert Do(s, Switch(0, 1, true)) == OnePort(p, Some(Enabling), w, scheduled);
  }

  /** The tasklet runs and enters the port. */
  lemma ReachScan(p: Port)
    requires Reached(OnePort(p, None, RESTING, true)) && p.state != DEALLOCATED
    ensures Reached(OnePort(p, None, Visiting(Entering), false))
  {
    hide Reached;
    var s := OnePort(p, None, RESTING, true);
    Reach(s, WorkerStart);
    var s' := OnePort(p, None, Worker(Scanning, {1}, 0), false);
    assert Do(s, WorkerStart) == s';
    Reach(s', WorkerPick(1));
    assert Do(s', WorkerPick(1)) == OnePort(p, None, Visiting(Entering), false);
  }

  /** The visit ends, and the worker with it. */
  lemma ReachRest(p: Port, at: Place, scheduled: bool)
    requires Reached(OnePort(p, None, Visiting(at), scheduled))
    requires var e := Visited(POLICY, p, at, true, OK); !e.freed && e.next.None? && e.more == 0
    ensures Reached(OnePort(Visited(POLICY, p, at, true, OK).p, None, RESTING, scheduled))
  {
    hide Reached, Visited;
    var s, e := OnePort(p, None, Visiting(at), scheduled), Visited(POLICY, p, at, true, OK);
    Reach(s, Work(true, OK));
    var s' := OnePort(e.p, None, Worker(Scanning, {}, 0), scheduled);
    assert Do(s, Work(true, OK)) == s';
    Reach(s', WorkerEnd);
    assert Do(s', WorkerEnd) == OnePort(e.p, None, RESTING, scheduled);
  }

  /** The sender's write says EAGAIN: the PDU goes to the queue, and the sender leaves
      pending_ops, so that nothing counts the PDU.
   */
  lemma DirectEagain()
    ensures Reached(OnePort(Port(DISABLED, 1, 0, 0, 1, 0), None, RESTING, false))
  {
    hide Reached, OnePort;
    ReachBind();
    ReachSend(Port(ENABLED, 0, 0, 0, 0, 0), RESTING, false);
    var p := Port(ENABLED, 0, 1, 0, 0, 0);
    ReachMove(p, Queueing, RESTING, false, OK);
    ReachMove(p, Writing, RESTING, false, EAGAIN);
    ReachMove(p, Returning, RESTING, false, OK);
    ReachMove(Port(DISABLED, 1, 1, 0, 1, 0), Finishing, RESTING, false, OK);
  }

  /** So an unbind frees the port with a PDU in its queue. */
  lemma EagainLeavesPdu() returns (s: Sys)
    ensures Reached(s) && Can(s, Unbind(1)) && 1 in s.ports && s.ports[1].nSdus == 1
    ensures 1 !in Do(s, Unbind(1)).ports
  {
    DirectEagain();
    s := OnePort(Port(DISABLED, 1, 0, 0, 1, 0), None, RESTING, false);
  }

  /** The worker's write says EAGAIN, the PDU goes back, and the port is enabled again before the
      worker retakes the lock.
   */
  lemma EnabledAfterEagain()
    ensures Reached(OnePort(Port(ENABLED, 1, 0, 0, 2, 0), None, Visiting(Sent(0, EAGAIN)), true))
  {
    hide Reached, OnePort, RESTING, Visiting, Holds;
    DirectEagain();
    var p := Port(DISABLED, 1, 0, 0, 1, 0);
    ReachSwitch(p, RESTING, false);
    Free();
    ReachMove(p, Enabling, RESTING, false, OK);
    ReachScan(p.(state := ENABLED));
    ReachVisit(p.(state := ENABLED), Entering, None, false, OK);
    ReachVisit(p.(state := ENABLED), Polling(0), None, false, OK);
    ReachVisit(Port(ENABLED, 0, 0, 0, 1, 0), Sending(0), None, false, EAGAIN);
    ReachVisit(Port(ENABLED, 0, 0, 0, 1, 0), PuttingBack(0), None, false, OK);
    var q := Port(DISABLED, 1, 0, 0, 2, 0);
    ReachSwitch(q, Visiting(Sent(0, EAGAIN)), false);
    ReachMove(q, Enabling, Visiting(Sent(0, EAGAIN)), false, OK);
  }

  lemma Free()
    ensures !Holds(RESTING, 1) && !Holds(Visiting(Sent(0, EAGAIN)), 1)
  {
  }

  /** The worker then disables the port that was just enabled. When all is at rest its PDU is
      left behind, although nobody asked to disable the port.
   */
  lemma EnableIsLost() returns (s: Sys)
    ensures Reached(s) && s.worker.pc.Idle? && !s.scheduled && s.threads == map[]
    ensures 1 in s.ports && s.ports[1].state == DISABLED && s.ports[1].nSdus == 1
  {
    StrandedReached();
    s := OnePort(Port(DISABLED, 1, -1, 0, 2, 0), None, RESTING, false);
  }

  lemma StrandedReached()
    ensures Reached(OnePort(Port(DISABLED, 1, -1, 0, 2, 0), None, RESTING, false))
  {
    hide Reached, OnePort, RESTING, Visiting;
    EnabledAfterEagain();
    ReachVisit(Port(ENABLED, 1, 0, 0, 2, 0), Sent(0, EAGAIN), None, true, OK);
    var p := Port(ENABLED, 1, -1, 0, 2, 0);
    ReachVisit(p, Judging(0, EAGAIN), None, true, OK);
    ReachRest(p, Leaving(EAGAIN), true);
    ReachScan(p.(state := DISABLED));
    ReachRest(p.(state := DISABLED), Entering, false);
  }

  const ON := Work(false, OK)

  /** Whenever a port is enabled between the requeue after EAGAIN and the worker's retaking the
      lock, the worker's own next steps disable it again and leave its PDUs without a wake-up.
   */
  lemma {:induction false} EnableIsOverwritten(s: Sys, r: Ref, sent: nat)
    requires r in s.ports && s.worker.pc == Visit(r, Sent(sent, EAGAIN)) && !Frees(s.ports[r])
    ensures Runs(s, [ON, ON, ON])
    ensures var s' := After(s, [ON, ON, ON]);
            && s'.worker == s.worker.(pc := Scanning) && s'.scheduled == s.scheduled
            && s'.ports == s.ports[r := Leave(s.ports[r]).(state := DISABLED)]
  {
    var s1 := Do(s, ON);
    var s2 := Do(s1, ON);
    assert s2.worker.pc == Visit(r, Leaving(EAGAIN)) && s2.ports == s.ports[r := Leave(s.ports[r])];
    Three(s, ON, ON, ON);
  }

  lemma Three(s: Sys, a: Action, b: Action, c: Action)
    requires Can(s, a) && Can(Do(s, a), b) && Can(Do(Do(s, a), b), c)
    ensures Runs(s, [a, b, c]) && After(s, [a, b, c]) == Do(Do(Do(s, a), b), c)
  {
    hide Can, Do;
    var s1 := Do(s, a);
    var s2 := Do(s1, b);
    assert [a, b, c][1..] == [b, c] && [b, c][1..] == [c] && [c][1..] == [];
    assert Runs(Do(s2, c), []) && After(Do(s2, c), []) == Do(s2, c);
    assert Runs(s2, [c]) && After(s2, [c]) == Do(s2, c);
    assert Runs(s1, [b, c]) && After(s1, [b, c]) == Do(s2, c);
  }

  // ---------- how long an enable lasts ----------

  /** The worker carries an EAGAIN it will act on once more when it leaves the port. */
  predicate Doomed(s: Sys, r: Ref) {
    WorksOn(s.worker, r) &&
    match s.worker.pc.at
    case Sent(_, ret) => ret == EAGAIN
    case Judging(_, ret) => ret == EAGAIN
    case Leaving(ret) => ret == EAGAIN
    case _ => false
  }

  /** The step unbinds or disables the port, or answers to an EAGAIN on it. */
  predicate Disturbs(s: Sys, a: Action, r: Ref)
    requires Can(s, a)
  {
    || a == Unbind(r)
    || (a.Step? && s.threads[a.t] in {Thread(r, Disabling), Thread(r, Returning)})
    || (a.Work? && s.worker.pc.r == r && s.worker.pc.at.PuttingBack?)
  }

  predicate Undisturbed(s: Sys, run: seq<Action>, r: Ref)
    decreases |run|
  {
    run == [] || (Can(s, run[0]) && !Disturbs(s, run[0], r) && Undisturbed(Do(s, run[0]), run[1..], r))
  }

  predicate IsEnabled(s: Sys, r: Ref) {
    r in s.ports && s.ports[r].state == ENABLED
  }

  lemma ThreadKeepsEnabled(s: Sys, t: Tid, accept: bool, ret: Ret, r: Ref)
    requires t in s.threads && IsEnabled(s, r) && s.threads[t] !in {Thread(r, Disabling), Thread(r, Returning)}
    ensures IsEnabled(ThreadStep(s, t, accept, ret), r) && ThreadStep(s, t, accept, ret).worker.pc == s.worker.pc
  {
  }

  lemma VisitKeepsEnabled(s: Sys, got: bool, ret: Ret, r: Ref)
    requires s.worker.pc.Visit? && IsEnabled(s, r) && !Doomed(s, r)
    requires !(s.worker.pc.r == r && s.worker.pc.at.PuttingBack?)
    ensures IsEnabled(VisitStep(s, got, ret), r) && !Doomed(VisitStep(s, got, ret), r)
  {
  }

  /** An undisturbed step keeps the port enabled, and no EAGAIN comes up. */
  lemma {:induction false} StepKeepsEnabled(s: Sys, a: Action, r: Ref)
    requires Linked(s) && Can(s, a) && IsEnabled(s, r) && !Doomed(s, r) && !Disturbs(s, a, r)
    ensures IsEnabled(Do(s, a), r) && !Doomed(Do(s, a), r)
  {
    hide ThreadStep, VisitStep;
    if a.Step? {
      ThreadKeepsEnabled(s, a.t, a.accept, a.ret, r);
    } else if a.Work? {
      VisitKeepsEnabled(s, a.got, a.ret, r);
    }
  }

  lemma {:induction false} RunKeepsEnabled(s: Sys, run: seq<Action>, r: Ref)
    requires Linked(s) && IsEnabled(s, r) && !Doomed(s, r) && Undisturbed(s, run, r)
    ensures Runs(s, run) && IsEnabled(After(s, run), r)
    decreases |run|
  {
    hide Linked, Can, Do, Doomed, Disturbs, IsEnabled;
    if run != [] {
      StepKeepsEnabled(s, run[0], r);
      StepKeepsLinked(s, run[0]);
      RunKeepsEnabled(Do(s, run[0]), run[1..], r);
    }
  }

  /** The worker's own steps, from wherever it carries the EAGAIN to leaving the port. */
  lemma {:induction false} DoomedRun(s: Sys, r: Ref) returns (run: seq<Action>)
    requires IsEnabled(s, r) && Doomed(s, r)
    ensures Runs(s, run) && Undisturbed(s, run, r) && !IsEnabled(After(s, run), r)
    decreases if s.worker.pc.at.Sent? then 2 else if s.worker.pc.at.Judging? then 1 else 0
  {
    var s' := Do(s, ON);
    if s.worker.pc.at.Leaving? {
      assert !IsEnabled(s', r);
      run := [ON];
      assert Runs(s', []) && After(s', []) == s' && Undisturbed(s', [], r) && [ON][1..] == [];
    } else {
      assert IsEnabled(s', r) && Doomed(s', r);
      var rest := DoomedRun(s', r);
      run := [ON] + rest;
      assert run[1..] == rest;
    }
  }

  /** The port is still enabled at the end of the run. */
  predicate StaysEnabled(s: Sys, run: seq<Action>, r: Ref) {
    Runs(s, run) && IsEnabled(After(s, run), r)
  }

  /** An enabled port stays bound and enabled until somebody unbinds or disables it, or a write on
      it says EAGAIN, if and only if the worker does not carry an earlier EAGAIN for it.
   */
  lemma {:induction false} EnableLastsIff(s: Sys, r: Ref)
    requires Linked(s) && IsEnabled(s, r)
    ensures (forall run :: Undisturbed(s, run, r) ==> StaysEnabled(s, run, r)) <==> !Doomed(s, r)
  {
    if Doomed(s, r) {
      var run := DoomedRun(s, r);
      assert Undisturbed(s, run, r) && !StaysEnabled(s, run, r);
    } else {
      forall run | Undisturbed(s, run, r) ensures StaysEnabled(s, run, r) {
        RunKeepsEnabled(s, run, r);
      }
    }
  }

  // ---------- what an enable and a disable do ----------

  /** The lookup of a call on a port that is not deallocated leads on to what was asked for. */
  lemma CallLeadsOn(s: Sys, t: Tid, r: Ref, on: bool)
    requires Can(s, Switch(t, r, on))
    ensures var s' := Do(s, Switch(t, r, on));
            if s.ports[r].state == DEALLOCATED then s' == s
            else s' == s.(threads := s.threads[t := Thread(r, if on then Enabling else Disabling)])
  {
  }

  /** The step that enables does so, and the port stays bound and enabled along every undisturbed
      run if and only if the worker does not carry an EAGAIN for it.
   */
  lemma {:induction false} EnableEnablesIff(s: Sys, a: Action, r: Ref)
    requires Linked(s) && Can(s, a) && a.Step? && s.threads[a.t] == Thread(r, Enabling)
    requires r in s.ports && s.ports[r].state != DEALLOCATED
    ensures IsEnabled(Do(s, a), r)
    ensures (forall run :: Undisturbed(Do(s, a), run, r) ==> StaysEnabled(Do(s, a), run, r)) <==> !Doomed(s, r)
  {
    var s' := Do(s, a);
    StepKeepsLinked(s, a);
    assert s'.worker == s.worker;
    EnableLastsIff(s', r);
  }

  predicate IsDisabled(s: Sys, r: Ref) {
    r in s.ports && s.ports[r].state == DISABLED
  }

  /** No step of the run enables or unbinds the port. */
  predicate LeftDisabled(s: Sys, run: seq<Action>, r: Ref)
    decreases |run|
  {
    run == [] ||
    (Can(s, run[0]) && run[0] != Unbind(r) && !(run[0].Step? && s.threads[run[0].t] == Thread(r, Enabling))
     && LeftDisabled(Do(s, run[0]), run[1..], r))
  }

  /** The step that disables does so. */
  lemma DisableDisables(s: Sys, a: Action, r: Ref)
    requires Can(s, a) && a.Step? && s.threads[a.t] == Thread(r, Disabling) && r in s.ports
    ensures IsDisabled(Do(s, a), r)
  {
  }

  lemma VisitKeepsDisabled(s: Sys, got: bool, ret: Ret, r: Ref)
    requires s.worker.pc.Visit? && IsDisabled(s, r)
    ensures IsDisabled(VisitStep(s, got, ret), r)
  {
  }

  lemma {:induction false} StepKeepsDisabled(s: Sys, a: Action, r: Ref)
    requires Linked(s) && Can(s, a) && IsDisabled(s, r)
    ensures IsDisabled(Do(s, a), r) <==> a != Unbind(r) && !(a.Step? && s.threads[a.t] == Thread(r, Enabling))
  {
    hide VisitStep;
    if a.Work? { VisitKeepsDisabled(s, a.got, a.ret, r); }
  }

  /** A disabled port stays bound and disabled until it is enabled or unbound, whatever else happens. */
  lemma {:induction false} DisableLasts(s: Sys, run: seq<Action>, r: Ref)
    requires Linked(s) && IsDisabled(s, r) && LeftDisabled(s, run, r)
    ensures Runs(s, run) && IsDisabled(After(s, run), r)
    decreases |run|
  {
    hide Linked, Can, Do, IsDisabled;
    if run != [] {
      StepKeepsDisabled(s, run[0], r);
      StepKeepsLinked(s, run[0]);
      DisableLasts(Do(s, run[0]), run[1..], r);
    }
  }

  // ---------- what an unbind does ----------

  /** The port is gone, or deallocated with operations pending on it. */
  predicate IsUnbound(s: Sys, r: Ref) {
    r in s.used && (r in s.ports ==> s.ports[r].state == DEALLOCATED && s.ports[r].pendingOps != 0)
  }

  /** The worker carries an EAGAIN for the port and will not free it before it acts on that. */
  predicate Caught(s: Sys, r: Ref) {
    r in s.ports && Doomed(s, r) && (s.worker.pc.at.Sent? ==> s.ports[r].pendingOps != 1)
  }

  /** The step disables the port, or answers to an EAGAIN on it. */
  predicate Revives(s: Sys, a: Action, r: Ref)
    requires Can(s, a)
  {
    a != Unbind(r) && Disturbs(s, a, r)
  }

  predicate Unrevived(s: Sys, run: seq<Action>, r: Ref)
    decreases |run|
  {
    run == [] || (Can(s, run[0]) && !Revives(s, run[0], r) && Unrevived(Do(s, run[0]), run[1..], r))
  }

  lemma ThreadKeepsUnbound(s: Sys, t: Tid, accept: bool, ret: Ret, r: Ref)
    requires t in s.threads && IsUnbound(s, r) && s.threads[t] !in {Thread(r, Disabling), Thread(r, Returning)}
    requires !Caught(s, r)
    ensures IsUnbound(ThreadStep(s, t, accept, ret), r) && !Caught(ThreadStep(s, t, accept, ret), r)
  {
  }

  lemma VisitKeepsUnbound(s: Sys, got: bool, ret: Ret, r: Ref)
    requires s.worker.pc.Visit? && IsUnbound(s, r) && !Caught(s, r)
    requires !(s.worker.pc.r == r && s.worker.pc.at.PuttingBack?)
    ensures IsUnbound(VisitStep(s, got, ret), r) && !Caught(VisitStep(s, got, ret), r)
  {
  }

  lemma {:induction false} StepKeepsUnbound(s: Sys, a: Action, r: Ref)
    requires Linked(s) && Can(s, a) && IsUnbound(s, r) && !Caught(s, r) && !Revives(s, a, r)
    ensures IsUnbound(Do(s, a), r) && !Caught(Do(s, a), r)
  {
    hide ThreadStep, VisitStep;
    if a.Step? {
      ThreadKeepsUnbound(s, a.t, a.accept, a.ret, r);
    } else if a.Work? {
      VisitKeepsUnbound(s, a.got, a.ret, r);
    }
  }

  lemma {:induction false} RunKeepsUnbound(s: Sys, run: seq<Action>, r: Ref)
    requires Linked(s) && IsUnbound(s, r) && !Caught(s, r) && Unrevived(s, run, r)
    ensures Runs(s, run) && IsUnbound(After(s, run), r)
    decreases |run|
  {
    hide Linked, Can, Do, Caught, Revives, IsUnbound;
    if run != [] {
      StepKeepsUnbound(s, run[0], r);
      StepKeepsLinked(s, run[0]);
      RunKeepsUnbound(Do(s, run[0]), run[1..], r);
    }
  }

  predicate StaysUnbound(s: Sys, run: seq<Action>, r: Ref) {
    Runs(s, run) && IsUnbound(After(s, run), r)
  }

  /** The worker's own steps to where it disables the deallocated port. */
  lemma {:induction false} CaughtRun(s: Sys, r: Ref) returns (run: seq<Action>)
    requires IsUnbound(s, r) && Caught(s, r)
    ensures Runs(s, run) && Unrevived(s, run, r) && !IsUnbound(After(s, run), r)
    decreases if s.worker.pc.at.Sent? then 2 else if s.worker.pc.at.Judging? then 1 else 0
  {
    var s' := Do(s, ON);
    if s.worker.pc.at.Leaving? {
      run := [ON];
      assert Runs(s', []) && After(s', []) == s' && Unrevived(s', [], r) && [ON][1..] == [];
    } else {
      var rest := CaughtRun(s', r);
      run := [ON] + rest;
      assert run[1..] == rest;
    }
  }

  /** An unbind takes the port away, or leaves it deallocated with operations pending. It stays so, and
      goes with the last of them, along every run in which nobody disables it and no write on it says
      EAGAIN, if and only if the worker does not carry an earlier EAGAIN for it.
   */
  lemma {:induction false} UnbindLastsIff(s: Sys, r: Ref)
    requires Linked(s) && Can(s, Unbind(r))
    ensures var s' := Do(s, Unbind(r));
            && IsUnbound(s', r)
            && ((forall run :: Unrevived(s', run, r) ==> StaysUnbound(s', run, r)) <==> !Caught(s', r))
  {
    var s' := Do(s, Unbind(r));
    StepKeepsLinked(s, Unbind(r));
    if Caught(s', r) {
      var run := CaughtRun(s', r);
      assert Unrevived(s', run, r) && !StaysUnbound(s', run, r);
    } else {
      forall run | Unrevived(s', run, r) ensures StaysUnbound(s', run, r) {
        RunKeepsUnbound(s', run, r);
      }
    }
  }

  /** So a port can outlive its unbind: the write under way says EAGAIN, the port is disabled and no
      longer deallocated, and the last operation leaves it behind, with its PDU.
   */
  lemma {:induction false} UnbindIsForgotten() returns (s: Sys, run: seq<Action>)
    ensures Reached(s) && Can(s, Unbind(1)) && Runs(Do(s, Unbind(1)), run)
    ensures var s' := After(Do(s, Unbind(1)), run);
            && s'.worker.pc.Idle? && !s'.scheduled && s'.threads == map[]
            && 1 in s'.ports && s'.ports[1] == Port(DISABLED, 1, 0, 0, 1, 0)
  {
    hide Reached, Runs, After;
    ReachBind();
    ReachSend(Port(ENABLED, 0, 0, 0, 0, 0), RESTING, false);
    ReachMove(Port(ENABLED, 0, 1, 0, 0, 0), Queueing, RESTING, false, OK);
    s := OnePort(Port(ENABLED, 0, 1, 0, 0, 0), Some(Writing), RESTING, false);
    assert Do(s, Unbind(1)) == OnePort(Port(DEALLOCATED, 0, 1, 0, 0, 0), Some(Writing), RESTING, false);
    run := [Step(0, true, EAGAIN), Step(0, true, OK), Step(0, true, OK)];
    ForgottenSteps();
  }

  lemma ForgottenSteps()
    ensures var s := OnePort(Port(DEALLOCATED, 0, 1, 0, 0, 0), Some(Writing), RESTING, false);
            var run := [Step(0, true, EAGAIN), Step(0, true, OK), Step(0, true, OK)];
            Runs(s, run) && After(s, run) == OnePort(Port(DISABLED, 1, 0, 0, 1, 0), None, RESTING, false)
  {
    var s := OnePort(Port(DEALLOCATED, 0, 1, 0, 0, 0), Some(Writing), RESTING, false);
    var a, b := Step(0, true, EAGAIN), Step(0, true, OK);
    assert Do(s, a) == OnePort(Port(DEALLOCATED, 0, 1, 0, 0, 0), Some(Returning), RESTING, false);
    assert Do(Do(s, a), b) == OnePort(Port(DISABLED, 1, 1, 0, 1, 0), Some(Finishing), RESTING, false);
    assert Do(Do(Do(s, a), b), b) == OnePort(Port(DISABLED, 1, 0, 0, 1, 0), None, RESTING, false);
    Three(s, a, b, b);
  }

  // ---------- a policy that cannot requeue ----------

  /** Then the worker never carries an EAGAIN, so that every enable lasts until it is undone. */
  lemma {:induction false} NeverDoomed(s: Sys, run: seq<Action>)
    requires !s.policy.canRequeue && Runs(s, run) && forall r :: !Doomed(s, r)
    ensures forall r :: !Doomed(After(s, run), r)
    decreases |run|
  {
    hide Can, Do, Doomed;
    if run != [] {
      StepCarriesNone(s, run[0]);
      NeverDoomed(Do(s, run[0]), run[1..]);
    }
  }

  lemma StepCarriesNone(s: Sys, a: Action)
    requires !s.policy.canRequeue && Can(s, a) && forall r :: !Doomed(s, r)
    ensures Do(s, a).policy == s.policy && forall r :: !Doomed(Do(s, a), r)
  {
    assert s.worker.pc.Visit? ==> !Doomed(s, s.worker.pc.r);
  }
}
