/** What every interleaving of the port protocol keeps: no wake-up is lost, and `pending_ops`
    counts the queued PDUs and those in flight up to refusals, returns and resets.
 */
module RmtSafety {
  import opened Rmt

  // ---------- no lost wake-up ----------

  /** The port waits for the worker. */
  predicate Waits(p: Port) {
    p.state == ENABLED && p.nSdus > 0
  }

  /** The worker will still come: the tasklet is scheduled, or the worker runs and has not
      finished the port or will reschedule the tasklet.
   */
  predicate Covered(s: Sys, r: Ref) {
    s.scheduled || (!s.worker.pc.Idle? && (r in s.worker.todo || WorksOn(s.worker, r) || s.worker.reschedule > 0))
  }

  predicate NoLostWakeup(s: Sys) {
    forall r :: r in s.ports && Waits(s.ports[r]) ==> Covered(s, r)
  }

  lemma ThreadStepKeepsWakeup(s: Sys, t: Tid, accept: bool, ret: Ret)
    requires NoLostWakeup(s) && t in s.threads
    ensures NoLostWakeup(ThreadStep(s, t, accept, ret))
  {
    var s' := ThreadStep(s, t, accept, ret);
    forall r | r in s'.ports && Waits(s'.ports[r]) ensures Covered(s', r) {
      if !s'.scheduled { assert r in s.ports && Waits(s.ports[r]); }
    }
  }

  lemma VisitStepKeepsWakeup(s: Sys, got: bool, ret: Ret)
    requires NoLostWakeup(s) && s.worker.pc.Visit?
    ensures NoLostWakeup(VisitStep(s, got, ret))
  {
    var s' := VisitStep(s, got, ret);
    forall r | r in s'.ports && Waits(s'.ports[r]) ensures Covered(s', r) {
      if r != s.worker.pc.r { assert s'.ports[r] == s.ports[r] && Covered(s, r); }
    }
  }

  /** A port waits only after DISABLED -> ENABLED, which schedules the tasklet, and the worker
      lets go of a waiting port only with `reschedule` counted up.
   */
  lemma {:induction false} StepKeepsWakeup(s: Sys, a: Action)
    requires NoLostWakeup(s) && Can(s, a)
    ensures NoLostWakeup(Do(s, a))
  {
    hide ThreadStep, VisitStep;
    if a.Step? {
      ThreadStepKeepsWakeup(s, a.t, a.accept, a.ret);
    } else if a.Work? {
      VisitStepKeepsWakeup(s, a.got, a.ret);
    } else {
      var s' := Do(s, a);
      forall r | r in s'.ports && Waits(s'.ports[r]) ensures Covered(s', r) {
        assert r in s.ports ==> Waits(s.ports[r]) && Covered(s, r);
      }
    }
  }

  /** In every reachable state. */
  lemma {:induction false} RunKeepsWakeup(s: Sys, run: seq<Action>)
    requires NoLostWakeup(s) && Runs(s, run)
    ensures NoLostWakeup(After(s, run))
    decreases |run|
  {
    if run != [] {
      StepKeepsWakeup(s, run[0]);
      RunKeepsWakeup(Do(s, run[0]), run[1..]);
    }
  }

  // ---------- counting ----------

  predicate Counts(th: Thread, r: Ref) {
    th.r == r && !th.at.Enabling? && !th.at.Disabling?
  }

  function Counted(threads: map<Tid, Thread>, r: Ref): set<Tid> {
    set t | t in threads && Counts(threads[t], r)
  }

  /** Sends under way on the port: threads between their two counts, and the PDU the worker holds. */
  function InFlight(s: Sys, r: Ref): nat {
    |Counted(s.threads, r)| + if Carries(s.worker, r) then 1 else 0
  }

  function Live(threads: map<Tid, Thread>, t: Tid, r: Ref): int {
    if t in threads && Counts(threads[t], r) then 1 else 0
  }

  lemma Without(a: set<Tid>, t: Tid)
    ensures |a| == |a - {t}| + if t in a then 1 else 0
  {
    if t in a { assert a == a - {t} + {t}; } else { assert a == a - {t}; }
  }

  /** When only the entry of one thread differs, the counts differ by that thread. */
  lemma Recount(m: map<Tid, Thread>, n: map<Tid, Thread>, t: Tid, r: Ref)
    requires m - {t} == n - {t}
    ensures |Counted(n, r)| == |Counted(m, r)| - Live(m, t, r) + Live(n, t, r)
  {
    hide Counts;
    var a, b, rest := Counted(m, r), Counted(n, r), Counted(m - {t}, r);
    assert a - {t} == rest;
    assert b - {t} == rest;
    Without(a, t);
    Without(b, t);
  }

  /** What the port's own counters say is in flight. */
  function Net(p: Port): int {
    p.pendingOps - p.nSdus - p.refused - p.forgotten + p.returned
  }

  /** `pending_ops` is what is queued and in flight, plus what was refused or forgotten, less
      what was returned.
   */
  predicate Balanced(s: Sys, r: Ref)
    requires r in s.ports
  {
    Net(s.ports[r]) == InFlight(s, r)
  }

  /** Every reference is of a port that was bound, and the scan meets linked ports only. */
  predicate Linked(s: Sys) {
    && s.worker.todo <= s.ports.Keys <= s.used
    && (forall t :: t in s.threads ==> s.threads[t].r in s.used)
    && (s.worker.pc.Visit? ==> s.worker.pc.r in s.used)
  }

  /** No count is negative; a poll has a PDU to ask for, and no visit goes over the limit. */
  predicate Stocked(s: Sys) {
    && (forall r :: r in s.ports ==> s.ports[r].nSdus >= 0)
    && (s.worker.pc.Visit? ==> InLimit(s.worker.pc.at))
    && (s.worker.pc.Visit? && s.worker.pc.at.Polling? && s.worker.pc.r in s.ports ==> s.ports[s.worker.pc.r].nSdus > 0)
  }

  /** Fewer than the limit were written before the PDU at hand. */
  predicate InLimit(at: Place) {
    match at
    case Polling(sent) => sent < MAX_PDUS_SENT_PER_CYCLE
    case Sending(sent) => sent < MAX_PDUS_SENT_PER_CYCLE
    case PuttingBack(sent) => sent < MAX_PDUS_SENT_PER_CYCLE
    case Sent(sent, _) => sent < MAX_PDUS_SENT_PER_CYCLE
    case Judging(sent, _) => sent < MAX_PDUS_SENT_PER_CYCLE
    case _ => true
  }

  predicate Accounted(s: Sys) {
    Linked(s) && Stocked(s) && forall r :: r in s.ports ==> Balanced(s, r)
  }

  lemma OtherThreads(s: Sys, t: Tid, accept: bool, ret: Ret)
    requires t in s.threads
    ensures ThreadStep(s, t, accept, ret).threads - {t} == s.threads - {t}
    ensures ThreadStep(s, t, accept, ret).worker.pc == s.worker.pc
  {
  }

  /** A thread's step moves its port's counters as it moves the thread. */
  lemma ThreadMovesNet(s: Sys, t: Tid, accept: bool, ret: Ret, r: Ref)
    requires t in s.threads && r in s.ports && r in ThreadStep(s, t, accept, ret).ports
    ensures var s' := ThreadStep(s, t, accept, ret);
            Net(s'.ports[r]) - Live(s'.threads, t, r) == Net(s.ports[r]) - Live(s.threads, t, r)
  {
  }

  lemma {:induction false} ThreadStepBalances(s: Sys, t: Tid, accept: bool, ret: Ret, r: Ref)
    requires t in s.threads && r in s.ports && Balanced(s, r) && r in ThreadStep(s, t, accept, ret).ports
    ensures Balanced(ThreadStep(s, t, accept, ret), r)
  {
    hide Counted, Live, Net, ThreadStep;
    OtherThreads(s, t, accept, ret);
    ThreadMovesNet(s, t, accept, ret, r);
    Recount(s.threads, ThreadStep(s, t, accept, ret).threads, t, r);
  }

  function Held(w: Worker, r: Ref): int {
    if Carries(w, r) then 1 else 0
  }

  /** A step of the worker moves its port's counters as it takes up or lets go a PDU. */
  lemma VisitedMovesNet(policy: Policy, p: Port, at: Place, got: bool, ret: Ret)
    ensures var e := Visited(policy, p, at, got, ret);
            Net(e.p) - Net(p) == (if e.next.Some? && Bears(e.next.value) then 1 else 0) - (if Bears(at) then 1 else 0)
  {
  }

  lemma VisitMovesNet(s: Sys, got: bool, ret: Ret, r: Ref)
    requires s.worker.pc.Visit? && r in s.ports && r in VisitStep(s, got, ret).ports
    ensures var s' := VisitStep(s, got, ret);
            && Net(s'.ports[r]) - Held(s'.worker, r) == Net(s.ports[r]) - Held(s.worker, r)
            && s'.threads == s.threads
  {
    hide Visited, Bears, Net;
    if s.worker.pc.r in s.ports {
      VisitedMovesNet(s.policy, s.ports[s.worker.pc.r], s.worker.pc.at, got, ret);
    }
  }

  lemma {:induction false} VisitStepBalances(s: Sys, got: bool, ret: Ret, r: Ref)
    requires s.worker.pc.Visit? && r in s.ports && Balanced(s, r) && r in VisitStep(s, got, ret).ports
    ensures Balanced(VisitStep(s, got, ret), r)
  {
    hide Counted, Net, VisitStep, Carries;
    VisitMovesNet(s, got, ret, r);
  }

  lemma {:induction false} StepBalances(s: Sys, a: Action, r: Ref)
    requires Accounted(s) && Can(s, a) && r in Do(s, a).ports
    ensures Balanced(Do(s, a), r)
  {
    hide ThreadStep, VisitStep, Counted;
    if a.Step? {
      assert r in s.ports && Balanced(s, r) by { ThreadStepPorts(s, a.t, a.accept, a.ret); }
      ThreadStepBalances(s, a.t, a.accept, a.ret, r);
    } else if a.Work? {
      assert r in s.ports && Balanced(s, r) by { VisitStepPorts(s, a.got, a.ret); }
      VisitStepBalances(s, a.got, a.ret, r);
    } else if a.Send? || a.Switch? {
      assert Balanced(s, r);
      assert Do(s, a).threads - {a.t} == s.threads - {a.t};
      Recount(s.threads, Do(s, a).threads, a.t, r);
    } else if a.Bind? && r == a.r {
      NewPortBalances(s, r, a.seen);
    } else {
      assert r in s.ports && Balanced(s, r);
    }
  }

  /** Nothing is in flight on a port just bound. */
  lemma NewPortBalances(s: Sys, r: Ref, seen: bool)
    requires Linked(s) && r !in s.used
    ensures Balanced(BindPort(s, r, seen), r)
  {
    assert Counted(s.threads, r) == {};
  }

  lemma ThreadStepPorts(s: Sys, t: Tid, accept: bool, ret: Ret)
    requires t in s.threads
    ensures ThreadStep(s, t, accept, ret).ports.Keys <= s.ports.Keys
  {
  }

  lemma VisitStepPorts(s: Sys, got: bool, ret: Ret)
    requires s.worker.pc.Visit?
    ensures VisitStep(s, got, ret).ports.Keys <= s.ports.Keys
  {
  }

  lemma {:induction false} StepKeepsLinked(s: Sys, a: Action)
    requires Linked(s) && Can(s, a)
    ensures Linked(Do(s, a))
  {
    hide ThreadStep, VisitStep;
    if a.Step? {
      ThreadStepKeepsLinked(s, a.t, a.accept, a.ret);
    } else if a.Work? {
      VisitStepKeepsLinked(s, a.got, a.ret);
    }
  }

  lemma ThreadStepKeepsLinked(s: Sys, t: Tid, accept: bool, ret: Ret)
    requires Linked(s) && t in s.threads
    ensures Linked(ThreadStep(s, t, accept, ret))
  {
  }

  lemma VisitStepKeepsLinked(s: Sys, got: bool, ret: Ret)
    requires Linked(s) && s.worker.pc.Visit?
    ensures Linked(VisitStep(s, got, ret))
  {
  }

  lemma ThreadStepKeepsStocked(s: Sys, t: Tid, accept: bool, ret: Ret)
    requires Stocked(s) && t in s.threads && (NeedsLock(s.threads[t].at) ==> !Holds(s.worker, s.threads[t].r))
    ensures Stocked(ThreadStep(s, t, accept, ret))
  {
    hide InLimit;
  }

  lemma VisitStepKeepsStocked(s: Sys, got: bool, ret: Ret)
    requires Stocked(s) && s.worker.pc.Visit?
    ensures Stocked(VisitStep(s, got, ret))
  {
  }

  lemma {:induction false} StepKeepsStocked(s: Sys, a: Action)
    requires Linked(s) && Stocked(s) && Can(s, a)
    ensures Stocked(Do(s, a))
  {
    hide ThreadStep, VisitStep;
    if a.Step? {
      ThreadStepKeepsStocked(s, a.t, a.accept, a.ret);
    } else if a.Work? {
      VisitStepKeepsStocked(s, a.got, a.ret);
    }
  }

  lemma {:induction false} StepKeepsAccounted(s: Sys, a: Action)
    requires Accounted(s) && Can(s, a)
    ensures Accounted(Do(s, a))
  {
    StepKeepsLinked(s, a);
    StepKeepsStocked(s, a);
    hide Linked, Stocked, Do, Can, Balanced;
    forall r | r in Do(s, a).ports ensures Balanced(Do(s, a), r) {
      StepBalances(s, a, r);
    }
  }

  /** In every reachable state, whatever the policy and the flows answer. */
  lemma {:induction false} RunKeepsAccounted(s: Sys, run: seq<Action>)
    requires Accounted(s) && Runs(s, run)
    ensures Accounted(After(s, run))
    decreases |run|
  {
    hide Linked, Stocked, Do, Can, Balanced;
    if run != [] {
      StepKeepsAccounted(s, run[0]);
      RunKeepsAccounted(Do(s, run[0]), run[1..]);
    }
  }

  lemma InitAccounted(s: Sys)
    requires Init(s)
    ensures NoLostWakeup(s) && Accounted(s) && PollsOpen(s) && DeadArePending(s)
  {
  }

  /** When the worker rests and the tasklet is not scheduled, no enabled port holds a PDU. */
  lemma {:induction false} RestMeansEmpty(s: Sys, run: seq<Action>, r: Ref)
    requires Init(s) && Runs(s, run)
    requires After(s, run).worker.pc.Idle? && !After(s, run).scheduled
    requires r in After(s, run).ports && After(s, run).ports[r].state == ENABLED
    ensures After(s, run).ports[r].nSdus == 0
  {
    hide Can, Do;
    InitAccounted(s);
    RunKeepsWakeup(s, run);
    RunKeepsAccounted(s, run);
  }

  // ---------- disabled and deallocated ports ----------

  /** A visit that begins to poll found its port not disabled, and holds the port's lock since. */
  predicate PollsOpen(s: Sys) {
    forall r :: r in s.ports && s.worker.pc == Visit(r, Polling(0)) ==> s.ports[r].state != DISABLED
  }

  /** A deallocated port is in the table only while operations are pending on it. */
  predicate DeadArePending(s: Sys) {
    forall r :: r in s.ports && s.ports[r].state == DEALLOCATED ==> s.ports[r].pendingOps != 0
  }

  lemma ThreadStepKeepsOpen(s: Sys, t: Tid, accept: bool, ret: Ret)
    requires PollsOpen(s) && t in s.threads && (NeedsLock(s.threads[t].at) ==> !Holds(s.worker, s.threads[t].r))
    ensures PollsOpen(ThreadStep(s, t, accept, ret))
  {
  }

  lemma ThreadStepKeepsPending(s: Sys, t: Tid, accept: bool, ret: Ret)
    requires DeadArePending(s) && t in s.threads
    ensures DeadArePending(ThreadStep(s, t, accept, ret))
  {
  }

  lemma VisitStepKeepsOpen(s: Sys, got: bool, ret: Ret)
    requires PollsOpen(s) && s.worker.pc.Visit?
    ensures PollsOpen(VisitStep(s, got, ret))
  {
  }

  lemma VisitStepKeepsPending(s: Sys, got: bool, ret: Ret)
    requires DeadArePending(s) && s.worker.pc.Visit?
    ensures DeadArePending(VisitStep(s, got, ret))
  {
  }

  lemma {:induction false} StepKeepsGuards(s: Sys, a: Action)
    requires Linked(s) && PollsOpen(s) && DeadArePending(s) && Can(s, a)
    ensures PollsOpen(Do(s, a)) && DeadArePending(Do(s, a))
  {
    hide ThreadStep, VisitStep;
    if a.Step? {
      ThreadStepKeepsOpen(s, a.t, a.accept, a.ret);
      ThreadStepKeepsPending(s, a.t, a.accept, a.ret);
    } else if a.Work? {
      VisitStepKeepsOpen(s, a.got, a.ret);
      VisitStepKeepsPending(s, a.got, a.ret);
    }
  }

  /** In every reachable state the worker leaves disabled ports alone, and the last operation
      pending on a deallocated port has taken the port with it.
   */
  lemma {:induction false} RunKeepsGuards(s: Sys, run: seq<Action>)
    requires Linked(s) && PollsOpen(s) && DeadArePending(s) && Runs(s, run)
    ensures PollsOpen(After(s, run)) && DeadArePending(After(s, run))
    decreases |run|
  {
    hide Linked, PollsOpen, DeadArePending, Can, Do;
    if run != [] {
      StepKeepsGuards(s, run[0]);
      StepKeepsLinked(s, run[0]);
      RunKeepsGuards(Do(s, run[0]), run[1..]);
    }
  }

  /** What the step takes off the pending operations of the port. */
  function Ended(s: Sys, a: Action, r: Ref): nat
    requires Can(s, a)
  {
    if a.Step? && s.threads[a.t] == Thread(r, Finishing) then 1
    else if a.Work? && s.worker.pc.r == r && s.worker.pc.at.Sent? then 1
    else 0
  }

  lemma VisitFreesIff(s: Sys, got: bool, ret: Ret, r: Ref)
    requires s.worker.pc.Visit? && r in s.ports && DeadArePending(s)
    ensures r !in VisitStep(s, got, ret).ports <==>
              s.ports[r].state == DEALLOCATED && s.ports[r].pendingOps == Ended(s, Work(got, ret), r)
  {
  }

  /** A port is freed exactly when it has been unbound and no operation is pending any more. */
  lemma {:induction false} FreedIff(s: Sys, a: Action, r: Ref)
    requires Linked(s) && DeadArePending(s) && Can(s, a) && r in s.ports
    ensures r !in Do(s, a).ports <==>
              (s.ports[r].state == DEALLOCATED || a == Unbind(r)) && s.ports[r].pendingOps == Ended(s, a, r)
  {
    hide VisitStep;
    if a.Work? { VisitFreesIff(s, a.got, a.ret, r); }
  }

  // ---------- destroying a port ----------

  /** Sends under way are those before the step, less the one that leaves with it. */
  lemma FreedNet(s: Sys, a: Action, r: Ref)
    requires Can(s, a) && r in s.ports && r !in Do(s, a).ports
    ensures InFlight(Do(s, a), r) - InFlight(s, r) == -s.ports[r].pendingOps
  {
    hide Counted;
    if a.Step? {
      hide Live;
      var s' := ThreadStep(s, a.t, a.accept, a.ret);
      assert s'.threads == s.threads - {a.t} && s'.worker.pc == s.worker.pc;
      assert Live(s.threads, a.t, r) == 1 && Live(s'.threads, a.t, r) == 0 by { FreedLive(s, a.t, a.accept, a.ret, r); }
      Recount(s.threads, s'.threads, a.t, r);
    }
  }

  lemma FreedLive(s: Sys, t: Tid, accept: bool, ret: Ret, r: Ref)
    requires t in s.threads && r in s.ports && r !in ThreadStep(s, t, accept, ret).ports
    ensures Live(s.threads, t, r) == 1 && Live(ThreadStep(s, t, accept, ret).threads, t, r) == 0
    ensures s.ports[r].pendingOps == 1
  {
  }

  /** Every way to free a port leaves behind, queued or in flight, exactly as many PDUs as came
      back with EAGAIN beyond those refused or forgotten.
   */
  lemma {:induction false} FreedPort(s: Sys, run: seq<Action>, a: Action, r: Ref)
    requires Init(s) && Runs(s, run) && Can(After(s, run), a)
    requires r in After(s, run).ports && r !in Do(After(s, run), a).ports
    ensures var p := After(s, run).ports[r];
            p.nSdus + InFlight(Do(After(s, run), a), r) == p.returned - p.refused - p.forgotten
  {
    InitAccounted(s);
    RunKeepsAccounted(s, run);
    assert Balanced(After(s, run), r);
    FreedNet(After(s, run), a, r);
  }

  /** So a port is freed with no PDU queued or in flight if and only if its returns are made up
      for by refusals and resets.
   */
  lemma {:induction false} FreedEmptyIff(s: Sys, run: seq<Action>, a: Action, r: Ref)
    requires Init(s) && Runs(s, run) && Can(After(s, run), a)
    requires r in After(s, run).ports && r !in Do(After(s, run), a).ports
    ensures var p := After(s, run).ports[r];
            p.nSdus == 0 && InFlight(Do(After(s, run), a), r) == 0 <==> p.returned == p.refused + p.forgotten
  {
    FreedPort(s, run, a, r);
    InitAccounted(s);
    RunKeepsAccounted(s, run);
  }

  /** Under a policy that may answer null, nothing is ever forgotten. */
  predicate Remembers(s: Sys) {
    s.policy.allowNull && forall r :: r in s.ports ==> s.ports[r].forgotten == 0
  }

  lemma StepRemembers(s: Sys, a: Action)
    requires Remembers(s) && Can(s, a)
    ensures Remembers(Do(s, a))
  {
  }

  lemma {:induction false} RunRemembers(s: Sys, run: seq<Action>)
    requires Remembers(s) && Runs(s, run)
    ensures Remembers(After(s, run))
    decreases |run|
  {
    hide Remembers, Can, Do;
    if run != [] {
      StepRemembers(s, run[0]);
      RunRemembers(Do(s, run[0]), run[1..]);
    }
  }

  // ---------- runs without EAGAIN, refusals or resets ----------

  predicate CalmStep(a: Action) {
    (a.Step? ==> a.accept && a.ret != EAGAIN) && (a.Work? ==> a.ret != EAGAIN)
  }

  predicate Calm(run: seq<Action>) {
    forall i :: 0 <= i < |run| ==> CalmStep(run[i])
  }

  predicate Quiet(s: Sys) {
    && s.policy.allowNull
    && (forall r :: r in s.ports ==> s.ports[r].refused == s.ports[r].returned == s.ports[r].forgotten == 0)
    && (forall t :: t in s.threads ==> !s.threads[t].at.Returning?)
    && (s.worker.pc.Visit? ==> !s.worker.pc.at.PuttingBack?)
  }

  lemma CalmThreadStep(s: Sys, t: Tid, ret: Ret)
    requires Quiet(s) && t in s.threads && ret != EAGAIN
    ensures Quiet(ThreadStep(s, t, true, ret))
  {
  }

  lemma CalmVisitStep(s: Sys, got: bool, ret: Ret)
    requires Quiet(s) && s.worker.pc.Visit? && ret != EAGAIN
    ensures Quiet(VisitStep(s, got, ret))
  {
  }

  lemma CalmStepKeepsQuiet(s: Sys, a: Action)
    requires Quiet(s) && Can(s, a) && CalmStep(a)
    ensures Quiet(Do(s, a))
  {
    hide ThreadStep, VisitStep;
    if a.Step? {
      CalmThreadStep(s, a.t, a.ret);
    } else if a.Work? {
      CalmVisitStep(s, a.got, a.ret);
    }
  }

  lemma {:induction false} CalmRunKeepsQuiet(s: Sys, run: seq<Action>)
    requires Quiet(s) && Runs(s, run) && Calm(run)
    ensures Quiet(After(s, run))
    decreases |run|
  {
    hide Quiet, Can, Do, CalmStep;
    if run != [] {
      assert CalmStep(run[0]);
      CalmStepKeepsQuiet(s, run[0]);
      CalmRunKeepsQuiet(Do(s, run[0]), run[1..]);
    }
  }

  /** On such a run, with a policy that may answer null, pending_ops is the PDUs queued and in
      flight, and every way to free a port leaves none of them behind.
   */
  lemma {:induction false} CalmRunCounts(s: Sys, run: seq<Action>, r: Ref)
    requires Init(s) && s.policy.allowNull && Runs(s, run) && Calm(run) && r in After(s, run).ports
    ensures var s' := After(s, run);
            && s'.ports[r].pendingOps == s'.ports[r].nSdus + InFlight(s', r)
            && forall a :: Can(s', a) && r !in Do(s', a).ports ==> s'.ports[r].nSdus == 0 && InFlight(Do(s', a), r) == 0
  {
    hide InFlight, Can, Do;
    var s' := After(s, run);
    InitAccounted(s);
    RunKeepsAccounted(s, run);
    CalmRunKeepsQuiet(s, run);
    assert Balanced(s', r);
    forall a | Can(s', a) && r !in Do(s', a).ports
      ensures s'.ports[r].nSdus == 0 && InFlight(Do(s', a), r) == 0
    {
      FreedPort(s, run, a, r);
    }
  }
}
