/** What the calls of the RMT do as a whole: which sender writes and which queues, what wakes the
    worker, and what a send and a visit of the worker come to when nobody comes in between.
 */
module RmtCalls {
  import opened Options
  import opened Rmt
  import opened RmtSafety

  // ---------- who writes ----------

  predicate IsAt(s: Sys, t: Tid, r: Ref, at: Spot) {
    t in s.threads && s.threads[t] == Thread(r, at)
  }

  /** A sender that finds PDUs queued or the port disabled leaves its PDU to the policy, and returns;
      any other is to write it.
   */
  lemma QueuesOrWrites(s: Sys, a: Action, r: Ref)
    requires Can(s, a) && a.Step? && s.threads[a.t] == Thread(r, Queueing) && r in s.ports
    ensures var p, s' := s.ports[r], Do(s, a);
            && r in s'.ports
            && if p.nSdus <= 0 && p.state != DISABLED
               then IsAt(s', a.t, r, Writing) && s'.ports[r] == p
               else
                 && a.t !in s'.threads
                 && s'.ports[r] == if a.accept then p.(nSdus := p.nSdus + 1) else p.(refused := p.refused + 1)
  {
  }

  /** And nobody comes to write on a port in any other way. */
  lemma {:induction false} WritesPastNothing(s: Sys, a: Action, t: Tid, r: Ref)
    requires Can(s, a) && IsAt(Do(s, a), t, r, Writing) && !IsAt(s, t, r, Writing)
    ensures a.Step? && a.t == t && IsAt(s, t, r, Queueing)
    ensures r in s.ports && s.ports[r].nSdus <= 0 && s.ports[r].state != DISABLED
  {
    if a.Step? && a.t == t && IsAt(s, t, r, Queueing) && r in s.ports { QueuesOrWrites(s, a, r); }
  }

  /** A sender comes to put its PDU back only from a write that said EAGAIN, and the port is
      disabled when it has.
   */
  lemma ReturnsAfterEagain(s: Sys, a: Action, t: Tid, r: Ref)
    requires Can(s, a) && IsAt(Do(s, a), t, r, Returning) && !IsAt(s, t, r, Returning)
    ensures a.Step? && a.t == t && IsAt(s, t, r, Writing) && a.ret == EAGAIN
  {
  }

  /** Who puts a PDU back, sender or worker, disables the port, and counts the PDU when the policy
      took it.
   */
  lemma PutBackDisables(s: Sys, a: Action, r: Ref)
    requires Can(s, a) && r in s.ports
    requires (a.Step? && IsAt(s, a.t, r, Returning)) || (a.Work? && WorksOn(s.worker, r) && s.worker.pc.at.PuttingBack?)
    ensures var p, s' := s.ports[r], Do(s, a);
            && r in s'.ports && s'.ports[r].state == DISABLED && s'.ports[r].pendingOps == p.pendingOps
            && s'.ports[r].nSdus == p.nSdus + if s.policy.canRequeue then 1 else 0
  {
  }

  // ---------- what wakes the worker ----------

  /** A calling thread schedules the tasklet exactly when it makes a port wait. */
  lemma {:induction false} WakesIff(s: Sys, a: Action)
    requires Can(s, a) && a.Step?
    ensures Do(s, a).scheduled <==>
              s.scheduled ||
              exists r :: r in s.ports && r in Do(s, a).ports && !Waits(s.ports[r]) && Waits(Do(s, a).ports[r])
  {
    var r, s' := s.threads[a.t].r, Do(s, a);
    assert forall q :: q in s'.ports && q != r ==> q in s.ports && s'.ports[q] == s.ports[q];
    if s'.scheduled && !s.scheduled { assert r in s.ports && !Waits(s.ports[r]) && Waits(s'.ports[r]); }
  }

  /** The worker will reschedule the tasklet for the ports it left waiting, and for no other. */
  lemma ReschedulesIff(s: Sys, a: Action)
    requires Can(s, a) && !a.WorkerStart?
    ensures Do(s, a).worker.reschedule == s.worker.reschedule +
            if a.Work? && s.worker.pc.at.Leaving? && s.worker.pc.r in s.ports && Waits(Do(s, a).ports[s.worker.pc.r])
            then 1 else 0
    ensures !a.Step? ==>
              (Do(s, a).scheduled <==>
                 s.scheduled || (a.WorkerEnd? && s.worker.reschedule > 0))
  {
  }

  // ---------- the scan ----------

  /** The scan visits every port it picks that is not deallocated; a deallocated one it frees if no
      operation is pending on it, which in a reachable state never is so.
   */
  lemma PickIff(s: Sys, r: Ref)
    requires Can(s, WorkerPick(r)) && r in s.ports
    ensures var p, s' := s.ports[r], Do(s, WorkerPick(r));
            && (s'.worker.pc == Visit(r, Entering) <==> p.state != DEALLOCATED)
            && (r !in s'.ports <==> p.state == DEALLOCATED && p.pendingOps == 0)
            && (DeadArePending(s) ==> s'.ports == s.ports)
  {
  }

  /** A visit goes on to poll exactly on a port that is not disabled and has PDUs counted. */
  lemma EntersIff(s: Sys, got: bool, ret: Ret, r: Ref)
    requires s.worker.pc == Visit(r, Entering) && r in s.ports
    ensures var s' := Do(s, Work(got, ret));
            && s'.ports == s.ports
            && s'.worker.pc ==
               if s.ports[r].state != DISABLED && s.ports[r].nSdus != 0 then Visit(r, Polling(0)) else Scanning
  {
  }

  /** A poll that gets no PDU ends the visit; the count is lost only under a policy that should not
      answer null.
   */
  lemma NullPoll(s: Sys, ret: Ret, r: Ref, sent: nat)
    requires s.worker.pc == Visit(r, Polling(sent)) && r in s.ports
    ensures var p, s' := s.ports[r], Do(s, Work(false, ret));
            && s'.worker.pc == Visit(r, Leaving(OK)) && r in s'.ports && s'.ports[r].state == p.state
            && s'.ports[r].nSdus == if s.policy.allowNull then p.nSdus else 0
  {
  }

  /** A port the scan has not met stays to be met, until it is met or freed. */
  lemma StepKeepsTodo(s: Sys, a: Action, r: Ref)
    requires Linked(s) && Can(s, a) && r in s.ports && r in s.worker.todo && a != WorkerPick(r)
    ensures r in Do(s, a).ports ==> r in Do(s, a).worker.todo
    ensures r in s.used && r in Do(s, a).used
  {
  }

  lemma GoneForGood(s: Sys, a: Action, r: Ref)
    requires Linked(s) && Can(s, a) && r in s.used && r !in s.ports
    ensures r in Do(s, a).used && r !in Do(s, a).ports
  {
  }

  lemma {:induction false} RunStaysGone(s: Sys, run: seq<Action>, r: Ref)
    requires Linked(s) && Runs(s, run) && r in s.used && r !in s.ports
    ensures r !in After(s, run).ports
    decreases |run|
  {
    hide Linked, Can, Do;
    if run != [] {
      GoneForGood(s, run[0], r);
      StepKeepsLinked(s, run[0]);
      RunStaysGone(Do(s, run[0]), run[1..], r);
    }
  }

  /** The scan meets every port that is there all the while: a port to be met is still to be met
      until the scan picks it.
   */
  lemma {:induction false} ScanMeets(s: Sys, run: seq<Action>, r: Ref)
    requires Linked(s) && Runs(s, run) && r in s.ports && r in s.worker.todo
    requires r in After(s, run).ports && r !in After(s, run).worker.todo
    ensures WorkerPick(r) in run
    decreases |run|
  {
    hide Linked, Can, Do;
    if run != [] && run[0] != WorkerPick(r) {
      StepKeepsTodo(s, run[0], r);
      StepKeepsLinked(s, run[0]);
      if r !in Do(s, run[0]).ports { RunStaysGone(Do(s, run[0]), run[1..], r); }
      ScanMeets(Do(s, run[0]), run[1..], r);
    }
  }

  /** So from its start to its end a run of the tasklet picks every port that stays bound. */
  lemma {:induction false} TaskletMeetsAll(s: Sys, run: seq<Action>, r: Ref)
    requires Linked(s) && Can(s, WorkerStart) && Runs(Do(s, WorkerStart), run) && r in s.ports
    requires Can(After(Do(s, WorkerStart), run), WorkerEnd) && r in After(Do(s, WorkerStart), run).ports
    ensures WorkerPick(r) in run
  {
    StepKeepsLinked(s, WorkerStart);
    ScanMeets(Do(s, WorkerStart), run, r);
  }

  /** A port bound while a scan runs is met by that scan exactly when the scan will come by it. */
  lemma {:induction false} BoundIsMet(s: Sys, r: Ref, seen: bool, run: seq<Action>)
    requires Linked(s) && Can(s, Bind(r, seen)) && !s.worker.pc.Idle? && Runs(Do(s, Bind(r, seen)), run)
    ensures r in Do(s, Bind(r, seen)).worker.todo <==> seen
    ensures var s' := After(Do(s, Bind(r, seen)), run);
            seen && r in s'.ports && r !in s'.worker.todo ==> WorkerPick(r) in run
  {
    StepKeepsLinked(s, Bind(r, seen));
    var s1 := Do(s, Bind(r, seen));
    assert r in s1.worker.todo <==> seen;
    hide Linked, Can, Do;
    if seen && r in After(s1, run).ports && r !in After(s1, run).worker.todo { ScanMeets(s1, run, r); }
  }
}
