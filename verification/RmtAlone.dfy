/** What a call or a visit of the worker comes to when nobody comes in between: the small steps of
    the protocol against one description of the whole.
 */
module RmtAlone {
  import opened Options
  import opened Rmt

  lemma Then(s: Sys, a: Action, run: seq<Action>)
    requires Can(s, a) && Runs(Do(s, a), run)
    ensures Runs(s, [a] + run) && After(s, [a] + run) == After(Do(s, a), run)
  {
    hide Can, Do;
    assert ([a] + run)[1..] == run;
  }

  lemma {:induction false} Both(s: Sys, a: seq<Action>, b: seq<Action>)
    requires Runs(s, a) && Runs(After(s, a), b)
    ensures Runs(s, a + b) && After(s, a + b) == After(After(s, a), b)
    decreases |a|
  {
    hide Can, Do;
    if a == [] {
      assert a + b == b;
    } else {
      assert (a + b)[1..] == a[1..] + b;
      Both(Do(s, a[0]), a[1..], b);
    }
  }

  // ---------- a send ----------

  /** What a send makes of the port: a PDU for a port that is disabled or has PDUs queued goes to
      the policy, and is pending; any other is written, and comes back if the flow says so.
   */
  function Delivered(policy: Policy, p: Port, accept: bool, ret: Ret): Port {
    if p.state == DEALLOCATED then p
    else if p.state == DISABLED || p.nSdus > 0 then
      var q := p.(pendingOps := p.pendingOps + 1);
      if accept then q.(nSdus := p.nSdus + 1) else q.(refused := p.refused + 1)
    else if ret != EAGAIN then p
    else if policy.canRequeue then Port(DISABLED, p.nSdus + 1, p.pendingOps, p.refused, p.returned + 1, p.forgotten)
    else p.(state := DISABLED)
  }

  function SenderOn(s: Sys, t: Tid, r: Ref, p: Port, at: Spot): Sys {
    s.(ports := s.ports[r := p], threads := s.threads[t := Thread(r, at)])
  }

  /** From a place of a thread to its next one. */
  lemma Moves(s: Sys, t: Tid, r: Ref, p: Port, at: Spot, accept: bool, ret: Ret)
    requires (NeedsLock(at) ==> !Holds(s.worker, r)) && t !in s.threads
    ensures var m, a, s' := MoveOn(s.policy, p, at, accept, ret), Step(t, accept, ret), SenderOn(s, t, r, p, at);
            Can(s', a) &&
            (!m.freed && !m.wake ==>
               Do(s', a) == if m.next.None? then Put(s, r, m.p) else SenderOn(s, t, r, m.p, m.next.value))
  {
    hide Holds;
    var m, s' := MoveOn(s.policy, p, at, accept, ret), SenderOn(s, t, r, p, at);
    assert s'.threads - {t} == s.threads;
    assert s'.ports[r := m.p] == s.ports[r := m.p];
    if m.next.Some? { assert s'.threads[t := Thread(r, m.next.value)] == s.threads[t := Thread(r, m.next.value)]; }
    hide MoveOn;
  }

  /** A send on its own. */
  lemma {:induction false} SendAlone(s: Sys, t: Tid, r: Ref, accept: bool, ret: Ret) returns (run: seq<Action>)
    requires Can(s, Send(t, r)) && !Holds(s.worker, r)
    ensures Runs(s, run) && After(s, run) == Put(s, r, Delivered(s.policy, s.ports[r], accept, ret))
  {
    var p, send := s.ports[r], Send(t, r);
    if p.state == DEALLOCATED {
      assert s.ports[r := p] == s.ports;
      run := [send];
      Then(s, send, []);
    } else {
      var q := p.(pendingOps := p.pendingOps + 1);
      assert Do(s, send) == SenderOn(s, t, r, q, Queueing);
      Moves(s, t, r, q, Queueing, accept, OK);
      if p.state == DISABLED || p.nSdus > 0 {
        run := [Step(t, accept, OK)];
      } else {
        var rest := WriteAlone(s, t, r, q, ret);
        run := [Step(t, accept, OK)] + rest;
        if ret != EAGAIN { assert s.ports[r := p] == s.ports; }
      }
      hide MoveOn;
      Then(SenderOn(s, t, r, q, Queueing), Step(t, accept, OK), run[1..]);
      Then(s, send, run);
      run := [send] + run;
    }
  }

  /** A direct write, and the return of the PDU when the flow says EAGAIN. */
  lemma {:induction false} WriteAlone(s: Sys, t: Tid, r: Ref, p: Port, ret: Ret) returns (run: seq<Action>)
    requires t !in s.threads && !Holds(s.worker, r) && p.state == ENABLED
    ensures Runs(SenderOn(s, t, r, p, Writing), run)
    ensures var q := if ret == EAGAIN then PutBack(s.policy, p) else p;
            After(SenderOn(s, t, r, p, Writing), run) == Put(s, r, Leave(q))
  {
    var q := if ret == EAGAIN then PutBack(s.policy, p) else p;
    Moves(s, t, r, p, Writing, true, ret);
    Moves(s, t, r, p, Returning, true, OK);
    Moves(s, t, r, q, Finishing, true, OK);
    Then(SenderOn(s, t, r, q, Finishing), Step(t, true, OK), []);
    run := [Step(t, true, OK)] + [];
    if ret == EAGAIN {
      Then(SenderOn(s, t, r, p, Returning), Step(t, true, OK), run);
      run := [Step(t, true, OK)] + run;
    }
    Then(SenderOn(s, t, r, p, Writing), Step(t, true, ret), run);
    run := [Step(t, true, ret)] + run;
  }

  // ---------- a visit ----------

  function Min(a: int, b: int): int {
    if a < b then a else b
  }

  /** The worker is at a place of its visit, the port as given. */
  function On(s: Sys, r: Ref, p: Port, at: Place): Sys {
    s.(ports := s.ports[r := p], worker := s.worker.(pc := Visit(r, at)))
  }

  /** The worker has left the port, with so much added to `reschedule`. */
  function Off(s: Sys, r: Ref, p: Port, more: nat): Sys {
    s.(ports := s.ports[r := p], worker := Worker(Scanning, s.worker.todo, s.worker.reschedule + more))
  }

  lemma VisitMoves(s: Sys, r: Ref, p: Port, at: Place, got: bool, ret: Ret)
    ensures var e, a, s' := Visited(s.policy, p, at, got, ret), Work(got, ret), On(s, r, p, at);
            Can(s', a) &&
            (!e.freed ==>
               && (e.next.None? ==> Do(s', a) == Off(s, r, e.p, e.more))
               && (e.next.Some? && e.more == 0 ==> Do(s', a) == On(s, r, e.p, e.next.value)))
  {
    var e, s' := Visited(s.policy, p, at, got, ret), On(s, r, p, at);
    assert s'.ports[r := e.p] == s.ports[r := e.p];
    hide Visited;
  }

  /** The port after `n` of its PDUs were taken and written for good. */
  function Served(p: Port, n: nat): Port {
    p.(nSdus := p.nSdus - n, pendingOps := p.pendingOps - n)
  }

  const GOOD: seq<Action> := [Work(true, OK), Work(true, OK), Work(true, OK), Work(true, OK)]

  /** One PDU is taken and written. */
  lemma {:induction false} RoundAlone(s: Sys, r: Ref, p: Port, sent: nat)
    requires p.state == ENABLED && p.nSdus > 0 && sent < MAX_PDUS_SENT_PER_CYCLE
    ensures Runs(On(s, r, p, Polling(sent)), GOOD)
    ensures var again := sent + 1 < MAX_PDUS_SENT_PER_CYCLE && p.nSdus > 1;
            After(On(s, r, p, Polling(sent)), GOOD) ==
            On(s, r, Served(p, 1), if again then Polling(sent + 1) else Leaving(OK))
  {
    var q := p.(nSdus := p.nSdus - 1);
    var a := Work(true, OK);
    VisitMoves(s, r, p, Polling(sent), true, OK);
    VisitMoves(s, r, q, Sending(sent), true, OK);
    VisitMoves(s, r, q, Sent(sent, OK), true, OK);
    VisitMoves(s, r, Served(p, 1), Judging(sent, OK), true, OK);
    hide Can, Do, On;
    Then(On(s, r, Served(p, 1), Judging(sent, OK)), a, []);
    Then(On(s, r, q, Sent(sent, OK)), a, [a] + []);
    Then(On(s, r, q, Sending(sent)), a, [a] + ([a] + []));
    Then(On(s, r, p, Polling(sent)), a, [a] + ([a] + ([a] + [])));
    assert GOOD == [a] + ([a] + ([a] + ([a] + [])));
  }

  /** So many rounds, as long as neither the limit nor the end of the queue is reached. */
  lemma {:induction false} RoundsAlone(s: Sys, r: Ref, p: Port, sent: nat, n: nat) returns (run: seq<Action>)
    requires p.state == ENABLED && n < p.nSdus && sent + n < MAX_PDUS_SENT_PER_CYCLE
    ensures Runs(On(s, r, p, Polling(sent)), run)
    ensures After(On(s, r, p, Polling(sent)), run) == On(s, r, Served(p, n), Polling(sent + n))
    decreases n
  {
    hide Can, Do, On;
    run := [];
    if n > 0 {
      RoundAlone(s, r, p, sent);
      var rest := RoundsAlone(s, r, Served(p, 1), sent + 1, n - 1);
      Both(On(s, r, p, Polling(sent)), GOOD, rest);
      run := GOOD + rest;
    }
  }

  /** From a place on the port to the end of the visit. */
  ghost predicate Ends(s: Sys, r: Ref, p: Port, at: Place, run: seq<Action>, q: Port, more: nat) {
    Runs(On(s, r, p, at), run) && After(On(s, r, p, at), run) == Off(s, r, q, more)
  }

  lemma LeaveAlone(s: Sys, r: Ref, p: Port, said: Ret)
    requires said == EAGAIN ==> p.state == DISABLED
    ensures Ends(s, r, p, Leaving(said), [Work(true, OK)], p, if p.state == ENABLED && p.nSdus > 0 then 1 else 0)
  {
    VisitMoves(s, r, p, Leaving(said), true, OK);
    Then(On(s, r, p, Leaving(said)), Work(true, OK), []);
    assert [Work(true, OK)] + [] == [Work(true, OK)];
  }

  /** The last round of a visit, at the limit or with the last PDU. */
  lemma {:induction false} LastRoundAlone(s: Sys, r: Ref, p: Port, sent: nat)
    requires p.state == ENABLED && p.nSdus > 0 && sent < MAX_PDUS_SENT_PER_CYCLE
    requires sent + 1 == MAX_PDUS_SENT_PER_CYCLE || p.nSdus == 1
    ensures Ends(s, r, p, Polling(sent), GOOD + [Work(true, OK)], Served(p, 1), if p.nSdus > 1 then 1 else 0)
  {
    hide Can, Do, On, Off, GOOD;
    RoundAlone(s, r, p, sent);
    LeaveAlone(s, r, Served(p, 1), OK);
    Both(On(s, r, p, Polling(sent)), GOOD, [Work(true, OK)]);
  }

  /** What a PDU that could not be written makes of the port: with EAGAIN it is back in the queue, if
      the policy can put it there, and the port is disabled.
   */
  function Spoiled(policy: Policy, p: Port, ret: Ret): Port {
    if ret != EAGAIN then Served(p, 1)
    else if policy.canRequeue then p.(state := DISABLED, pendingOps := p.pendingOps - 1, returned := p.returned + 1)
    else Served(p, 1).(state := DISABLED)
  }

  /** One step earlier. */
  lemma EndsFrom(s: Sys, r: Ref, p: Port, at: Place, ret: Ret, run: seq<Action>, q: Port, more: nat)
    requires var e := Visited(s.policy, p, at, true, ret);
             !e.freed && e.next.Some? && e.more == 0 && Ends(s, r, e.p, e.next.value, run, q, more)
    ensures Ends(s, r, p, at, [Work(true, ret)] + run, q, more)
  {
    var e := Visited(s.policy, p, at, true, ret);
    VisitMoves(s, r, p, at, true, ret);
    hide Can, Do, On, Off, Visited;
    Then(On(s, r, p, at), Work(true, ret), run);
  }

  /** After the write of such a PDU the visit ends. */
  lemma {:induction false} QuitAlone(s: Sys, r: Ref, p: Port, sent: nat, said: Ret) returns (run: seq<Action>)
    requires said != OK && p.state != DEALLOCATED && (said == EAGAIN ==> p.state == DISABLED)
    ensures Ends(s, r, p, Sent(sent, said), run, Leave(p), if p.state == ENABLED && p.nSdus > 0 then 1 else 0)
  {
    hide Ends;
    var more := if p.state == ENABLED && p.nSdus > 0 then 1 else 0;
    run := [Work(true, OK)];
    LeaveAlone(s, r, Leave(p), said);
    EndsFrom(s, r, Leave(p), Judging(sent, said), OK, run, Leave(p), more);
    run := [Work(true, OK)] + run;
    EndsFrom(s, r, p, Sent(sent, said), OK, run, Leave(p), more);
    run := [Work(true, OK)] + run;
  }

  /** From the poll that takes it. */
  lemma {:induction false} BadRoundAlone(s: Sys, r: Ref, p: Port, sent: nat, ret: Ret) returns (run: seq<Action>)
    requires p.state == ENABLED && p.nSdus > 0 && ret != OK
    ensures Ends(s, r, p, Polling(sent), run, Spoiled(s.policy, p, ret), if ret == FAIL && p.nSdus > 1 then 1 else 0)
  {
    hide Ends;
    var q, t := p.(nSdus := p.nSdus - 1), Spoiled(s.policy, p, ret);
    var more := if ret == FAIL && p.nSdus > 1 then 1 else 0;
    if ret == EAGAIN {
      var back := PutBack(s.policy, q);
      run := QuitAlone(s, r, back, sent, if s.policy.canRequeue then EAGAIN else FAIL);
      EndsFrom(s, r, q, PuttingBack(sent), OK, run, t, more);
      run := [Work(true, OK)] + run;
    } else {
      run := QuitAlone(s, r, q, sent, FAIL);
    }
    EndsFrom(s, r, q, Sending(sent), ret, run, t, more);
    run := [Work(true, ret)] + run;
    EndsFrom(s, r, p, Polling(sent), OK, run, t, more);
    run := [Work(true, OK)] + run;
  }

  /** A whole visit, from where the worker picks the port. */
  ghost predicate Visits(s: Sys, r: Ref, run: seq<Action>, q: Port, more: nat) {
    Runs(s, run) && After(s, run) == Off(s.(worker := s.worker.(todo := s.worker.todo - {r})), r, q, more)
  }

  lemma {:induction false} EnterAlone(s: Sys, r: Ref, p: Port, rest: seq<Action>, q: Port, more: nat)
    returns (run: seq<Action>)
    requires Can(s, WorkerPick(r)) && r in s.ports && p == s.ports[r] && p.state == ENABLED && p.nSdus > 0
    requires Ends(s.(worker := s.worker.(todo := s.worker.todo - {r})), r, p, Polling(0), rest, q, more)
    ensures Visits(s, r, run, q, more)
  {
    var s0 := s.(worker := s.worker.(todo := s.worker.todo - {r}));
    assert s0.ports[r := p] == s0.ports;
    VisitMoves(s0, r, p, Entering, true, OK);
    Then(On(s0, r, p, Entering), Work(true, OK), rest);
    Then(s, WorkerPick(r), [Work(true, OK)] + rest);
    run := [WorkerPick(r)] + ([Work(true, OK)] + rest);
  }

  /** A visit on its own, with good writes only, takes the lesser of 10 and all PDUs off an enabled
      port, and has the tasklet rescheduled exactly for what it leaves.
   */
  lemma {:induction false} VisitAlone(s: Sys, r: Ref) returns (run: seq<Action>)
    requires Can(s, WorkerPick(r)) && r in s.ports && s.ports[r].state == ENABLED && s.ports[r].nSdus > 0
    ensures var p := s.ports[r];
            Visits(s, r, run, Served(p, Min(p.nSdus, 10)), if p.nSdus > 10 then 1 else 0)
  {
    var p, s0 := s.ports[r], s.(worker := s.worker.(todo := s.worker.todo - {r}));
    hide Can, Do, On, Off, GOOD;
    var n := Min(p.nSdus, 10) - 1;
    var q := Served(p, n);
    run := RoundsAlone(s0, r, p, 0, n);
    LastRoundAlone(s0, r, q, n);
    Both(On(s0, r, p, Polling(0)), run, GOOD + [Work(true, OK)]);
    run := EnterAlone(s, r, p, run + (GOOD + [Work(true, OK)]), Served(q, 1), if p.nSdus > 10 then 1 else 0);
  }

  /** A visit on its own whose write after `n` good ones is not good takes those and ends there; a PDU
      that came back with EAGAIN leaves the port disabled.
   */
  lemma {:induction false} BadVisitAlone(s: Sys, r: Ref, n: nat, ret: Ret) returns (run: seq<Action>)
    requires Can(s, WorkerPick(r)) && r in s.ports && s.ports[r].state == ENABLED
    requires n < s.ports[r].nSdus && n < 10 && ret != OK
    ensures var p := s.ports[r];
            Visits(s, r, run, Spoiled(s.policy, Served(p, n), ret), if ret == FAIL && p.nSdus > n + 1 then 1 else 0)
  {
    var p, s0 := s.ports[r], s.(worker := s.worker.(todo := s.worker.todo - {r}));
    run := RoundsAlone(s0, r, p, 0, n);
    var rest := BadRoundAlone(s0, r, Served(p, n), n, ret);
    hide Can, Do, On, Off;
    Both(On(s0, r, p, Polling(0)), run, rest);
    run := EnterAlone(s, r, p, run + rest, Spoiled(s.policy, Served(p, n), ret),
                      if ret == FAIL && p.nSdus > n + 1 then 1 else 0);
  }

  /** A visit that meets a disabled port, or an empty one, changes nothing. */
  lemma {:induction false} NothingToVisit(s: Sys, r: Ref)
    requires Can(s, WorkerPick(r)) && r in s.ports && s.ports[r].state != DEALLOCATED
    requires s.ports[r].state == DISABLED || s.ports[r].nSdus == 0
    ensures Runs(s, [WorkerPick(r), Work(true, OK)])
    ensures After(s, [WorkerPick(r), Work(true, OK)]) == s.(worker := s.worker.(todo := s.worker.todo - {r}))
  {
    var s0 := s.(worker := s.worker.(todo := s.worker.todo - {r}));
    assert s0.ports[r := s.ports[r]] == s0.ports;
    VisitMoves(s0, r, s.ports[r], Entering, true, OK);
    Then(On(s0, r, s.ports[r], Entering), Work(true, OK), []);
    Then(s, WorkerPick(r), [Work(true, OK)] + []);
    assert [WorkerPick(r)] + ([Work(true, OK)] + []) == [WorkerPick(r), Work(true, OK)];
  }
}
