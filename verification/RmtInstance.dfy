/** The RMT instance on the heap: port objects and a table of them, updated in place. A method
    here is what one thread does between taking and releasing a lock, and `SendWorker` is the
    tasklet itself, with the steps of all other threads in between. Every run of it is a run of
    the state machine.
 */
module RmtInstance {
  import opened Rmt
  import opened RmtSafety

  class N1Port {
    var state: PortState
    var nSdus: int
    var pendingOps: int
    var refused: int
    var returned: int
    var forgotten: int

    constructor ()
      ensures Value() == Port(ENABLED, 0, 0, 0, 0, 0)
    {
      state, nSdus, pendingOps, refused, returned, forgotten := ENABLED, 0, 0, 0, 0, 0;
    }

    function Value(): Port
      reads this
    {
      Port(state, nSdus, pendingOps, refused, returned, forgotten)
    }

    method Enqueue(accept: bool)
      modifies this
      ensures Value() == if accept then old(Value()).(nSdus := old(nSdus) + 1)
              else old(Value()).(refused := old(refused) + 1)
    {
      if accept { nSdus := nSdus + 1; } else { refused := refused + 1; }
    }

    /** EAGAIN: disables the port and, if the policy can, puts the PDU back. */
    method Requeue(policy: Policy)
      modifies this
      ensures Value() == PutBack(policy, old(Value()))
    {
      state := DISABLED;
      if policy.canRequeue {
        nSdus := nSdus + 1;
        returned := returned + 1;
      }
    }

    /** Takes a PDU from the count; without one, a policy that should have had it loses the count. */
    method Dequeue(policy: Policy, got: bool)
      modifies this
      ensures Value() == Visited(policy, old(Value()), Polling(0), got, OK).p
    {
      if got {
        nSdus := nSdus - 1;
      } else if !policy.allowNull {
        forgotten := forgotten + nSdus;
        nSdus := 0;
      }
    }
  }

  class Instance {
    const policy: Policy
    var ports: map<Ref, N1Port>
    var scheduled: bool
    /** References given out, and where every calling thread and the worker are. */
    var used: set<Ref>
    var threads: map<Tid, Thread>
    var worker: Worker
    /** What was done so far, from the state at the beginning. */
    ghost var start: Sys
    ghost var trace: seq<Action>

    constructor (policy: Policy)
      ensures Valid() && Traced() && State().policy == policy && ports == map[] && trace == []
    {
      this.policy := policy;
      ports, scheduled, used, threads, worker := map[], false, {}, map[], Worker(Idle, {}, 0);
      start, trace := Sys(policy, map[], {}, map[], Worker(Idle, {}, 0), false), [];
      new;
      assert State() == start;
    }

    /** No port object is in the table twice. */
    ghost predicate Valid()
      reads `ports
    {
      forall r, q :: r in ports && q in ports && ports[r] == ports[q] ==> r == q
    }

    function Objects(): set<N1Port>
      reads `ports
    {
      set r | r in ports :: ports[r]
    }

    function State(): Sys
      reads `ports, `scheduled, `used, `threads, `worker, Objects()
    {
      Sys(policy, map r | r in ports :: ports[r].Value(), used, threads, worker, scheduled)
    }

    /** What was done is a run of the state machine, from no ports to this state. */
    ghost predicate Traced()
      reads this, Objects()
    {
      Init(start) && Runs(start, trace) && State() == After(start, trace)
    }

    /** The table holds no other old objects than before, and the run goes on from where it was. */
    twostate predicate Grown()
      reads `ports, `trace
    {
      old(trace) <= trace && forall o :: o in Objects() ==> o in old(Objects()) || fresh(o)
    }

    /** Writes down the step just done. */
    ghost method Log(a: Action)
      requires Init(start) && Runs(start, trace) && Can(After(start, trace), a)
      requires State() == Do(After(start, trace), a)
      modifies `trace
      ensures Traced() && trace == old(trace) + [a]
    {
      Extend(start, trace, a);
      trace := trace + [a];
    }

    /** Unlinks the port. */
    method Free(r: Ref)
      requires Valid()
      modifies `ports, `worker
      ensures Valid() && Grown() && State() == Destroy(old(State()), r)
    {
      ports := ports - {r};
      worker := worker.(todo := worker.todo - {r});
      assert State().ports == old(State()).ports - {r};
    }

    // ---------- other threads ----------

    /** Only the port of one reference has changed. */
    twostate lemma Updated(r: Ref)
      requires Valid() && ports == old(ports) && r in ports
      requires forall q :: q in ports && q != r ==> unchanged(ports[q])
      ensures State().ports == old(State()).ports[r := ports[r].Value()]
    {
    }

    lemma Allocated()
      ensures forall r :: r in ports ==> allocated(ports[r])
    {
    }

    /** Enters a port object that is not in the table. */
    method Link(r: Ref, p: N1Port)
      requires Valid() && r !in ports && forall q :: q in ports ==> ports[q] != p
      modifies `ports
      ensures ports == old(ports)[r := p]
      ensures Valid() && State() == Put(old(State()), r, p.Value())
    {
      ports := ports[r := p];
      assert State().ports == old(State()).ports[r := p.Value()];
    }

    method Bind(r: Ref, seen: bool)
      requires Valid() && r !in ports
      modifies `ports, `used, `worker
      ensures Valid() && Grown() && State() == BindPort(old(State()), r, seen)
    {
      hide Valid;
      Allocated();
      var p := new N1Port();
      assert Valid() && State() == old(State());
      Link(r, p);
      Record(r, seen);
    }

    method Record(r: Ref, seen: bool)
      modifies `used, `worker
      ensures State().ports == old(State().ports)
      ensures used == old(used) + {r}
      ensures worker == if seen && !old(worker).pc.Idle? then old(worker).(todo := old(worker).todo + {r})
              else old(worker)
    {
      used := used + {r};
      if seen && !worker.pc.Idle? { worker := worker.(todo := worker.todo + {r}); }
    }

    method Unbind(r: Ref)
      requires Valid() && r in ports
      modifies `ports, `worker, ports[r]
      ensures Valid() && Grown() && State() == UnbindPort(old(State()), r)
    {
      ports[r].state := DEALLOCATED;
      Updated(r);
      if ports[r].pendingOps == 0 {
        Free(r);
        assert State().ports == old(State()).ports - {r};
      }
    }

    /** The lookup of enable and disable, under the table lock. */
    method Switch(t: Tid, r: Ref, on: bool)
      requires Valid() && r in ports
      modifies `threads
      ensures Valid() && Grown() && State() == SwitchPort(old(State()), t, r, on)
    {
      if ports[r].state != DEALLOCATED {
        threads := threads[t := Thread(r, if on then Enabling else Disabling)];
      }
    }

    /** The lookup of a sender, under the table lock. */
    method Send(t: Tid, r: Ref)
      requires Valid() && r in ports
      modifies `threads, ports[r]
      ensures Valid() && Grown() && State() == SendPdu(old(State()), t, r)
    {
      if ports[r].state == DEALLOCATED { return; }
      ports[r].pendingOps := ports[r].pendingOps + 1;
      threads := threads[t := Thread(r, Queueing)];
      Updated(r);
    }

    /** The last one to leave pending_ops frees a deallocated port. */
    method LeaveOps(r: Ref) returns (freed: bool)
      requires Valid() && r in ports
      modifies `ports, `worker, ports[r]
      ensures Valid() && Grown() && freed == Frees(old(State()).ports[r])
      ensures State() == if freed then Destroy(old(State()), r) else Put(old(State()), r, Leave(old(State()).ports[r]))
    {
      ports[r].pendingOps := ports[r].pendingOps - 1;
      Updated(r);
      freed := ports[r].pendingOps == 0 && ports[r].state == DEALLOCATED;
      if freed {
        Free(r);
        assert State().ports == old(State()).ports - {r};
      }
    }

    lemma CheckStep(s: Sys, t: Tid, r: Ref, accept: bool)
      requires t in s.threads && s.threads[t] == Thread(r, Queueing) && r in s.ports
      ensures var p, gone := s.ports[r], s.(threads := s.threads - {t});
              ThreadStep(s, t, accept, OK) ==
              if !Queues(p) then Put(s.(threads := s.threads[t := Thread(r, Writing)]), r, p)
              else Put(gone, r, if accept then p.(nSdus := p.nSdus + 1) else p.(refused := p.refused + 1))
    {
    }

    lemma FinishStep(s: Sys, t: Tid, r: Ref)
      requires t in s.threads && s.threads[t] == Thread(r, Finishing) && r in s.ports
      ensures var p, gone := s.ports[r], s.(threads := s.threads - {t});
              ThreadStep(s, t, true, OK) == if Frees(p) then Destroy(gone, r) else Put(gone, r, Leave(p))
    {
    }

    /** Under the port lock: a busy or disabled port queues the PDU, otherwise the sender is to
        write it itself.
     */
    method CheckPort(t: Tid, r: Ref, accept: bool)
      requires Valid() && t in threads && threads[t] == Thread(r, Queueing) && r in ports
      modifies `threads, ports[r]
      ensures Valid() && ports == old(ports) && State() == ThreadStep(old(State()), t, accept, OK)
    {
      hide ThreadStep;
      CheckStep(State(), t, r, accept);
      if ports[r].nSdus > 0 || ports[r].state == DISABLED {
        ports[r].Enqueue(accept);
        threads := threads - {t};
      } else {
        threads := threads[t := Thread(r, Writing)];
      }
      Updated(r);
    }

    /** The direct write, without a lock. */
    method WritePdu(t: Tid, r: Ref, ret: Ret)
      requires Valid() && t in threads && threads[t] == Thread(r, Writing) && r in ports
      modifies `threads
      ensures Valid() && ports == old(ports) && State() == ThreadStep(old(State()), t, true, ret)
    {
      threads := threads[t := Thread(r, if ret == EAGAIN then Returning else Finishing)];
      Updated(r);
    }

    method ReturnPdu(t: Tid, r: Ref)
      requires Valid() && t in threads && threads[t] == Thread(r, Returning) && r in ports
      modifies `threads, ports[r]
      ensures Valid() && ports == old(ports) && State() == ThreadStep(old(State()), t, true, OK)
    {
      ports[r].Requeue(policy);
      threads := threads[t := Thread(r, Finishing)];
      Updated(r);
    }

    method FinishWrite(t: Tid, r: Ref)
      requires Valid() && t in threads && threads[t] == Thread(r, Finishing) && r in ports
      modifies `ports, `threads, `worker, ports[r]
      ensures Valid() && Grown() && State() == ThreadStep(old(State()), t, true, OK)
    {
      hide ThreadStep, Frees, Leave, Valid;
      FinishStep(State(), t, r);
      threads := threads - {t};
      assert State().ports == old(State()).ports;
      var _ := LeaveOps(r);
    }

    method Enable(t: Tid, r: Ref)
      requires Valid() && t in threads && threads[t] == Thread(r, Enabling) && r in ports
      modifies `threads, `scheduled, ports[r]
      ensures Valid() && ports == old(ports) && State() == ThreadStep(old(State()), t, true, OK)
    {
      if ports[r].state == DISABLED {
        ports[r].state := ENABLED;
        if ports[r].nSdus > 0 { scheduled := true; }
      }
      threads := threads - {t};
      Updated(r);
    }

    method Disable(t: Tid, r: Ref)
      requires Valid() && t in threads && threads[t] == Thread(r, Disabling) && r in ports
      modifies `threads, ports[r]
      ensures Valid() && ports == old(ports) && State() == ThreadStep(old(State()), t, true, OK)
    {
      ports[r].state := DISABLED;
      threads := threads - {t};
      Updated(r);
    }

    /** The answers that a thread's section does not ask for do not matter. */
    lemma Unasked(s: Sys, t: Tid, accept: bool, ret: Ret)
      requires t in s.threads
      ensures !s.threads[t].at.Queueing? ==> ThreadStep(s, t, accept, ret) == ThreadStep(s, t, true, ret)
      ensures !s.threads[t].at.Writing? ==> ThreadStep(s, t, accept, ret) == ThreadStep(s, t, accept, OK)
    {
    }

    /** The next section of a calling thread. */
    method Step(t: Tid, accept: bool, ret: Ret)
      requires Valid() && t in threads
      modifies `ports, `threads, `worker, `scheduled, Objects()
      ensures Valid() && Grown() && State() == ThreadStep(old(State()), t, accept, ret)
    {
      hide Valid, ThreadStep;
      Unasked(State(), t, accept, ret);
      Unasked(State(), t, true, ret);
      var r := threads[t].r;
      if r !in ports {
        Vanished(t, accept, ret);
        return;
      }
      match threads[t].at
      case Queueing => CheckPort(t, r, accept);
      case Writing => WritePdu(t, r, ret);
      case Returning => ReturnPdu(t, r);
      case Finishing => FinishWrite(t, r);
      case Enabling => Enable(t, r);
      case Disabling => Disable(t, r);
    }

    /** The thread's port was freed under it. */
    method Vanished(t: Tid, accept: bool, ret: Ret)
      requires Valid() && t in threads && threads[t].r !in ports
      modifies `threads
      ensures Valid() && State() == ThreadStep(old(State()), t, accept, ret)
    {
      threads := threads - {t};
    }

    /** What every run keeps holds of the instance. */
    lemma Known()
      requires Traced()
      ensures NoLostWakeup(State()) && Accounted(State()) && PollsOpen(State()) && DeadArePending(State())
    {
      hide Init, NoLostWakeup, Stocked, Balanced, PollsOpen, DeadArePending, Can, Do;
      InitAccounted(start);
      RunKeepsAccounted(start, trace);
      RunKeepsWakeup(start, trace);
      RunKeepsGuards(start, trace);
    }

    /** The section of another thread that the step stands for. */
    method Section(a: Action)
      requires Valid() && Linked(State()) && Can(State(), a) && !ByWorker(a)
      modifies `ports, `used, `threads, `worker, `scheduled, Objects()
      ensures Valid() && Grown() && State() == Do(old(State()), a)
    {
      hide Valid, BindPort, UnbindPort, SwitchPort, SendPdu, ThreadStep;
      match a
      case Bind(r, seen) => Bind(r, seen);
      case Unbind(r) => Unbind(r);
      case Switch(t, r, on) => Switch(t, r, on);
      case Send(t, r) => Send(t, r);
      case Step(t, accept, ret) => Step(t, accept, ret);
    }

    /** One step of another thread. */
    method Perform(a: Action)
      requires Valid() && Traced() && Can(State(), a) && !ByWorker(a)
      modifies `ports, `used, `threads, `worker, `scheduled, `trace, Objects()
      ensures Valid() && Traced() && Grown() && trace == old(trace) + [a]
      ensures worker.pc == old(worker).pc && worker.reschedule == old(worker).reschedule
    {
      Known();
      OthersKeepPc(State(), a);
      hide Valid, Do, Can, Init, Runs, After, Grown;
      Section(a);
      Log(a);
    }

    // ---------- the tasklet ----------

    /** What the other threads do before the tasklet goes on; steps they cannot take are skipped. */
    method Others(turn: Turn)
      requires Valid() && Traced()
      modifies `ports, `used, `threads, `worker, `scheduled, `trace, Objects()
      ensures Valid() && Traced() && Grown()
      ensures worker.pc == old(worker).pc && worker.reschedule == old(worker).reschedule
      ensures turn.others == [] ==> worker.todo == old(worker).todo
    {
      hide Valid, Traced, Can, Do;
      var k := 0;
      while k < |turn.others|
        invariant k <= |turn.others| && Valid() && Traced() && Grown()
        invariant worker.pc == old(worker).pc && worker.reschedule == old(worker).reschedule
        invariant turn.others == [] ==> worker.todo == old(worker).todo
      {
        if !ByWorker(turn.others[k]) && Can(State(), turn.others[k]) {
          Perform(turn.others[k]);
        }
        k := k + 1;
      }
    }

    /** The worker's place; only it moves. */
    method Goto(pc: Pc)
      requires Valid()
      modifies `worker
      ensures Valid() && worker == old(worker).(pc := pc)
      ensures State() == old(State()).(worker := worker)
    {
      worker := worker.(pc := pc);
    }

    /** The port was freed under the worker. */
    method Lost(r: Ref)
      requires Valid() && worker.pc.Visit? && worker.pc.r == r && r !in ports
      modifies `worker
      ensures Valid() && worker == old(worker).(pc := Scanning)
      ensures State() == VisitStep(old(State()), false, OK)
    {
      Goto(Scanning);
    }

    method EnterPort(r: Ref) returns (go: bool)
      requires Valid() && worker.pc == Visit(r, Entering) && r in ports
      modifies `worker
      ensures Valid() && worker == old(worker).(pc := if go then Visit(r, Polling(0)) else Scanning)
      ensures State() == VisitStep(old(State()), false, OK)
    {
      go := !(ports[r].state == DISABLED || ports[r].nSdus == 0);
      Goto(if go then Visit(r, Polling(0)) else Scanning);
      Updated(r);
    }

    method PollPort(r: Ref, sent: nat, got: bool)
      requires Valid() && worker.pc == Visit(r, Polling(sent)) && r in ports
      modifies `worker, ports[r]
      ensures Valid() && ports == old(ports)
      ensures worker == old(worker).(pc := Visit(r, if got then Sending(sent) else Leaving(OK)))
      ensures State() == VisitStep(old(State()), got, OK)
    {
      ports[r].Dequeue(policy, got);
      Goto(Visit(r, if got then Sending(sent) else Leaving(OK)));
      Updated(r);
    }

    method WriteOut(r: Ref, sent: nat, ret: Ret)
      requires Valid() && worker.pc == Visit(r, Sending(sent)) && r in ports
      modifies `worker
      ensures Valid()
      ensures worker == old(worker).(pc := Visit(r, if ret == EAGAIN then PuttingBack(sent) else Sent(sent, ret)))
      ensures State() == VisitStep(old(State()), false, ret)
    {
      Goto(Visit(r, if ret == EAGAIN then PuttingBack(sent) else Sent(sent, ret)));
      Updated(r);
    }

    method PutBackPdu(r: Ref, sent: nat) returns (ret: Ret)
      requires Valid() && worker.pc == Visit(r, PuttingBack(sent)) && r in ports
      modifies `worker, ports[r]
      ensures Valid() && ports == old(ports)
      ensures worker == old(worker).(pc := Visit(r, Sent(sent, ret)))
      ensures State() == VisitStep(old(State()), false, OK)
    {
      ports[r].Requeue(policy);
      ret := if policy.canRequeue then EAGAIN else FAIL;
      Goto(Visit(r, Sent(sent, ret)));
      Updated(r);
    }

    /** Leaves pending_ops after the write. */
    method Settle(r: Ref, sent: nat, ret: Ret) returns (freed: bool)
      requires Valid() && worker.pc == Visit(r, Sent(sent, ret)) && r in ports
      modifies `ports, `worker, ports[r]
      ensures Valid() && Grown()
      ensures worker.pc == if freed then Scanning else Visit(r, Judging(sent, ret))
      ensures worker.reschedule == old(worker).reschedule && worker.todo <= old(worker).todo
      ensures State() == VisitStep(old(State()), false, OK)
    {
      freed := LeaveOps(r);
      Goto(if freed then Scanning else Visit(r, Judging(sent, ret)));
    }

    method JudgePort(r: Ref, sent: nat, ret: Ret) returns (again: bool)
      requires Valid() && worker.pc == Visit(r, Judging(sent, ret)) && r in ports
      modifies `worker
      ensures Valid() && (again ==> sent + 1 < MAX_PDUS_SENT_PER_CYCLE)
      ensures worker == old(worker).(pc := Visit(r, if again then Polling(sent + 1) else Leaving(ret)))
      ensures State() == VisitStep(old(State()), false, OK)
    {
      again := ret == OK && sent + 1 < MAX_PDUS_SENT_PER_CYCLE && ports[r].nSdus > 0;
      Goto(Visit(r, if again then Polling(sent + 1) else Leaving(ret)));
      Updated(r);
    }

    method LeavePort(r: Ref, ret: Ret)
      requires Valid() && worker.pc == Visit(r, Leaving(ret)) && r in ports
      modifies `worker, ports[r]
      ensures Valid() && ports == old(ports)
      ensures worker.pc == Scanning && worker.todo == old(worker).todo
      ensures State() == VisitStep(old(State()), false, OK)
    {
      if ret == EAGAIN { ports[r].state := DISABLED; }
      var more := if ports[r].state == ENABLED && ports[r].nSdus > 0 then 1 else 0;
      worker := Worker(Scanning, worker.todo, worker.reschedule + more);
      Updated(r);
    }

    /** A run of turns that is used up shrinks; once none is left, nobody else acts, and the scan
        meets no new port.
     */
    twostate predicate Used(before: seq<Turn>, after: seq<Turn>)
      reads `worker
    {
      |after| < |before| || (|after| == |before| && worker.todo <= old(worker).todo)
    }

    /** The worker's step is done; then the others have their turn. */
    method Pass(turns: seq<Turn>, ghost a: Action) returns (rest: seq<Turn>)
      requires Valid() && Init(start) && Runs(start, trace) && Can(After(start, trace), a)
      requires State() == Do(After(start, trace), a)
      modifies `ports, `used, `threads, `worker, `scheduled, `trace, Objects()
      ensures Valid() && Traced() && Grown() && Used(turns, rest) && old(trace) + [a] <= trace
      ensures worker.pc == old(worker).pc && worker.reschedule == old(worker).reschedule
    {
      hide Valid, Traced, Init, Runs, After, Do, Can;
      Log(a);
      Others(First(turns));
      FirstRest(turns);
      rest := Rest(turns);
    }

    /** The port was freed under the worker: its visit ends. */
    method Miss(r: Ref, turns: seq<Turn>) returns (rest: seq<Turn>)
      requires Valid() && Traced() && worker.pc.Visit? && worker.pc.r == r && r !in ports
      modifies `ports, `used, `threads, `worker, `scheduled, `trace, Objects()
      ensures Valid() && Traced() && Grown() && Used(turns, rest) && worker.pc == Scanning
    {
      hide Valid, Init, Runs, After, VisitStep;
      Lost(r);
      rest := Pass(turns, Work(false, OK));
    }

    /** Asks the policy for a PDU. */
    method Poll(r: Ref, sent: nat, turns: seq<Turn>) returns (rest: seq<Turn>, gone: bool, got: bool)
      requires Valid() && Traced() && worker.pc == Visit(r, Polling(sent))
      modifies `ports, `used, `threads, `worker, `scheduled, `trace, Objects()
      ensures Valid() && Traced() && Grown() && Used(turns, rest)
      ensures worker.pc == if gone then Scanning else Visit(r, if got then Sending(sent) else Leaving(OK))
    {
      hide Valid, Init, Runs, After, VisitStep;
      gone, got := r !in ports, First(turns).got;
      if gone { rest := Miss(r, turns); return; }
      PollPort(r, sent, got);
      rest := Pass(turns, Work(got, OK));
    }

    /** Writes the PDU without a lock, and puts it back when the flow says EAGAIN. */
    method Write(r: Ref, sent: nat, turns: seq<Turn>) returns (rest: seq<Turn>, gone: bool, ret: Ret)
      requires Valid() && Traced() && worker.pc == Visit(r, Sending(sent))
      modifies `ports, `used, `threads, `worker, `scheduled, `trace, Objects()
      ensures Valid() && Traced() && Grown() && Used(turns, rest)
      ensures worker.pc == if gone then Scanning else Visit(r, Sent(sent, ret))
    {
      hide Valid, Init, Runs, After, VisitStep;
      gone, ret := r !in ports, First(turns).ret;
      if gone { rest := Miss(r, turns); return; }
      WriteOut(r, sent, ret);
      rest := Pass(turns, Work(false, ret));
      if ret == EAGAIN { rest, gone, ret := Return(r, sent, rest); }
    }

    method Return(r: Ref, sent: nat, turns: seq<Turn>) returns (rest: seq<Turn>, gone: bool, ret: Ret)
      requires Valid() && Traced() && worker.pc == Visit(r, PuttingBack(sent))
      modifies `ports, `used, `threads, `worker, `scheduled, `trace, Objects()
      ensures Valid() && Traced() && Grown() && Used(turns, rest)
      ensures worker.pc == if gone then Scanning else Visit(r, Sent(sent, ret))
    {
      hide Valid, Init, Runs, After, VisitStep;
      gone, ret := r !in ports, EAGAIN;
      if gone { rest := Miss(r, turns); return; }
      ret := PutBackPdu(r, sent);
      rest := Pass(turns, Work(false, OK));
    }

    /** Leaves pending_ops under both locks. */
    method Finish(r: Ref, sent: nat, ret: Ret, turns: seq<Turn>) returns (rest: seq<Turn>, gone: bool)
      requires Valid() && Traced() && worker.pc == Visit(r, Sent(sent, ret))
      modifies `ports, `used, `threads, `worker, `scheduled, `trace, Objects()
      ensures Valid() && Traced() && Grown() && Used(turns, rest)
      ensures worker.pc == if gone then Scanning else Visit(r, Judging(sent, ret))
    {
      hide Valid, Init, Runs, After, VisitStep;
      gone := r !in ports;
      if gone { rest := Miss(r, turns); return; }
      gone := Settle(r, sent, ret);
      rest := Pass(turns, Work(false, OK));
    }

    method Judge(r: Ref, sent: nat, ret: Ret, turns: seq<Turn>) returns (rest: seq<Turn>, gone: bool, again: bool)
      requires Valid() && Traced() && worker.pc == Visit(r, Judging(sent, ret))
      modifies `ports, `used, `threads, `worker, `scheduled, `trace, Objects()
      ensures Valid() && Traced() && Grown() && Used(turns, rest)
      ensures again ==> sent + 1 < MAX_PDUS_SENT_PER_CYCLE
      ensures worker.pc == if gone then Scanning else Visit(r, if again then Polling(sent + 1) else Leaving(ret))
    {
      hide Valid, Init, Runs, After, VisitStep;
      gone, again := r !in ports, false;
      if gone { rest := Miss(r, turns); return; }
      again := JudgePort(r, sent, ret);
      rest := Pass(turns, Work(false, OK));
    }

    /** The batch of one visit, up to the limit. */
    method Serve(r: Ref, turns: seq<Turn>) returns (rest: seq<Turn>, gone: bool, ret: Ret)
      requires Valid() && Traced() && worker.pc == Visit(r, Polling(0))
      modifies `ports, `used, `threads, `worker, `scheduled, `trace, Objects()
      ensures Valid() && Traced() && Grown() && Used(turns, rest)
      ensures worker.pc == if gone then Scanning else Visit(r, Leaving(ret))
    {
      hide Valid, Traced;
      var sent, got, again := 0, true, true;
      rest, gone, ret := turns, false, OK;
      while again
        invariant Valid() && Traced() && Grown() && Used(turns, rest)
        invariant again ==> worker.pc == Visit(r, Polling(sent)) && sent < MAX_PDUS_SENT_PER_CYCLE
        invariant !again ==> worker.pc == if gone then Scanning else Visit(r, Leaving(ret))
        decreases MAX_PDUS_SENT_PER_CYCLE - sent, again
      {
        again, ret := false, OK;
        rest, gone, got := Poll(r, sent, rest);
        if gone || !got { break; }
        rest, gone, ret := Write(r, sent, rest);
        if gone { break; }
        rest, gone := Finish(r, sent, ret, rest);
        if gone { break; }
        rest, gone, again := Judge(r, sent, ret, rest);
        if gone { again := false; }
        sent := sent + 1;
      }
    }

    method Enter(r: Ref, turns: seq<Turn>) returns (rest: seq<Turn>, go: bool)
      requires Valid() && Traced() && worker.pc == Visit(r, Entering)
      modifies `ports, `used, `threads, `worker, `scheduled, `trace, Objects()
      ensures Valid() && Traced() && Grown() && Used(turns, rest)
      ensures worker.pc == if go then Visit(r, Polling(0)) else Scanning
    {
      hide Valid, Init, Runs, After, VisitStep;
      go := r in ports;
      if !go { rest := Miss(r, turns); return; }
      go := EnterPort(r);
      rest := Pass(turns, Work(false, OK));
    }

    /** Disables the port after EAGAIN and notes whether it needs the tasklet again. */
    method Quit(r: Ref, ret: Ret, turns: seq<Turn>) returns (rest: seq<Turn>)
      requires Valid() && Traced() && worker.pc == Visit(r, Leaving(ret))
      modifies `ports, `used, `threads, `worker, `scheduled, `trace, Objects()
      ensures Valid() && Traced() && Grown() && Used(turns, rest)
      ensures worker.pc == Scanning
    {
      hide Valid, Init, Runs, After, VisitStep;
      if r !in ports { rest := Miss(r, turns); return; }
      LeavePort(r, ret);
      rest := Pass(turns, Work(false, OK));
    }

    /** One port of the scan. */
    method VisitPort(r: Ref, turns: seq<Turn>) returns (rest: seq<Turn>)
      requires Valid() && Traced() && worker.pc == Visit(r, Entering)
      modifies `ports, `used, `threads, `worker, `scheduled, `trace, Objects()
      ensures Valid() && Traced() && Grown() && Used(turns, rest)
      ensures worker.pc == Scanning
    {
      hide Valid, Traced;
      var go, gone, ret;
      rest, go := Enter(r, turns);
      if !go { return; }
      rest, gone, ret := Serve(r, rest);
      if gone { return; }
      rest := Quit(r, ret, rest);
    }

    method StartScan()
      requires Valid() && worker.pc.Idle? && scheduled
      modifies `scheduled, `worker
      ensures Valid() && Can(old(State()), WorkerStart) && State() == Do(old(State()), WorkerStart)
      ensures worker.pc == Scanning
    {
      scheduled := false;
      worker := Worker(Scanning, ports.Keys, 0);
      assert State().ports == old(State()).ports;
    }

    /** Under the table lock: a deallocated port is freed if nothing is pending, any other is to be
        visited.
     */
    method PickPort(r: Ref) returns (go: bool)
      requires Valid() && worker.pc.Scanning? && r in worker.todo && r in ports
      modifies `ports, `worker
      ensures Valid() && Grown() && State() == Do(old(State()), WorkerPick(r))
      ensures worker.pc == (if go then Visit(r, Entering) else Scanning) && worker.todo == old(worker).todo - {r}
    {
      worker := worker.(todo := worker.todo - {r});
      go := ports[r].state != DEALLOCATED;
      assert State().ports == old(State()).ports;
      if go {
        Goto(Visit(r, Entering));
      } else if ports[r].pendingOps == 0 {
        Free(r);
      }
    }

    method EndScan()
      requires Valid() && worker.pc.Scanning? && worker.todo == {}
      modifies `scheduled, `worker
      ensures Valid() && State() == Do(old(State()), WorkerEnd)
      ensures worker.pc == Idle
    {
      if worker.reschedule > 0 { scheduled := true; }
      Goto(Idle);
    }

    /** The tasklet: visits every port of the table once, in any order, with other threads acting
        at every step. When it ends, no enabled port with PDUs is left without a wake-up.
     */
    method SendWorker(turns: seq<Turn>)
      requires Valid() && Traced() && worker.pc.Idle? && scheduled
      modifies `ports, `used, `threads, `worker, `scheduled, `trace, Objects()
      ensures Valid() && Traced() && worker.pc.Idle? && old(trace) + [WorkerStart] <= trace
      ensures forall r :: r in ports && ports[r].state == ENABLED && ports[r].nSdus > 0 ==> scheduled
    {
      hide Valid, Init, Runs, After, VisitStep;
      StartScan();
      var rest := Pass(turns, WorkerStart);
      while worker.todo != {}
        invariant Valid() && Traced() && Grown() && worker.pc == Scanning && old(trace) + [WorkerStart] <= trace
        decreases |rest|, worker.todo
      {
        rest := VisitNext(rest);
      }
      EndScan();
      Log(WorkerEnd);
      Known();
      AtRest();
    }

    method VisitNext(turns: seq<Turn>) returns (rest: seq<Turn>)
      requires Valid() && Traced() && worker.pc == Scanning && worker.todo != {}
      modifies `ports, `used, `threads, `worker, `scheduled, `trace, Objects()
      ensures Valid() && Traced() && Grown() && worker.pc == Scanning
      ensures |rest| < |turns| || (|rest| == |turns| && worker.todo < old(worker).todo)
    {
      hide Valid, Init, Runs, After, VisitStep, NoLostWakeup, Accounted;
      TodoIsLinked();
      var r :| r in worker.todo;
      var go := PickPort(r);
      rest := Pass(turns, WorkerPick(r));
      if go { rest := VisitPort(r, rest); }
    }

    lemma TodoIsLinked()
      requires Traced()
      ensures forall r :: r in worker.todo ==> r in ports
    {
      Known();
      assert State().ports.Keys == ports.Keys;
    }

    lemma AtRest()
      requires NoLostWakeup(State()) && worker.pc.Idle?
      ensures forall r :: r in ports && ports[r].state == ENABLED && ports[r].nSdus > 0 ==> scheduled
    {
      forall r | r in ports && ports[r].state == ENABLED && ports[r].nSdus > 0 ensures scheduled {
        assert State().ports[r] == ports[r].Value();
      }
    }
  }

  /** What happens between two steps of the tasklet: steps of other threads, then the answers of
      the policy and of the flow.
   */
  datatype Turn = Turn(others: seq<Action>, got: bool, ret: Ret)

  function First(turns: seq<Turn>): Turn {
    if turns == [] then Turn([], false, OK) else turns[0]
  }

  function Rest(turns: seq<Turn>): seq<Turn> {
    if turns == [] then [] else turns[1..]
  }

  lemma FirstRest(turns: seq<Turn>)
    ensures |Rest(turns)| < |turns| || (|Rest(turns)| == |turns| && First(turns).others == [])
  {
  }

  predicate ByWorker(a: Action) {
    a.WorkerStart? || a.WorkerPick? || a.Work? || a.WorkerEnd?
  }

  lemma OthersKeepPc(s: Sys, a: Action)
    requires Can(s, a) && !ByWorker(a)
    ensures Do(s, a).worker.pc == s.worker.pc && Do(s, a).worker.reschedule == s.worker.reschedule
  {
  }
}
