/** What the send log of a limited class holds: on runs without requeues, exactly the sends that
    have not expired, so that a class is held back only for bytes it did send in the last burst
    time.
 */
module DeltaQLog {
  import opened DeltaQSpec
  import opened DeltaQLedger
  import opened DeltaQOrder
  import opened DeltaQRate

  /** The operation scans class `k` of port `i`: a dequeue on the port while the class has a PDU. */
  predicate Scans(ps: seq<Port>, op: Op, i: nat, k: nat) {
    op.Deq? && i < |ps| && k < |ps[i].classes| && FindPort(ps, op.port) == i && ps[i].classes[k].queue != []
  }

  /** The time of the last scan of the class, or `t` before the first. */
  function LastScan(ps: seq<Port>, ops: seq<Op>, i: nat, k: nat, t: int): int
    requires Runs(ps, ops)
    decreases |ops|
  {
    if ops == [] then t
    else LastScan(Step(ps, ops[0]), ops[1..], i, k, if Scans(ps, ops[0], i, k) then ops[0].now else t)
  }

  /** The log is what a scan at `t` leaves of the sends `h`. */
  ghost predicate LogsTail(c: Class, h: seq<Send>, t: int, now: int) {
    && t <= now && InTimeOrder(h) && (forall j :: 0 <= j < |h| ==> h[j].time <= now)
    && c.log == Since(h, t - c.params.oBurstT)
  }

  lemma {:induction false} TouchLogs(c: Class, now: int)
    requires c.params.limitOut && InTimeOrder(c.log)
    ensures Touch(c, now).params == c.params && Touch(c, now).queue == c.queue
    ensures Touch(c, now).log == if c.queue != [] then Since(c.log, now - c.params.oBurstT) else c.log
  {
    hide Expire, Since, Cut, InTimeOrder;
    ExpireCuts(c, now - c.params.oBurstT);
    CutIsSince(c.log, now - c.params.oBurstT);
  }

  lemma TakeLogs(c: Class, now: int)
    requires c.params.limitOut && c.queue != [] && c.wtimes != []
    ensures Take(c, now).params == c.params && Take(c, now).log == c.log + [Send(c.queue[0].size, now)]
  {
  }

  lemma EligibleHasPdu(c: Class)
    requires Eligible(c)
    ensures c.queue != []
  {
  }

  /** What a dequeue makes of one class. */
  lemma {:induction false} DequeueClass(port: Port, now: int, k: nat)
    requires AllPaired(port) && k < |port.classes|
    ensures |Dequeue(port, now).classes| == |port.classes|
    ensures var t, d := Touch(port.classes[k], now), Dequeue(port, now).classes[k];
            if Chosen(port, now) == k then Eligible(t) && t.wtimes != [] && d == Take(t, now) else d == t
  {
    hide Dequeue, Chosen, Touch, Take, Eligible, AllPaired;
    DequeueIs(port, now);
  }

  /** What it does to the log of a limited class. */
  lemma {:induction false} DequeueLogs(port: Port, now: int, k: nat)
    requires AllPaired(port) && k < |port.classes| && port.classes[k].params.limitOut
    requires InTimeOrder(port.classes[k].log)
    ensures |Dequeue(port, now).classes| == |port.classes|
    ensures var c, d := port.classes[k], Dequeue(port, now).classes[k];
            && d.params == c.params && (Chosen(port, now) == k ==> c.queue != [])
            && d.log == (if c.queue != [] then Since(c.log, now - c.params.oBurstT) else c.log)
               + (if Chosen(port, now) == k then [Send(c.queue[0].size, now)] else [])
  {
    hide *;
    DequeueClass(port, now, k);
    TouchLogs(port.classes[k], now);
    var t := Touch(port.classes[k], now);
    if Chosen(port, now) == k {
      EligibleHasPdu(t);
      TakeLogs(t, now);
    } else {
      assert t.log + [] == t.log;
    }
  }

  /** A dequeue on the port is a dequeue; nothing else but a requeue touches a log. */
  lemma StepIs(ps: seq<Port>, op: Op, i: nat, k: nat)
    requires Enabled(ps, op) && !op.Req? && i < |ps| && k < |ps[i].classes|
    ensures var here, qs := op.Deq? && FindPort(ps, op.port) == i, Step(ps, op);
            && AllPaired(ps[i])
            && (here ==> qs[i] == Dequeue(ps[i], op.now))
            && (!here ==> |qs[i].classes| == |ps[i].classes|
                          && qs[i].classes[k].log == ps[i].classes[k].log
                          && qs[i].classes[k].params == ps[i].classes[k].params)
  {
    hide Dequeue;
  }

  /** What an operation other than a requeue does to a limited class. */
  lemma {:induction false} StepLogs(ps: seq<Port>, op: Op, i: nat, k: nat)
    requires Enabled(ps, op) && !op.Req? && i < |ps| && k < |ps[i].classes| && ps[i].classes[k].params.limitOut
    requires InTimeOrder(ps[i].classes[k].log)
    ensures |Step(ps, op)[i].classes| == |ps[i].classes|
    ensures var c, d := ps[i].classes[k], Step(ps, op)[i].classes[k];
            && d.params == c.params
            && d.log == (if Scans(ps, op, i, k) then Since(c.log, op.now - c.params.oBurstT) else c.log)
               + SentBy(ps, op, i, k)
  {
    hide Step, Enabled, PairedPorts, AllPaired, Faults, Dequeue, Chosen, Since, InTimeOrder;
    StepIs(ps, op, i, k);
    if op.Deq? && FindPort(ps, op.port) == i {
      DequeueLogs(ps[i], op.now, k);
    } else {
      assert ps[i].classes[k].log + [] == ps[i].classes[k].log;
    }
    hide FindPort;
  }

  lemma LogInOrder(ps: seq<Port>, now: int, i: nat, k: nat)
    requires Inv(ps, now) && i < |ps| && k < |ps[i].classes|
    ensures InTimeOrder(ps[i].classes[k].log)
  {
    assert PortInv(ps[i], now);
    assert ClassInv(ps[i].classes[k], now);
  }

  /** A class sends only when it is scanned, and once. */
  lemma SentScans(ps: seq<Port>, op: Op, i: nat, k: nat)
    requires Enabled(ps, op)
    ensures var sent := SentBy(ps, op, i, k);
            sent == [] || (op.Deq? && Scans(ps, op, i, k) && |sent| == 1 && sent[0].time == op.now)
  {
    hide PairedPorts, Faults, Chosen;
  }

  lemma {:induction false} LogsTailOnward(c: Class, d: Class, h: seq<Send>, t: int, now: int, t': int,
      sent: seq<Send>, scanned: bool)
    requires LogsTail(c, h, t, now) && now <= t' && c.params.oBurstT >= 0 && d.params == c.params
    requires sent == [] || (scanned && |sent| == 1 && sent[0].time == t')
    requires d.log == (if scanned then Since(c.log, t' - c.params.oBurstT) else c.log) + sent
    ensures LogsTail(d, h + sent, if scanned then t' else t, t')
  {
    hide Since, InTimeOrder;
    var limit := t' - c.params.oBurstT;
    InOrderOnward(h, now, t', sent);
    SinceSince(h, t - c.params.oBurstT, limit);
    SinceAppend(h, sent, limit);
    SinceAll(sent, limit);
    if sent == [] { assert h + sent == h && c.log + sent == c.log; }
  }

  lemma InOrderOnward(h: seq<Send>, now: int, t': int, sent: seq<Send>)
    requires InTimeOrder(h) && (forall j :: 0 <= j < |h| ==> h[j].time <= now) && now <= t'
    requires sent == [] || (|sent| == 1 && sent[0].time == t')
    ensures InTimeOrder(h + sent) && forall j :: 0 <= j < |h + sent| ==> (h + sent)[j].time <= t'
  {
  }

  lemma {:induction false} StepKeepsTail(ps: seq<Port>, op: Op, i: nat, k: nat, h: seq<Send>, t: int, now: int)
    requires Inv(ps, now) && Enabled(ps, op) && !op.Req? && now <= op.now && i < |ps| && k < |ps[i].classes|
    requires ps[i].classes[k].params.limitOut && ps[i].classes[k].params.oBurstT >= 0
    requires LogsTail(ps[i].classes[k], h, t, now)
    ensures |Step(ps, op)[i].classes| == |ps[i].classes|
    ensures Step(ps, op)[i].classes[k].params == ps[i].classes[k].params
    ensures LogsTail(Step(ps, op)[i].classes[k], h + SentBy(ps, op, i, k), if Scans(ps, op, i, k) then op.now else t,
                     op.now)
  {
    hide Step, Inv, PairedPorts, Faults, LogsTail, SentBy, Scans, Since, InTimeOrder;
    LogInOrder(ps, now, i, k);
    StepLogs(ps, op, i, k);
    SentScans(ps, op, i, k);
    var c, d, sent := ps[i].classes[k], Step(ps, op)[i].classes[k], SentBy(ps, op, i, k);
    LogsTailOnward(c, d, h, t, now, op.now, sent, Scans(ps, op, i, k));
  }

  lemma {:induction false} RunKeepsTail(ps: seq<Port>, ops: seq<Op>, i: nat, k: nat, h: seq<Send>, t: int, now: int)
    returns (now': int)
    requires Inv(ps, now) && Runs(ps, ops) && Clocked(now, ops) && NoRequeue(ops) && i < |ps| && k < |ps[i].classes|
    requires ps[i].classes[k].params.limitOut && ps[i].classes[k].params.oBurstT >= 0
    requires LogsTail(ps[i].classes[k], h, t, now)
    ensures |Run(ps, ops)[i].classes| == |ps[i].classes|
    ensures Run(ps, ops)[i].classes[k].params == ps[i].classes[k].params
    ensures Inv(Run(ps, ops), now')
    ensures LogsTail(Run(ps, ops)[i].classes[k], h + Sends(ps, ops, i, k), LastScan(ps, ops, i, k, t), now')
    decreases |ops|
  {
    hide Step, Inv, PairedPorts, Faults, LogsTail, SentBy, Scans;
    now' := now;
    if ops == [] {
      assert h + [] == h;
    } else {
      var op, qs, sent := ops[0], Step(ps, ops[0]), SentBy(ps, ops[0], i, k);
      assert forall j :: 0 <= j < |ops[1..]| ==> ops[1..][j] == ops[j + 1];
      StepKeepsTail(ps, op, i, k, h, t, now);
      StepKeepsInv(ps, op, now);
      now' := RunKeepsTail(qs, ops[1..], i, k, h + sent, if Scans(ps, op, i, k) then op.now else t, op.now);
      assert h + (sent + Sends(qs, ops[1..], i, k)) == (h + sent) + Sends(qs, ops[1..], i, k);
    }
  }

  /** After every run without requeues the log of a limited class is exactly what the last scan
      left of its sends.
   */
  lemma {:induction false} LogIsTail(ps: seq<Port>, ops: seq<Op>, i: nat, k: nat) returns (now: int)
    requires Fresh(ps) && Runs(ps, ops) && Clocked(0, ops) && NoRequeue(ops) && i < |ps| && k < |ps[i].classes|
    requires ps[i].classes[k].params.limitOut && ps[i].classes[k].params.oBurstT >= 0
    ensures |Run(ps, ops)[i].classes| == |ps[i].classes| && Inv(Run(ps, ops), now)
    ensures var c, h := Run(ps, ops)[i].classes[k], Sends(ps, ops, i, k);
            && c.params == ps[i].classes[k].params && LastScan(ps, ops, i, k, 0) <= now
            && c.log == Since(h, LastScan(ps, ops, i, k, 0) - c.params.oBurstT)
  {
    hide *;
    FreshInv(ps, 0);
    FreshLogsTail(ps, i, k);
    now := RunKeepsTail(ps, ops, i, k, [], 0, 0);
    assert [] + Sends(ps, ops, i, k) == Sends(ps, ops, i, k);
    TailIs(Run(ps, ops)[i].classes[k], Sends(ps, ops, i, k), LastScan(ps, ops, i, k, 0), now);
  }

  lemma FreshLogsTail(ps: seq<Port>, i: nat, k: nat)
    requires Fresh(ps) && i < |ps| && k < |ps[i].classes|
    ensures LogsTail(ps[i].classes[k], [], 0, 0) && WithinBurst(ps[i].classes[k])
    ensures ps[i].classes[k].queue == []
  {
    assert FreshClass(ps[i].classes[k]);
  }

  lemma TailIs(c: Class, h: seq<Send>, t: int, now: int)
    requires LogsTail(c, h, t, now)
    ensures t <= now && c.log == Since(h, t - c.params.oBurstT)
  {
  }

  /** Then a limited class with a PDU can be served if and only if the bytes it sent in the last
      burst time and the PDU at its head are within the burst size, where limit and PDU fit 32 bits.
   */
  lemma {:induction false} HeldBackIff(ps: seq<Port>, ops: seq<Op>, m: nat, i: nat, k: nat, now': int)
    requires Fresh(ps) && Runs(ps, ops) && Clocked(0, ops) && NoRequeue(ops) && SmallOps(ops, m)
    requires i < |ps| && k < |ps[i].classes| && LastScan(ps, ops, i, k, 0) <= now'
    requires var q := ps[i].classes[k].params; q.limitOut && q.oBurstT >= 0 && q.oBurstS + m < U32
    ensures |Run(ps, ops)[i].classes| == |ps[i].classes|
    ensures var q, c := ps[i].classes[k].params, Run(ps, ops)[i].classes[k];
            Servable(c, now') <==>
              c.queue != [] && Sum(Since(Sends(ps, ops, i, k), now' - q.oBurstT)) + c.queue[0].size <= q.oBurstS
  {
    hide *;
    var now := LogIsTail(ps, ops, i, k);
    SafeRun(ps, ops, m, i, k);
    TailJudges(Run(ps, ops)[i].classes[k], Sends(ps, ops, i, k), LastScan(ps, ops, i, k, 0), now', m);
  }

  lemma SafeRun(ps: seq<Port>, ops: seq<Op>, m: nat, i: nat, k: nat)
    requires Fresh(ps) && Runs(ps, ops) && Clocked(0, ops) && SmallOps(ops, m) && i < |ps| && k < |ps[i].classes|
    requires ps[i].classes[k].params.limitOut && ps[i].classes[k].params.oBurstS + m < U32
    ensures |Run(ps, ops)[i].classes| > k
    ensures WithinBurst(Run(ps, ops)[i].classes[k]) && ClassFits(Run(ps, ops)[i].classes[k], m)
  {
    hide Run, Runs, Clocked, SmallOps, Inv;
    FreshInv(ps, 0);
    FreshLogsTail(ps, i, k);
    RunWithinBurst(ps, ops, 0, m, i, k);
  }

  lemma {:induction false} TailJudges(c: Class, h: seq<Send>, t: int, now: int, m: nat)
    requires c.params.limitOut && c.log == Since(h, t - c.params.oBurstT) && t <= now
    requires WithinBurst(c) && ClassFits(c, m)
    ensures Servable(c, now) <==>
              c.queue != [] && Sum(Since(h, now - c.params.oBurstT)) + c.queue[0].size <= c.params.oBurstS
  {
    SinceSince(h, t - c.params.oBurstT, now - c.params.oBurstT);
    SumSince(c.log, now - c.params.oBurstT);
    hide Since, Sum;
  }
}
