/** The burst limit: what the send log bounds at every moment, and what that means for the
    bytes a class sends in any interval of a whole run.
 */
module DeltaQRate {
  import opened DeltaQSpec
  import opened DeltaQLedger

  // ---------- the 32-bit test ----------

  /** The 32-bit test and the true one give the same answer. */
  predicate TestAgrees(sent: Size, size: Size, burst: Size) {
    Wrap(sent + size) <= burst <==> sent + size <= burst
  }

  /** They agree, for every log within the limit, exactly when limit and PDU together fit 32 bits. */
  lemma TestIsExact(size: Size, burst: Size)
    ensures (forall sent :: 0 <= sent <= burst ==> TestAgrees(sent, size, burst)) <==> burst + size < U32
  {
    if burst + size >= U32 {
      assert Wrap(burst + size) == burst + size - U32;
      assert !TestAgrees(burst, size, burst);
    }
  }

  /** PDUs no larger than `m`, and a burst limit that leaves room for one of them. */
  predicate ClassFits(c: Class, m: nat) {
    && (forall j :: 0 <= j < |c.queue| ==> c.queue[j].size <= m)
    && (c.params.limitOut ==> c.params.oBurstS + m < U32)
  }

  predicate SmallOps(ops: seq<Op>, m: nat) {
    forall j :: 0 <= j < |ops| && !ops[j].Deq? ==> ops[j].p.size <= m
  }

  /** The log stays within the burst limit, and `send_size` is its true sum. */
  predicate WithinBurst(c: Class) {
    c.params.limitOut ==> Sum(c.log) <= c.params.oBurstS
  }

  predicate ClassSafe(ps: seq<Port>, i: nat, k: nat, m: nat) {
    i < |ps| && k < |ps[i].classes| && WithinBurst(ps[i].classes[k]) && ClassFits(ps[i].classes[k], m)
  }

  lemma {:induction false} SumCut(log: seq<Send>, n: nat)
    requires n <= |log|
    ensures Sum(log[n..]) <= Sum(log)
  {
    if n > 0 {
      assert log[n..] == log[1..][n - 1..];
      SumCut(log[1..], n - 1);
    }
  }

  lemma {:induction false} TouchWithinBurst(c: Class, now: int)
    requires WithinBurst(c)
    ensures WithinBurst(Touch(c, now))
  {
    var limit := now - c.params.oBurstT;
    ExpireCuts(c, limit);
    SumCut(c.log, Cut(c.log, limit));
  }

  lemma {:induction false} TakeWithinBurst(c: Class, now: int, m: nat)
    requires ClassInv(c, now) && WithinBurst(c) && ClassFits(c, m) && Eligible(c)
    ensures WithinBurst(Take(c, now)) && ClassFits(Take(c, now), m)
  {
    if c.params.limitOut {
      var s := Send(c.queue[0].size, now);
      SumAppend(c.log, [s]);
      assert Sum([s]) == s.size;
    }
  }

  lemma {:induction false} PutBackWithinBurst(c: Class, p: Pdu, m: nat)
    requires WithinBurst(c) && ClassFits(c, m) && p.size <= m
    ensures WithinBurst(PutBack(c, p)) && ClassFits(PutBack(c, p), m)
  {
    if c.params.limitOut && c.log != [] { SumCut(c.log, 1); }
  }

  /** What class `k` of port `i` sends in one operation. */
  function SentBy(ps: seq<Port>, op: Op, i: nat, k: nat): seq<Send>
    requires Enabled(ps, op)
  {
    if op.Deq? && i < |ps| && FindPort(ps, op.port) == i && k < |ps[i].classes| && Chosen(ps[i], op.now) == k
       && ps[i].classes[k].queue != []
    then [Send(ps[i].classes[k].queue[0].size, op.now)] else []
  }

  /** What a step may do to one class, given what the class sends in it. */
  predicate ClassStep(c: Class, c': Class, op: Op, sent: seq<Send>) {
    if sent == [] then
      || c' == c
      || (op.Enq? && c' == Append(c, op.p, op.now))
      || (op.Deq? && c' == Touch(c, op.now))
      || (op.Req? && c' == PutBack(c, op.p))
    else
      && op.Deq? && Eligible(Touch(c, op.now)) && Touch(c, op.now).wtimes != []
      && c' == Take(Touch(c, op.now), op.now)
      && sent == [Send(Touch(c, op.now).queue[0].size, op.now)]
  }

  lemma {:induction false} StepByClass(ps: seq<Port>, op: Op, i: nat, k: nat)
    requires Enabled(ps, op) && i < |ps| && k < |ps[i].classes|
    ensures |Step(ps, op)[i].classes| == |ps[i].classes|
    ensures ClassStep(ps[i].classes[k], Step(ps, op)[i].classes[k], op, SentBy(ps, op, i, k))
  {
    var j := FindPort(ps, op.port);
    if j == i && op.Deq? {
      DequeueIs(ps[i], op.now);
      ExpireKeeps(ps[i].classes[k], op.now - ps[i].classes[k].params.oBurstT);
    }
  }

  lemma {:induction false} StepLengths(ps: seq<Port>, op: Op, i: nat)
    requires Enabled(ps, op) && i < |ps|
    ensures |Step(ps, op)[i].classes| == |ps[i].classes|
  {
  }

  lemma {:induction false} ClassWithinBurst(c: Class, c': Class, op: Op, sent: seq<Send>, now: int, m: nat)
    requires ClassInv(c, now) && ClassStep(c, c', op, sent) && now <= ClockAfter(now, op)
    requires WithinBurst(c) && ClassFits(c, m) && (!op.Deq? ==> op.p.size <= m)
    ensures WithinBurst(c') && ClassFits(c', m)
  {
    if op.Deq? {
      TouchWithinBurst(c, op.now);
      TouchKeepsInv(c, now, op.now);
      if sent != [] { TakeWithinBurst(Touch(c, op.now), op.now, m); }
    } else if op.Req? {
      PutBackWithinBurst(c, op.p, m);
    }
  }

  /** The burst limit is kept by every step, requeues included. */
  lemma {:induction false} StepWithinBurst(ps: seq<Port>, op: Op, now: int, m: nat, i: nat, k: nat)
    requires Inv(ps, now) && Enabled(ps, op) && now <= ClockAfter(now, op)
    requires ClassSafe(ps, i, k, m) && (!op.Deq? ==> op.p.size <= m)
    ensures ClassSafe(Step(ps, op), i, k, m)
  {
    hide Step, ClassInv, ClassFits, WithinBurst, PairedPorts, Faults, ClassStep;
    StepLengths(ps, op, i);
    StepByClass(ps, op, i, k);
    assert PortInv(ps[i], now);
    ClassWithinBurst(ps[i].classes[k], Step(ps, op)[i].classes[k], op, SentBy(ps, op, i, k), now, m);
  }

  /** After every run, requeues included, the log of a class does not exceed its burst limit and
      `send_size` is the true sum of the log: nothing wrapped.
   */
  lemma {:induction false} RunWithinBurst(ps: seq<Port>, ops: seq<Op>, now: int, m: nat, i: nat, k: nat)
    requires Inv(ps, now) && Runs(ps, ops) && Clocked(now, ops)
    requires ClassSafe(ps, i, k, m) && SmallOps(ops, m)
    ensures ClassSafe(Run(ps, ops), i, k, m)
    ensures var c := Run(ps, ops)[i].classes[k];
            c.sendSize == Sum(c.log) && (c.params.limitOut ==> c.sendSize <= c.params.oBurstS)
    decreases |ops|
  {
    hide Step, ClassFits, Enabled;
    if ops != [] {
      StepKeepsInv(ps, ops[0], now);
      StepWithinBurst(ps, ops[0], now, m, i, k);
      assert forall j :: 0 <= j < |ops[1..]| ==> ops[1..][j] == ops[j + 1];
      RunWithinBurst(Step(ps, ops[0]), ops[1..], ClockAfter(now, ops[0]), m, i, k);
    } else {
      assert PortInv(ps[i], now) && WithinBurst(ps[i].classes[k]);
    }
  }

  // ---------- bytes in an interval ----------

  /** The sends with a time in the closed interval. */
  function Window(h: seq<Send>, from: int, to: int): seq<Send> {
    if h == [] then []
    else (if from <= h[0].time <= to then [h[0]] else []) + Window(h[1..], from, to)
  }

  /** Looking back from each send, the bytes of the window ending there. */
  predicate Windowed(h: seq<Send>, span: int, burst: int) {
    forall n :: 0 < n <= |h| ==> Sum(Since(h[..n], h[n - 1].time - span)) <= burst
  }

  lemma {:induction false} WindowLeSince(h: seq<Send>, from: int, to: int, limit: int)
    requires limit <= from
    ensures Sum(Window(h, from, to)) <= Sum(Since(h, limit))
  {
    if h != [] {
      WindowLeSince(h[1..], from, to, limit);
      var a, b := if from <= h[0].time <= to then [h[0]] else [], if h[0].time >= limit then [h[0]] else [];
      SumAppend(a, Window(h[1..], from, to));
      SumAppend(b, Since(h[1..], limit));
    }
  }

  lemma {:induction false} WindowAppend(g: seq<Send>, h: seq<Send>, from: int, to: int)
    ensures Window(g + h, from, to) == Window(g, from, to) + Window(h, from, to)
  {
    if g == [] {
      assert g + h == h;
    } else {
      assert (g + h)[1..] == g[1..] + h;
      WindowAppend(g[1..], h, from, to);
      var x := if from <= g[0].time <= to then [g[0]] else [];
      assert Window(g + h, from, to) == x + (Window(g[1..], from, to) + Window(h, from, to));
    }
  }

  lemma {:induction false} SinceAppend(g: seq<Send>, h: seq<Send>, limit: int)
    ensures Since(g + h, limit) == Since(g, limit) + Since(h, limit)
  {
    if g == [] {
      assert g + h == h;
    } else {
      assert (g + h)[1..] == g[1..] + h;
      SinceAppend(g[1..], h, limit);
      var x := if g[0].time >= limit then [g[0]] else [];
      assert Since(g + h, limit) == x + (Since(g[1..], limit) + Since(h, limit));
    }
  }

  lemma {:induction false} SinceNone(h: seq<Send>, limit: int)
    requires forall j :: 0 <= j < |h| ==> h[j].time < limit
    ensures Since(h, limit) == []
  {
    if h != [] { SinceNone(h[1..], limit); }
  }

  lemma {:induction false} WindowWithoutLast(g: seq<Send>, s: Send, from: int, to: int)
    requires s.time > to
    ensures Window(g + [s], from, to) == Window(g, from, to)
  {
    assert Window([s], from, to) == [];
    WindowAppend(g, [s], from, to);
  }

  lemma WindowedPrefix(g: seq<Send>, s: Send, span: int, burst: int)
    requires Windowed(g + [s], span, burst)
    ensures Windowed(g, span, burst) && Sum(Since(g + [s], s.time - span)) <= burst
  {
    hide Since, Sum;
    var h := g + [s];
    assert h[..|h|] == h;
    forall n | 0 < n <= |g| ensures Sum(Since(g[..n], g[n - 1].time - span)) <= burst {
      assert g[..n] == h[..n];
    }
  }

  /** A bound on every look-back window is a bound on every interval of the same length. */
  lemma {:induction false} WindowedBoundsIntervals(h: seq<Send>, span: int, burst: nat, from: int)
    requires Windowed(h, span, burst)
    ensures Sum(Window(h, from, from + span)) <= burst
    decreases |h|
  {
    if h != [] {
      hide Windowed, Window, Since, Sum;
      var g, s := h[..|h| - 1], h[|h| - 1];
      assert h == g + [s];
      WindowedPrefix(g, s, span, burst);
      if s.time > from + span {
        WindowWithoutLast(g, s, from, from + span);
        WindowedBoundsIntervals(g, span, burst, from);
      } else {
        WindowLeSince(h, from, from + span, s.time - span);
      }
    }
  }

  // ---------- the history of a class ----------

  /** In every window still open, the log shows at least the bytes that were sent for good. */
  ghost predicate Remembers(c: Class, h: seq<Send>, now: int) {
    && InTimeOrder(h) && (forall j :: 0 <= j < |h| ==> h[j].time <= now)
    && Windowed(h, c.params.oBurstT, c.params.oBurstS)
    && forall l :: l >= now - c.params.oBurstT ==> Sum(Since(h, l)) <= Sum(Since(c.log, l))
  }

  lemma {:induction false} SinceSince(log: seq<Send>, a: int, l: int)
    requires a <= l
    ensures Since(Since(log, a), l) == Since(log, l)
  {
    if log != [] {
      SinceSince(log[1..], a, l);
      assert [] + Since(log[1..], a) == Since(log[1..], a);
      if log[0].time >= a { assert Since(log, a)[1..] == Since(log[1..], a); } else { assert log[0].time < l; }
      assert log[0].time < l ==> [] + Since(log[1..], l) == Since(log[1..], l);
    }
  }

  lemma OneMoreSince(h: seq<Send>, s: Send, l: int)
    ensures Sum(Since(h + [s], l)) == Sum(Since(h, l)) + if s.time >= l then s.size else 0
  {
    SinceAppend(h, [s], l);
    SumAppend(Since(h, l), Since([s], l));
    assert [s][1..] == [];
  }

  lemma {:induction false} SumSince(log: seq<Send>, l: int)
    ensures Sum(Since(log, l)) <= Sum(log)
  {
    if log != [] {
      SinceTail(log, l);
      SumSince(log[1..], l);
    }
  }

  /** Without its first record, a log in time order loses its bytes only in the windows that show all
      of it.
   */
  lemma {:induction false} SinceTail(log: seq<Send>, l: int)
    requires log != []
    ensures Sum(Since(log, l)) == Sum(Since(log[1..], l)) + if log[0].time >= l then log[0].size else 0
  {
    if log[0].time >= l {
      assert Since(log, l)[1..] == Since(log[1..], l);
    } else {
      assert [] + Since(log[1..], l) == Since(log[1..], l);
    }
  }

  lemma {:induction false} TouchRemembers(c: Class, h: seq<Send>, now: int, now': int)
    requires InTimeOrder(c.log) && Remembers(c, h, now) && now <= now'
    ensures Remembers(Touch(c, now'), h, now')
  {
    hide Expire, Since, Sum, Cut, Windowed, InTimeOrder;
    var d, limit := Touch(c, now'), now' - c.params.oBurstT;
    ExpireCuts(c, limit);
    CutIsSince(c.log, limit);
    forall l | l >= limit ensures Sum(Since(h, l)) <= Sum(Since(d.log, l)) {
      SinceSince(c.log, limit, l);
    }
  }

  lemma OneSend(s: Send, limit: int)
    ensures Sum(Since([s], limit)) <= s.size && Sum([s]) == s.size
  {
  }

  lemma {:induction false} WindowedAppend(h: seq<Send>, s: Send, span: int, burst: int)
    requires Windowed(h, span, burst)
    requires Sum(Since(h, s.time - span)) + s.size <= burst
    ensures Windowed(h + [s], span, burst)
  {
    var h', limit := h + [s], s.time - span;
    OneSend(s, limit);
    hide Since, Sum;
    SinceAppend(h, [s], limit);
    SumAppend(Since(h, limit), Since([s], limit));
    forall n | 0 < n <= |h'| ensures Sum(Since(h'[..n], h'[n - 1].time - span)) <= burst {
      if n <= |h| { assert h'[..n] == h[..n]; } else { assert h'[..n] == h'; }
    }
  }

  lemma {:induction false} TakeRemembers(c: Class, h: seq<Send>, now: int, m: nat)
    requires ClassInv(c, now) && Remembers(c, h, now) && c.params.limitOut && WithinBurst(c) && ClassFits(c, m)
    requires Eligible(c)
    ensures Remembers(Take(c, now), h + [Send(c.queue[0].size, now)], now)
  {
    hide Since, Sum, Windowed;
    var s, limit := Send(c.queue[0].size, now), now - c.params.oBurstT;
    assert Sum(c.log) + s.size <= c.params.oBurstS;
    hide ClassFits, WithinBurst, Wrap, Eligible;
    assert Take(c, now).log == c.log + [s];
    forall l | l >= limit ensures Sum(Since(h + [s], l)) <= Sum(Since(c.log + [s], l)) {
      OneMoreSince(h, s, l);
      OneMoreSince(c.log, s, l);
    }
    SumSince(c.log, limit);
    WindowedAppend(h, s, c.params.oBurstT, c.params.oBurstS);
  }

  /** What class `k` of port `i` sends in a run. */
  function Sends(ps: seq<Port>, ops: seq<Op>, i: nat, k: nat): seq<Send>
    requires Runs(ps, ops)
    decreases |ops|
  {
    if ops == [] then [] else SentBy(ps, ops[0], i, k) + Sends(Step(ps, ops[0]), ops[1..], i, k)
  }

  predicate NoRequeue(ops: seq<Op>) {
    forall j :: 0 <= j < |ops| ==> !ops[j].Req?
  }

  lemma {:induction false} ClassRemembers(c: Class, c': Class, op: Op, sent: seq<Send>, h: seq<Send>, now: int, m: nat)
    requires ClassInv(c, now) && ClassStep(c, c', op, sent) && now <= ClockAfter(now, op) && !op.Req?
    requires WithinBurst(c) && ClassFits(c, m) && c.params.limitOut && Remembers(c, h, now)
    ensures Remembers(c', h + sent, op.now) && c'.params == c.params
  {
    if op.Deq? {
      TouchWithinBurst(c, op.now);
      TouchKeepsInv(c, now, op.now);
      TouchRemembers(c, h, now, op.now);
      if sent != [] {
        TakeRemembers(Touch(c, op.now), h, op.now, m);
      } else {
        assert h + sent == h;
      }
    } else {
      assert h + sent == h;
    }
  }

  /** What a run without wrap-around keeps for a class. */
  ghost predicate Tracked(ps: seq<Port>, now: int, m: nat, i: nat, k: nat) {
    Inv(ps, now) && ClassSafe(ps, i, k, m)
  }

  ghost predicate ClassTracked(ps: seq<Port>, now: int, i: nat, k: nat, h: seq<Send>, q: Params) {
    && i < |ps| && k < |ps[i].classes| && ps[i].classes[k].params == q
    && q.limitOut && Remembers(ps[i].classes[k], h, now)
  }

  lemma {:induction false} StepRemembers(ps: seq<Port>, op: Op, now: int, m: nat, i: nat, k: nat, h: seq<Send>,
      q: Params)
    requires Tracked(ps, now, m, i, k) && Enabled(ps, op) && !op.Req? && now <= op.now && (op.Enq? ==> op.p.size <= m)
    requires ClassTracked(ps, now, i, k, h, q)
    ensures Tracked(Step(ps, op), op.now, m, i, k)
    ensures ClassTracked(Step(ps, op), op.now, i, k, h + SentBy(ps, op, i, k), q)
  {
    hide Step, SentBy, ClassStep, Remembers, PairedPorts, Faults, ClassInv, ClassFits, WithinBurst;
    StepKeepsInv(ps, op, now);
    StepWithinBurst(ps, op, now, m, i, k);
    StepLengths(ps, op, i);
    StepByClass(ps, op, i, k);
    assert PortInv(ps[i], now);
    assert ClassInv(ps[i].classes[k], now);
    ClassRemembers(ps[i].classes[k], Step(ps, op)[i].classes[k], op, SentBy(ps, op, i, k), h, now, m);
  }

  lemma OpsTail(ops: seq<Op>, m: nat)
    requires ops != [] && SmallOps(ops, m) && NoRequeue(ops)
    ensures SmallOps(ops[1..], m) && NoRequeue(ops[1..]) && !ops[0].Req? && (ops[0].Enq? ==> ops[0].p.size <= m)
  {
    assert forall j :: 0 <= j < |ops[1..]| ==> ops[1..][j] == ops[j + 1];
  }

  lemma NoSends(ps: seq<Port>, ops: seq<Op>, i: nat, k: nat)
    requires ops == []
    ensures Runs(ps, ops) && Sends(ps, ops, i, k) == []
  {
  }

  lemma ClassWindowed(ps: seq<Port>, now: int, i: nat, k: nat, h: seq<Send>, q: Params)
    requires ClassTracked(ps, now, i, k, h, q)
    ensures Windowed(h, q.oBurstT, q.oBurstS)
  {
  }

  lemma FirstStep(ps: seq<Port>, ops: seq<Op>, now: int, i: nat, k: nat)
    requires ops != [] && Runs(ps, ops) && Clocked(now, ops) && !ops[0].Req?
    ensures Enabled(ps, ops[0]) && Runs(Step(ps, ops[0]), ops[1..])
    ensures now <= ops[0].now && Clocked(ops[0].now, ops[1..])
    ensures Sends(ps, ops, i, k) == SentBy(ps, ops[0], i, k) + Sends(Step(ps, ops[0]), ops[1..], i, k)
  {
  }

  /** Along a run without requeues every limited class remembers what it sent. */
  lemma {:induction false} RunRemembers(ps: seq<Port>, ops: seq<Op>, now: int, m: nat, i: nat, k: nat, h: seq<Send>,
      q: Params)
    requires Runs(ps, ops) && Clocked(now, ops) && NoRequeue(ops) && SmallOps(ops, m)
    requires Tracked(ps, now, m, i, k) && ClassTracked(ps, now, i, k, h, q)
    ensures Windowed(h + Sends(ps, ops, i, k), q.oBurstT, q.oBurstS)
    decreases |ops|
  {
    hide *;
    if ops == [] {
      NoSends(ps, ops, i, k);
      assert h + [] == h;
      ClassWindowed(ps, now, i, k, h, q);
    } else {
      OpsTail(ops, m);
      FirstStep(ps, ops, now, i, k);
      var op, qs := ops[0], Step(ps, ops[0]);
      var sent := SentBy(ps, op, i, k);
      StepRemembers(ps, op, now, m, i, k, h, q);
      RunRemembers(qs, ops[1..], op.now, m, i, k, h + sent, q);
      assert h + (sent + Sends(qs, ops[1..], i, k)) == (h + sent) + Sends(qs, ops[1..], i, k);
    }
  }

  lemma NothingSent(c: Class)
    requires FreshClass(c)
    ensures Remembers(c, [], 0)
  {
  }

  /** In every run without requeues from the configured start, a class with an output limit
      sends at most its burst size in any closed interval as long as its burst time, provided the
      limit and one more PDU fit 32 bits.
   */
  lemma {:induction false} RateGuarantee(ps: seq<Port>, ops: seq<Op>, m: nat, i: nat, k: nat, from: int)
    requires Fresh(ps) && Runs(ps, ops) && Clocked(0, ops) && NoRequeue(ops) && SmallOps(ops, m)
    requires i < |ps| && k < |ps[i].classes|
    requires ps[i].classes[k].params.limitOut && ps[i].classes[k].params.oBurstS + m < U32
    ensures var q := ps[i].classes[k].params;
            Sum(Window(Sends(ps, ops, i, k), from, from + q.oBurstT)) <= q.oBurstS
  {
    hide *;
    var q := ps[i].classes[k].params;
    FreshTracked(ps, m, i, k);
    RunRemembers(ps, ops, 0, m, i, k, [], q);
    assert [] + Sends(ps, ops, i, k) == Sends(ps, ops, i, k);
    WindowedBoundsIntervals(Sends(ps, ops, i, k), q.oBurstT, q.oBurstS, from);
  }

  lemma FreshTracked(ps: seq<Port>, m: nat, i: nat, k: nat)
    requires Fresh(ps) && i < |ps| && k < |ps[i].classes|
    requires ps[i].classes[k].params.limitOut && ps[i].classes[k].params.oBurstS + m < U32
    ensures Tracked(ps, 0, m, i, k) && ClassTracked(ps, 0, i, k, [], ps[i].classes[k].params)
  {
    hide Inv;
    FreshInv(ps, 0);
    NothingSent(ps[i].classes[k]);
  }
}
