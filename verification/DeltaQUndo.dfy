/** The burst limit when PDUs are put back. A requeue takes the oldest send record off the log,
    whatever was sent since, so that the log may come to show fewer bytes than were sent.
 */
module DeltaQUndo {
  import opened Options
  import opened DeltaQSpec
  import opened DeltaQLedger
  import opened DeltaQRate
  import opened DeltaQOrder
  import opened DeltaQWrap

  // ---------- sent and not undone ----------

  /** What a class has sent and not got back, and the PDU it sent last while that may still be
      undone.
   */
  datatype Trail = Trail(sent: seq<Send>, last: Option<Pdu>)

  const NOTHING := Trail([], None)

  /** The requeue brings back the PDU sent last. Any other is of a PDU the class did not send, as
      when a sender's own write was told to try again.
   */
  predicate IsUndo(ps: seq<Port>, op: Op, i: nat, k: nat, tr: Trail)
    requires Enabled(ps, op)
  {
    op.Req? && Reaches(ps, op, i, k) && tr.last == Some(op.p) && tr.sent != []
  }

  function TrailStep(ps: seq<Port>, op: Op, i: nat, k: nat, tr: Trail): Trail
    requires Enabled(ps, op)
  {
    if IsUndo(ps, op, i, k, tr) then Trail(tr.sent[..|tr.sent| - 1], None)
    else if SentBy(ps, op, i, k) == [] then tr
    else Trail(tr.sent + SentBy(ps, op, i, k), Some(ps[i].classes[k].queue[0]))
  }

  function TrailAfter(ps: seq<Port>, ops: seq<Op>, i: nat, k: nat, tr: Trail): Trail
    requires Runs(ps, ops)
    decreases |ops|
  {
    if ops == [] then tr else TrailAfter(Step(ps, ops[0]), ops[1..], i, k, TrailStep(ps, ops[0], i, k, tr))
  }

  /** The bytes that come back with the operation. */
  function GivesBack(ps: seq<Port>, op: Op, i: nat, k: nat, tr: Trail): nat
    requires Enabled(ps, op)
  {
    if IsUndo(ps, op, i, k, tr) then tr.sent[|tr.sent| - 1].size else 0
  }

  /** The record that a requeue takes off the log has at most `d` bytes more than come back. */
  predicate Covers(ps: seq<Port>, op: Op, i: nat, k: nat, tr: Trail, d: nat)
    requires Enabled(ps, op)
  {
    op.Req? && Reaches(ps, op, i, k) && ps[i].classes[k].log != [] ==>
      ps[i].classes[k].log[0].size <= GivesBack(ps, op, i, k, tr) + d
  }

  predicate CoveredRun(ps: seq<Port>, ops: seq<Op>, i: nat, k: nat, tr: Trail, d: nat)
    requires Runs(ps, ops)
    decreases |ops|
  {
    ops == [] ||
    (Covers(ps, ops[0], i, k, tr, d)
     && CoveredRun(Step(ps, ops[0]), ops[1..], i, k, TrailStep(ps, ops[0], i, k, tr), d))
  }

  /** The PDU sent last comes back, and a record no larger goes. */
  lemma {:induction false} UndoRemembers(c: Class, p: Pdu, h: seq<Send>, now: int)
    requires Remembers(c, h, now) && h != [] && c.params.limitOut && c.log != []
    requires c.log[0].size <= h[|h| - 1].size
    ensures Remembers(PutBack(c, p), h[..|h| - 1], now)
  {
    hide Since, Sum, Windowed;
    var g, s := h[..|h| - 1], h[|h| - 1];
    assert h == g + [s];
    WindowedPrefix(g, s, c.params.oBurstT, c.params.oBurstS);
    forall l | l >= now - c.params.oBurstT ensures Sum(Since(g, l)) <= Sum(Since(c.log[1..], l)) {
      OneMoreSince(g, s, l);
      SinceTail(c.log, l);
      if s.time < l { SinceNone(g, l); NoBytes(c.log[1..], l); }
    }
  }

  lemma NoBytes(log: seq<Send>, l: int)
    ensures Sum([]) == 0 && Sum(Since(log, l)) >= 0
  {
  }

  /** A record without bytes goes. */
  lemma {:induction false} EmptyRemembers(c: Class, p: Pdu, h: seq<Send>, now: int)
    requires Remembers(c, h, now) && c.params.limitOut && c.log != [] && c.log[0].size == 0
    ensures Remembers(PutBack(c, p), h, now)
  {
    hide Since, Sum, Windowed, InTimeOrder;
    forall l | l >= now - c.params.oBurstT ensures Sum(Since(h, l)) <= Sum(Since(c.log[1..], l)) {
      SinceTail(c.log, l);
    }
  }

  // ---------- steps and runs ----------

  /** What a requeue does to a class. */
  lemma RequeueStep(ps: seq<Port>, op: Op, i: nat, k: nat)
    requires Enabled(ps, op) && op.Req? && i < |ps| && k < |ps[i].classes|
    ensures |Step(ps, op)[i].classes| == |ps[i].classes| && SentBy(ps, op, i, k) == []
    ensures var c := ps[i].classes[k];
            && Step(ps, op)[i].classes[k] == (if Reaches(ps, op, i, k) then PutBack(c, op.p) else c)
            && (Reaches(ps, op, i, k) && c.params.limitOut ==> c.log != [])
  {
  }

  lemma PutBackParams(c: Class, p: Pdu)
    ensures PutBack(c, p).params == c.params
  {
  }

  lemma {:induction false} RequeueFollows(ps: seq<Port>, op: Op, now: int, i: nat, k: nat, tr: Trail, q: Params)
    requires Enabled(ps, op) && op.Req? && ClassTracked(ps, now, i, k, tr.sent, q) && Covers(ps, op, i, k, tr, 0)
    ensures ClassTracked(Step(ps, op), now, i, k, TrailStep(ps, op, i, k, tr).sent, q)
  {
    hide Step, SentBy, PairedPorts, Faults, Reaches, Remembers, PutBack;
    RequeueStep(ps, op, i, k);
    var c := ps[i].classes[k];
    PutBackParams(c, op.p);
    if Reaches(ps, op, i, k) {
      if IsUndo(ps, op, i, k, tr) {
        UndoRemembers(c, op.p, tr.sent, now);
      } else {
        EmptyRemembers(c, op.p, tr.sent, now);
      }
    }
  }

  lemma {:induction false} StepFollows(ps: seq<Port>, op: Op, now: int, m: nat, i: nat, k: nat, tr: Trail, q: Params)
    requires Tracked(ps, now, m, i, k) && Enabled(ps, op) && now <= ClockAfter(now, op) && (!op.Deq? ==> op.p.size <= m)
    requires ClassTracked(ps, now, i, k, tr.sent, q) && Covers(ps, op, i, k, tr, 0)
    ensures Tracked(Step(ps, op), ClockAfter(now, op), m, i, k)
    ensures ClassTracked(Step(ps, op), ClockAfter(now, op), i, k, TrailStep(ps, op, i, k, tr).sent, q)
  {
    hide Step, SentBy, PairedPorts, Faults, Covers, Remembers, ClassSafe, Inv, Reaches;
    if op.Req? {
      StepKeepsInv(ps, op, now);
      StepWithinBurst(ps, op, now, m, i, k);
      RequeueFollows(ps, op, now, i, k, tr, q);
    } else {
      StepRemembers(ps, op, now, m, i, k, tr.sent, q);
      assert tr.sent + [] == tr.sent;
    }
  }

  lemma {:induction false} RunFollows(ps: seq<Port>, ops: seq<Op>, now: int, m: nat, i: nat, k: nat, tr: Trail,
      q: Params)
    requires Runs(ps, ops) && Clocked(now, ops) && SmallOps(ops, m) && CoveredRun(ps, ops, i, k, tr, 0)
    requires Tracked(ps, now, m, i, k) && ClassTracked(ps, now, i, k, tr.sent, q)
    ensures Windowed(TrailAfter(ps, ops, i, k, tr).sent, q.oBurstT, q.oBurstS)
    decreases |ops|
  {
    hide Step, TrailStep, PairedPorts, Faults, Covers, Tracked, Windowed;
    if ops != [] {
      hide ClassTracked;
      assert forall j :: 0 <= j < |ops[1..]| ==> ops[1..][j] == ops[j + 1];
      StepFollows(ps, ops[0], now, m, i, k, tr, q);
      RunFollows(Step(ps, ops[0]), ops[1..], ClockAfter(now, ops[0]), m, i, k, TrailStep(ps, ops[0], i, k, tr), q);
    }
  }

  /** When no requeue takes more bytes off the log than come back, what is sent and not undone stays
      within the burst size in every closed interval as long as the burst time.
   */
  lemma {:induction false} CoveredRateGuarantee(ps: seq<Port>, ops: seq<Op>, m: nat, i: nat, k: nat, from: int)
    requires Fresh(ps) && Runs(ps, ops) && Clocked(0, ops) && SmallOps(ops, m) && CoveredRun(ps, ops, i, k, NOTHING, 0)
    requires i < |ps| && k < |ps[i].classes|
    requires ps[i].classes[k].params.limitOut && ps[i].classes[k].params.oBurstS + m < U32
    ensures var q := ps[i].classes[k].params;
            Sum(Window(TrailAfter(ps, ops, i, k, NOTHING).sent, from, from + q.oBurstT)) <= q.oBurstS
  {
    hide *;
    var q := ps[i].classes[k].params;
    FreshTracked(ps, m, i, k);
    EmptyTrail();
    RunFollows(ps, ops, 0, m, i, k, NOTHING, q);
    WindowedBoundsIntervals(TrailAfter(ps, ops, i, k, NOTHING).sent, q.oBurstT, q.oBurstS, from);
  }

  lemma EmptyTrail()
    ensures NOTHING.sent == []
  {
  }

  // ---------- runs of undos ----------

  /** The trail is what the history delivered and has not taken back. */
  predicate SameTrail(tr: Trail, h: History) {
    && |tr.sent| == |h.delivered|
    && (forall j :: 0 <= j < |tr.sent| ==> tr.sent[j].size == h.delivered[j].p.size)
    && (h.open ==> h.delivered != [] && tr.last == Some(h.delivered[|h.delivered| - 1].p))
  }

  lemma StepSameTrail(ps: seq<Port>, op: Op, i: nat, k: nat, tr: Trail, h: History)
    requires Enabled(ps, op) && i < |ps| && k < |ps[i].classes| && Undoes(ps, op, i, k, h) && SameTrail(tr, h)
    ensures SameTrail(TrailStep(ps, op, i, k, tr), Recorded(ps, op, i, k, h))
    ensures op.Req? && Reaches(ps, op, i, k) ==> IsUndo(ps, op, i, k, tr) && GivesBack(ps, op, i, k, tr) == op.p.size
  {
    StepQueues(ps, op, i, k);
    hide Step, PairedPorts, Faults;
  }

  /** Along a run of undos what was sent and not undone are the delivered PDUs of the history. */
  lemma {:induction false} TrailIsDelivered(ps: seq<Port>, ops: seq<Op>, i: nat, k: nat, tr: Trail, h: History)
    requires Runs(ps, ops) && UndoRun(ps, ops, i, k, h) && i < |ps| && k < |ps[i].classes| && SameTrail(tr, h)
    ensures SameTrail(TrailAfter(ps, ops, i, k, tr), HistoryAfter(ps, ops, i, k, h))
    decreases |ops|
  {
    hide SameTrail, TrailStep, Recorded, Undoes, Step, PairedPorts, Faults;
    if ops != [] {
      StepSameTrail(ps, ops[0], i, k, tr, h);
      StepLengths(ps, ops[0], i);
      var tr' := TrailStep(ps, ops[0], i, k, tr);
      TrailIsDelivered(Step(ps, ops[0]), ops[1..], i, k, tr', Recorded(ps, ops[0], i, k, h));
    }
  }

  /** The oldest record of the class is no larger than a PDU put back. */
  predicate FitsOldest(ps: seq<Port>, op: Op, i: nat, k: nat)
    requires Enabled(ps, op)
  {
    op.Req? && Reaches(ps, op, i, k) && ps[i].classes[k].log != [] ==> ps[i].classes[k].log[0].size <= op.p.size
  }

  predicate FittingRun(ps: seq<Port>, ops: seq<Op>, i: nat, k: nat)
    requires Runs(ps, ops)
    decreases |ops|
  {
    ops == [] || (FitsOldest(ps, ops[0], i, k) && FittingRun(Step(ps, ops[0]), ops[1..], i, k))
  }

  /** For undos the condition is on the oldest record and the PDU put back alone. */
  lemma {:induction false} UndosCover(ps: seq<Port>, ops: seq<Op>, i: nat, k: nat, tr: Trail, h: History)
    requires Runs(ps, ops) && UndoRun(ps, ops, i, k, h) && i < |ps| && k < |ps[i].classes| && SameTrail(tr, h)
    ensures CoveredRun(ps, ops, i, k, tr, 0) <==> FittingRun(ps, ops, i, k)
    decreases |ops|
  {
    if ops != [] {
      StepSameTrail(ps, ops[0], i, k, tr, h);
      hide SameTrail, TrailStep, Recorded, Undoes, Step, PairedPorts, Faults, GivesBack;
      StepLengths(ps, ops[0], i);
      UndosCover(Step(ps, ops[0]), ops[1..], i, k, TrailStep(ps, ops[0], i, k, tr), Recorded(ps, ops[0], i, k, h));
    }
  }

  /** So when all requeues are undos and the oldest record is never larger than the PDU put back, what
      is sent and not undone stays within the burst.
   */
  lemma {:induction false} UndoRateGuarantee(ps: seq<Port>, ops: seq<Op>, m: nat, i: nat, k: nat, from: int)
    requires Fresh(ps) && Runs(ps, ops) && Clocked(0, ops) && SmallOps(ops, m)
    requires UndoRun(ps, ops, i, k, History([], [], false)) && FittingRun(ps, ops, i, k)
    requires i < |ps| && k < |ps[i].classes|
    requires ps[i].classes[k].params.limitOut && ps[i].classes[k].params.oBurstS + m < U32
    ensures var q := ps[i].classes[k].params;
            Sum(Window(TrailAfter(ps, ops, i, k, NOTHING).sent, from, from + q.oBurstT)) <= q.oBurstS
  {
    assert SameTrail(NOTHING, History([], [], false));
    hide *;
    UndosCover(ps, ops, i, k, NOTHING, History([], [], false));
    CoveredRateGuarantee(ps, ops, m, i, k, from);
  }

  predicate OneSize(c: Class, z: Size) {
    && (forall j :: 0 <= j < |c.queue| ==> c.queue[j].size == z)
    && (forall j :: 0 <= j < |c.log| ==> c.log[j].size == z)
  }

  predicate SizedOps(ops: seq<Op>, z: Size) {
    forall j :: 0 <= j < |ops| && !ops[j].Deq? ==> ops[j].p.size == z
  }

  lemma ClassKeepsSize(c: Class, c': Class, op: Op, sent: seq<Send>, z: Size)
    requires ClassStep(c, c', op, sent) && OneSize(c, z) && (!op.Deq? ==> op.p.size == z)
    ensures OneSize(c', z)
  {
    if op.Deq? { ExpireCuts(c, op.now - c.params.oBurstT); }
    hide Expire, Cut, Eligible, Wrap;
  }

  lemma StepKeepsSize(ps: seq<Port>, op: Op, i: nat, k: nat, z: Size)
    requires Enabled(ps, op) && i < |ps| && k < |ps[i].classes| && (!op.Deq? ==> op.p.size == z)
    requires OneSize(ps[i].classes[k], z)
    ensures |Step(ps, op)[i].classes| == |ps[i].classes| && OneSize(Step(ps, op)[i].classes[k], z)
    ensures FitsOldest(ps, op, i, k)
  {
    hide Step, PairedPorts, Faults, SentBy, ClassStep, Reaches;
    StepLengths(ps, op, i);
    StepByClass(ps, op, i, k);
    ClassKeepsSize(ps[i].classes[k], Step(ps, op)[i].classes[k], op, SentBy(ps, op, i, k), z);
  }

  /** Where all PDUs have one size, every oldest record fits. */
  lemma {:induction false} OneSizeFits(ps: seq<Port>, ops: seq<Op>, i: nat, k: nat, z: Size)
    requires Runs(ps, ops) && SizedOps(ops, z) && i < |ps| && k < |ps[i].classes| && OneSize(ps[i].classes[k], z)
    ensures FittingRun(ps, ops, i, k)
    decreases |ops|
  {
    hide Step, PairedPorts, Faults, OneSize, FitsOldest;
    if ops != [] {
      assert forall j :: 0 <= j < |ops[1..]| ==> ops[1..][j] == ops[j + 1];
      StepKeepsSize(ps, ops[0], i, k, z);
      OneSizeFits(Step(ps, ops[0]), ops[1..], i, k, z);
    }
  }

  // ---------- a record that is missed ----------

  predicate NonEmpty(ops: seq<Op>) {
    forall j :: 0 <= j < |ops| && !ops[j].Deq? ==> ops[j].p.size >= 1
  }

  /** A run no earlier than `t` of non-empty PDUs of at most `m`, whose requeues take at most one byte
      more than comes back, and what is sent for good at its end.
   */
  predicate Goes(ps: seq<Port>, t: int, ops: seq<Op>, m: nat, tr: Trail, sent: seq<Send>) {
    && Runs(ps, ops) && Clocked(t, ops) && SmallOps(ops, m) && NonEmpty(ops)
    && CoveredRun(ps, ops, 0, 0, tr, 1) && TrailAfter(ps, ops, 0, 0, tr).sent == sent
  }

  lemma GoesFirst(ps: seq<Port>, t: int, op: Op, ops: seq<Op>, m: nat, tr: Trail, sent: seq<Send>)
    requires Enabled(ps, op) && Covers(ps, op, 0, 0, tr, 1)
    requires t <= ClockAfter(t, op) && (!op.Deq? ==> 1 <= op.p.size <= m)
    requires Goes(Step(ps, op), ClockAfter(t, op), ops, m, TrailStep(ps, op, 0, 0, tr), sent)
    ensures Goes(ps, t, [op] + ops, m, tr, sent)
  {
    hide Enabled, Step, Covers, TrailStep;
    var all := [op] + ops;
    assert all[0] == op && all[1..] == ops;
    assert forall j :: 0 < j < |all| ==> all[j] == ops[j - 1];
  }

  /** Without requeues nothing comes back. */
  lemma {:induction false} PlainRun(ps: seq<Port>, ops: seq<Op>, tr: Trail)
    requires Runs(ps, ops) && NoRequeue(ops)
    ensures CoveredRun(ps, ops, 0, 0, tr, 1)
    ensures TrailAfter(ps, ops, 0, 0, tr).sent == tr.sent + Sends(ps, ops, 0, 0)
    decreases |ops|
  {
    hide Step, PairedPorts, Faults, SentBy;
    if ops == [] {
      assert tr.sent + [] == tr.sent;
    } else {
      assert !ops[0].Req? && forall j :: 0 <= j < |ops[1..]| ==> ops[1..][j] == ops[j + 1];
      var one, tr' := SentBy(ps, ops[0], 0, 0), TrailStep(ps, ops[0], 0, 0, tr);
      assert tr.sent + [] == tr.sent;
      PlainRun(Step(ps, ops[0]), ops[1..], tr');
      assert (tr.sent + one) + Sends(Step(ps, ops[0]), ops[1..], 0, 0) == tr.sent + Sends(ps, ops, 0, 0);
    }
  }

  /** Non-empty PDUs of at most `m` that fill the limit up. */
  function FillUp(left: Size, m: Size): (r: seq<Size>)
    requires m > 0
    ensures forall j :: 0 <= j < |r| ==> 1 <= r[j] <= m
  {
    if left == 0 then [] else if left <= m then [left] else [m] + FillUp(left - m, m)
  }

  lemma {:induction false} FillUpPasses(sent: Size, burst: Size, m: Size)
    requires m > 0 && sent <= burst
    ensures Passes(sent, FillUp(burst - sent, m), burst) && Sum(Sent(FillUp(burst - sent, m))) == burst - sent
    decreases burst - sent
  {
    var sizes := FillUp(burst - sent, m);
    if 0 < burst - sent <= m {
      assert sizes[1..] == [] && Sent(sizes) == [Send(burst - sent, 0)];
    } else if burst - sent > m {
      FillUpPasses(sent + m, burst, m);
      assert sizes[1..] == FillUp(burst - sent - m, m);
    }
  }

  lemma {:induction false} BatchIsNonEmpty(sizes: seq<Size>)
    requires forall j :: 0 <= j < |sizes| ==> sizes[j] >= 1
    ensures NonEmpty(Batch(sizes))
  {
    if sizes != [] {
      BatchIsNonEmpty(sizes[1..]);
      var rest, ops := Batch(sizes[1..]), Batch(sizes);
      assert forall j :: 2 <= j < |ops| ==> ops[j] == rest[j - 2];
    }
  }

  const ONE := Send(1, 0)
  const MINE := Pdu(0, 0, 1)
  const OTHERS := Pdu(1, 0, 1)

  /** The class of the run below, with one PDU waiting. */
  function Waiting(burst: Size, p: Pdu): Class {
    Class(0, Params(true, 0, burst, 0, 0), [p], [0], [], 0, 0)
  }

  /** One byte is in the log: the rest of the burst follows at the same instant. */
  lemma RestGoes(burst: Size, m: Size, tr: Trail) returns (ops: seq<Op>, rest: seq<Send>)
    requires burst > 0 && m > 0
    ensures Goes(Alone(Instant(burst, [ONE], 1)), 0, ops, m, tr, tr.sent + rest)
    ensures Window(rest, 0, 0) == rest && Sum(rest) == burst - 1
  {
    var sizes := FillUp(burst - 1, m);
    ops, rest := Batch(sizes), Sent(sizes);
    FillUpPasses(1, burst, m);
    BatchIsSent(burst, [ONE], 1, sizes);
    BatchIsPlain(sizes, m);
    BatchIsNonEmpty(sizes);
    AllInWindow(sizes);
    PlainRun(Alone(Instant(burst, [ONE], 1)), ops, tr);
  }

  /** The waiting byte is sent. */
  lemma ByteGoes(burst: Size, p: Pdu, ops: seq<Op>, m: nat, tr: Trail, sent: seq<Send>)
    requires burst > 0 && p.qos == 0 && p.size == 1
    requires Goes(Alone(Instant(burst, [ONE], 1)), 0, ops, m, Trail(tr.sent + [ONE], Some(p)), sent)
    ensures Goes(Alone(Waiting(burst, p)), 0, [Deq(0, 0)] + ops, m, tr, sent)
  {
    hide Goes;
    var c := Waiting(burst, p);
    assert Touch(c, 0) == c;
    DequeueAlone(c, 0);
    assert Take(c, 0) == Instant(burst, [ONE], 1);
    GoesFirst(Alone(c), 0, Deq(0, 0), ops, m, tr, sent);
  }

  /** A PDU that the class did not send is put back, and the record of the byte goes. */
  lemma MissedGoes(burst: Size, ops: seq<Op>, m: nat, sent: seq<Send>)
    requires m >= 1 && Goes(Alone(Waiting(burst, OTHERS)), 0, ops, m, Trail([ONE], Some(MINE)), sent)
    ensures Goes(Alone(Instant(burst, [ONE], 1)), 0, [Req(0, OTHERS)] + ops, m, Trail([ONE], Some(MINE)), sent)
  {
    hide Goes;
    var c := Instant(burst, [ONE], 1);
    RequeueAlone(c, OTHERS);
    assert PutBack(c, OTHERS) == Waiting(burst, OTHERS);
    GoesFirst(Alone(c), 0, Req(0, OTHERS), ops, m, Trail([ONE], Some(MINE)), sent);
  }

  /** One byte is sent, a foreign byte is put back and takes its record off the log, and a whole burst
      follows at the same instant.
   */
  lemma {:induction false} MissedRecordFails(burst: Size, m: Size) returns (ops: seq<Op>, sent: seq<Send>)
    requires burst > 0 && m > 0
    ensures Goes(Alone(Instant(burst, [], 0)), 0, ops, m, NOTHING, sent)
    ensures Sum(Window(sent, 0, 0)) == burst + 1
  {
    hide Goes;
    var rest;
    ops, rest := RestGoes(burst, m, Trail([ONE] + [ONE], Some(OTHERS)));
    sent := ([ONE] + [ONE]) + rest;
    ByteGoes(burst, OTHERS, ops, m, Trail([ONE], Some(MINE)), sent);
    ops := [Deq(0, 0)] + ops;
    MissedGoes(burst, ops, m, sent);
    ops := [Req(0, OTHERS)] + ops;
    assert [] + [ONE] == [ONE];
    ByteGoes(burst, MINE, ops, m, NOTHING, sent);
    ops := [Deq(0, 0)] + ops;
    var c := Instant(burst, [], 0);
    EnqueueAlone(c, MINE, 0);
    assert Append(c, MINE, 0) == Waiting(burst, MINE);
    GoesFirst(Alone(c), 0, Enq(0, MINE, 0, false), ops, m, NOTHING, sent);
    ops := [Enq(0, MINE, 0, false)] + ops;
    TwoMore(rest);
  }

  lemma TwoMore(rest: seq<Send>)
    requires Window(rest, 0, 0) == rest
    ensures Sum(Window([ONE] + [ONE] + rest, 0, 0)) == Sum(rest) + 2
  {
    var a, b := [ONE] + rest, [ONE] + [ONE] + rest;
    assert a[1..] == rest && b[1..] == a;
    assert Window(a, 0, 0) == [ONE] + rest && Window(b, 0, 0) == [ONE] + ([ONE] + rest);
  }

  // ---------- the condition ----------

  /** What the guarantee promises about one run of non-empty PDUs, whose requeues take at most `d`
      bytes more off the log than come back.
   */
  ghost predicate KeptCovered(ps: seq<Port>, ops: seq<Op>, burst: Size, m: nat, d: nat, i: nat, k: nat, from: int) {
    && Fresh(ps) && Runs(ps, ops) && Clocked(0, ops) && SmallOps(ops, m) && NonEmpty(ops)
    && CoveredRun(ps, ops, i, k, NOTHING, d)
    && i < |ps| && k < |ps[i].classes| && ps[i].classes[k].params.limitOut
    && ps[i].classes[k].params.oBurstS == burst
    ==> Sum(Window(TrailAfter(ps, ops, i, k, NOTHING).sent, from, from + ps[i].classes[k].params.oBurstT)) <= burst
  }

  /** Where limit and PDU fit 32 bits, what a limited class sends for good stays within the burst in
      all runs, undos or not, whose requeues take at most `d` bytes more off the log than come back,
      if and only if `d` is 0.
   */
  lemma {:induction false} CoveredRateHoldsIff(burst: Size, m: Size, d: nat)
    requires 1 <= burst && 1 <= m && burst + m < U32
    ensures (forall ps, ops, i, k, from :: KeptCovered(ps, ops, burst, m, d, i, k, from)) <==> d == 0
  {
    if d == 0 {
      forall ps, ops, i, k, from ensures KeptCovered(ps, ops, burst, m, d, i, k, from) {
        KeptWhenCovered(ps, ops, burst, m, i, k, from);
      }
    } else {
      var ps := Alone(Instant(burst, [], 0));
      var ops, sent := MissedRecordFails(burst, m);
      MoreCovers(ps, ops, 0, 0, NOTHING, 1, d);
      assert !KeptCovered(ps, ops, burst, m, d, 0, 0, 0);
    }
  }

  lemma KeptWhenCovered(ps: seq<Port>, ops: seq<Op>, burst: Size, m: Size, i: nat, k: nat, from: int)
    requires burst + m < U32
    ensures KeptCovered(ps, ops, burst, m, 0, i, k, from)
  {
    hide Fresh, Runs, Clocked, SmallOps, NonEmpty, CoveredRun, Window, TrailAfter, Sum;
    if && Fresh(ps) && Runs(ps, ops) && Clocked(0, ops) && SmallOps(ops, m) && CoveredRun(ps, ops, i, k, NOTHING, 0)
       && i < |ps| && k < |ps[i].classes| && ps[i].classes[k].params.limitOut
       && ps[i].classes[k].params.oBurstS == burst
    {
      CoveredRateGuarantee(ps, ops, m, i, k, from);
    }
  }

  lemma {:induction false} MoreCovers(ps: seq<Port>, ops: seq<Op>, i: nat, k: nat, tr: Trail, d: nat, more: nat)
    requires Runs(ps, ops) && CoveredRun(ps, ops, i, k, tr, d) && d <= more
    ensures CoveredRun(ps, ops, i, k, tr, more)
    decreases |ops|
  {
    hide Step, PairedPorts, Faults, Reaches, GivesBack, TrailStep;
    if ops != [] { MoreCovers(Step(ps, ops[0]), ops[1..], i, k, TrailStep(ps, ops[0], i, k, tr), d, more); }
  }
}
