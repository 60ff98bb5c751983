/** When the burst limit fails. With a limit and PDUs that together pass 32 bits, `send_size`
    wraps in the test and the class sends too much; with requeues, the log forgets the oldest
    send in place of the one undone.
 */
module DeltaQWrap {
  import opened DeltaQSpec
  import opened DeltaQLedger
  import opened DeltaQRate

  /** One port with one class. */
  function Alone(c: Class): seq<Port> {
    [Port(0, |c.queue|, [c])]
  }

  lemma EnqueueAlone(c: Class, p: Pdu, now: int)
    requires Paired(c) && c.key == p.qos
    ensures var op := Enq(0, p, now, false);
            Enabled(Alone(c), op) && SentBy(Alone(c), op, 0, 0) == [] && Step(Alone(c), op) == Alone(Append(c, p, now))
  {
    assert FindPort(Alone(c), 0) == 0 && FindClass([c], p.qos) == 0;
    assert EnqueueAt(Alone(c)[0], 0, p, now) == Alone(Append(c, p, now))[0];
  }

  lemma DequeueAlone(c: Class, now: int)
    requires Paired(c) && c.wtimes != [] && Eligible(Touch(c, now)) && Slack(c, now) < KTIME_MAX
    ensures var op := Deq(0, now);
            && Enabled(Alone(c), op) && SentBy(Alone(c), op, 0, 0) == [Send(c.queue[0].size, now)]
            && Touch(c, now).queue == c.queue && Touch(c, now).wtimes == c.wtimes
            && Step(Alone(c), op) == Alone(Take(Touch(c, now), now))
  {
    var t := Touch(c, now);
    ExpireKeeps(c, now - c.params.oBurstT);
    assert TouchAll([c], now) == [t];
    assert Best([t], 0, now) == (1, KTIME_MAX);
    assert Best([t], 1, now) == (0, Slack(t, now));
    assert FindPort(Alone(c), 0) == 0 && Chosen(Alone(c)[0], now) == 0;
    assert DeltaQSpec.Dequeue(Alone(c)[0], now) == Alone(Take(t, now))[0];
  }

  lemma RequeueAlone(c: Class, p: Pdu)
    requires Paired(c) && c.key == p.qos && (c.params.limitOut ==> c.log != [])
    ensures var op := Req(0, p);
            Enabled(Alone(c), op) && SentBy(Alone(c), op, 0, 0) == [] && Step(Alone(c), op) == Alone(PutBack(c, p))
  {
    assert FindPort(Alone(c), 0) == 0 && FindClass([c], p.qos) == 0;
    assert RequeueAt(Alone(c)[0], 0, p) == Alone(PutBack(c, p))[0];
  }

  lemma Sequenced(ps: seq<Port>, op: Op, rest: seq<Op>)
    requires Enabled(ps, op) && Runs(Step(ps, op), rest)
    ensures Runs(ps, [op] + rest)
    ensures Sends(ps, [op] + rest, 0, 0) == SentBy(ps, op, 0, 0) + Sends(Step(ps, op), rest, 0, 0)
  {
    assert ([op] + rest)[1..] == rest;
  }

  // ---------- without room in 32 bits ----------

  /** A class whose window is a single instant, with an empty queue. */
  function Instant(burst: Size, log: seq<Send>, sent: Size): Class {
    Class(0, Params(true, 0, burst, 0, 0), [], [], log, sent, 0)
  }

  function PduOf(size: Size): Pdu {
    Pdu(0, 0, size)
  }

  /** The PDUs one after the other, each enqueued and asked for at once. */
  function Batch(sizes: seq<Size>): seq<Op> {
    if sizes == [] then [] else [Enq(0, PduOf(sizes[0]), 0, false)] + ([Deq(0, 0)] + Batch(sizes[1..]))
  }

  function Sent(sizes: seq<Size>): seq<Send> {
    if sizes == [] then [] else [Send(sizes[0], 0)] + Sent(sizes[1..])
  }

  /** Every PDU passes the 32-bit test. */
  predicate Passes(sent: Size, sizes: seq<Size>, burst: Size)
    decreases |sizes|
  {
    sizes == [] || (Wrap(sent + sizes[0]) <= burst && Passes(Wrap(sent + sizes[0]), sizes[1..], burst))
  }

  predicate AllNow(log: seq<Send>) {
    forall j :: 0 <= j < |log| ==> log[j].time == 0
  }

  lemma DequeueOne(burst: Size, log: seq<Send>, sent: Size, size: Size)
    requires AllNow(log) && Wrap(sent + size) <= burst
    ensures var c := Append(Instant(burst, log, sent), PduOf(size), 0);
            && Enabled(Alone(c), Deq(0, 0)) && SentBy(Alone(c), Deq(0, 0), 0, 0) == [Send(size, 0)]
            && Step(Alone(c), Deq(0, 0)) == Alone(Instant(burst, log + [Send(size, 0)], Wrap(sent + size)))
  {
    var c := Append(Instant(burst, log, sent), PduOf(size), 0);
    assert Touch(c, 0) == c;
    DequeueAlone(c, 0);
    assert Take(c, 0) == Instant(burst, log + [Send(size, 0)], Wrap(sent + size));
  }

  /** PDUs that pass the test are all sent at once. */
  lemma {:induction false} BatchIsSent(burst: Size, log: seq<Send>, sent: Size, sizes: seq<Size>)
    requires AllNow(log) && Passes(sent, sizes, burst)
    ensures Runs(Alone(Instant(burst, log, sent)), Batch(sizes))
    ensures Sends(Alone(Instant(burst, log, sent)), Batch(sizes), 0, 0) == Sent(sizes)
    decreases |sizes|
  {
    if sizes != [] {
      var size, ps := sizes[0], Alone(Instant(burst, log, sent));
      EnqueueAlone(Instant(burst, log, sent), PduOf(size), 0);
      DequeueOne(burst, log, sent, size);
      hide Enabled, Step, SentBy;
      BatchIsSent(burst, log + [Send(size, 0)], Wrap(sent + size), sizes[1..]);
      Sequenced(Step(ps, Enq(0, PduOf(size), 0, false)), Deq(0, 0), Batch(sizes[1..]));
      Sequenced(ps, Enq(0, PduOf(size), 0, false), [Deq(0, 0)] + Batch(sizes[1..]));
    }
  }

  lemma {:induction false} BatchIsPlain(sizes: seq<Size>, m: nat)
    requires forall j :: 0 <= j < |sizes| ==> sizes[j] <= m
    ensures Clocked(0, Batch(sizes)) && NoRequeue(Batch(sizes)) && SmallOps(Batch(sizes), m)
  {
    if sizes != [] {
      BatchIsPlain(sizes[1..], m);
      var rest, ops := Batch(sizes[1..]), Batch(sizes);
      assert ops[1..] == [Deq(0, 0)] + rest && ops[1..][1..] == rest;
      assert forall j :: 2 <= j < |ops| ==> ops[j] == rest[j - 2];
    }
  }

  /** PDUs of at most `m` that fill the limit up, then one of `m` that should not pass. */
  function Fill(left: Size, m: Size): (r: seq<Size>)
    requires m > 0
    ensures forall j :: 0 <= j < |r| ==> r[j] <= m
  {
    if left <= m then [left, m] else [m] + Fill(left - m, m)
  }

  lemma {:induction false} FillPasses(sent: Size, burst: Size, m: Size)
    requires m > 0 && sent <= burst && burst + m >= U32
    ensures Passes(sent, Fill(burst - sent, m), burst)
    ensures Sum(Sent(Fill(burst - sent, m))) == burst - sent + m
    decreases burst - sent
  {
    var sizes := Fill(burst - sent, m);
    if burst - sent <= m {
      assert sizes[1..] == [m] && [m][1..] == [];
      assert Wrap(burst + m) == burst + m - U32;
      assert Sent([m]) == [Send(m, 0)] && Sum([Send(m, 0)]) == m;
      assert Sent(sizes) == [Send(burst - sent, 0)] + [Send(m, 0)];
    } else {
      FillPasses(sent + m, burst, m);
      assert sizes[1..] == Fill(burst - sent - m, m);
    }
  }

  lemma {:induction false} AllInWindow(sizes: seq<Size>)
    ensures Window(Sent(sizes), 0, 0) == Sent(sizes)
  {
    if sizes != [] { AllInWindow(sizes[1..]); }
  }

  /** What the rate guarantee promises about one run. */
  ghost predicate Kept(ps: seq<Port>, ops: seq<Op>, burst: Size, m: nat, i: nat, k: nat, from: int) {
    Fresh(ps) && Runs(ps, ops) && Clocked(0, ops) && NoRequeue(ops) && SmallOps(ops, m)
    && i < |ps| && k < |ps[i].classes| && ps[i].classes[k].params.limitOut && ps[i].classes[k].params.oBurstS == burst
    ==> Sum(Window(Sends(ps, ops, i, k), from, from + ps[i].classes[k].params.oBurstT)) <= burst
  }

  /** For a burst size and a bound on the PDUs, it holds of all runs if and only if the two
      together fit 32 bits.
   */
  lemma {:induction false} RateHoldsIff(burst: Size, m: Size)
    ensures (forall ps, ops, i, k, from :: Kept(ps, ops, burst, m, i, k, from)) <==> burst + m < U32
  {
    if burst + m < U32 {
      forall ps, ops, i, k, from ensures Kept(ps, ops, burst, m, i, k, from) {
        KeptWhenFits(ps, ops, burst, m, i, k, from);
      }
    } else {
      var ps, ops := Overflow(burst, m);
      assert !Kept(ps, ops, burst, m, 0, 0, 0);
    }
  }

  lemma KeptWhenFits(ps: seq<Port>, ops: seq<Op>, burst: Size, m: Size, i: nat, k: nat, from: int)
    requires burst + m < U32
    ensures Kept(ps, ops, burst, m, i, k, from)
  {
    hide Fresh, Runs, Clocked, NoRequeue, SmallOps, Window, Sends, Sum;
    if && Fresh(ps) && Runs(ps, ops) && Clocked(0, ops) && NoRequeue(ops) && SmallOps(ops, m)
       && i < |ps| && k < |ps[i].classes| && ps[i].classes[k].params.limitOut
       && ps[i].classes[k].params.oBurstS == burst
    {
      RateGuarantee(ps, ops, m, i, k, from);
    }
  }

  /** Without room for one more PDU, a class can send `m` bytes over its limit at one instant. */
  lemma {:induction false} Overflow(burst: Size, m: Size) returns (ps: seq<Port>, ops: seq<Op>)
    requires burst + m >= U32
    ensures !Kept(ps, ops, burst, m, 0, 0, 0)
    ensures Runs(ps, ops) && Sum(Window(Sends(ps, ops, 0, 0), 0, 0)) == burst + m
  {
    var sizes := Fill(burst, m);
    ps, ops := Alone(Instant(burst, [], 0)), Batch(sizes);
    FillPasses(0, burst, m);
    BatchIsSent(burst, [], 0, sizes);
    BatchIsPlain(sizes, m);
    AllInWindow(sizes);
  }

  // ---------- with a requeue ----------

  /** At most 10 bytes in any 5 time units. */
  function Limited(queue: seq<Pdu>, wtimes: seq<int>, log: seq<Send>, sent: Size): Class {
    Class(0, Params(true, 5, 10, 0, 0), queue, wtimes, log, sent, 0)
  }

  /** The bytes put back. */
  function Returned(ops: seq<Op>): int {
    if ops == [] then 0 else (if ops[0].Req? then ops[0].p.size else 0) + Returned(ops[1..])
  }

  /** A run of the class, no earlier than `t`, with what it sends and the bytes it puts back. */
  predicate Yields(c: Class, t: int, ops: seq<Op>, sends: seq<Send>, back: int) {
    Runs(Alone(c), ops) && Clocked(t, ops) && Sends(Alone(c), ops, 0, 0) == sends && Returned(ops) == back
  }

  lemma YieldsNothing(c: Class, t: int)
    ensures Yields(c, t, [], [], 0)
  {
  }

  lemma EnqueueFirst(c: Class, p: Pdu, t: int, ops: seq<Op>, sends: seq<Send>, back: int)
    requires Paired(c) && c.key == p.qos && Yields(Append(c, p, t), t, ops, sends, back)
    ensures Yields(c, t, [Enq(0, p, t, false)] + ops, sends, back)
  {
    EnqueueAlone(c, p, t);
    hide Enabled, Step, SentBy;
    Sequenced(Alone(c), Enq(0, p, t, false), ops);
    assert ([Enq(0, p, t, false)] + ops)[1..] == ops;
  }

  lemma DequeueFirst(c: Class, d: Class, t: int, now: int, ops: seq<Op>, sends: seq<Send>, back: int)
    requires t <= now && Paired(c) && c.wtimes != [] && Eligible(Touch(c, now)) && Slack(c, now) < KTIME_MAX
    requires Touch(c, now).wtimes != [] && Take(Touch(c, now), now) == d && Yields(d, now, ops, sends, back)
    ensures Yields(c, t, [Deq(0, now)] + ops, [Send(c.queue[0].size, now)] + sends, back)
  {
    DequeueAlone(c, now);
    hide Enabled, Step, SentBy, Take, Touch;
    Sequenced(Alone(c), Deq(0, now), ops);
    assert ([Deq(0, now)] + ops)[1..] == ops;
  }

  lemma RequeueFirst(c: Class, p: Pdu, t: int, ops: seq<Op>, sends: seq<Send>, back: int)
    requires Paired(c) && c.key == p.qos && c.log != [] && Yields(PutBack(c, p), t, ops, sends, back)
    ensures Yields(c, t, [Req(0, p)] + ops, sends, back + p.size)
  {
    RequeueAlone(c, p);
    hide Enabled, Step, SentBy;
    Sequenced(Alone(c), Req(0, p), ops);
    assert ([Req(0, p)] + ops)[1..] == ops;
  }

  const X := Pdu(0, 0, 6)
  const Y := Pdu(1, 0, 4)
  const Z := Pdu(2, 0, 2)
  const FIRST := Limited([], [], [], 0)
  const FILLED := Limited([X, Y, Z], [0, 0, 0], [], 0)
  const UNDONE := Limited([Y, Z], [0, 0], [Send(4, 4)], 4)

  lemma Filled(ops: seq<Op>, sends: seq<Send>, back: int) returns (all: seq<Op>)
    requires Yields(FILLED, 0, ops, sends, back)
    ensures Yields(FIRST, 0, all, sends, back)
  {
    hide Yields;
    var c1, c2 := Limited([X], [0], [], 0), Limited([X, Y], [0, 0], [], 0);
    assert Append(FIRST, X, 0) == c1 && Append(c1, Y, 0) == c2 && Append(c2, Z, 0) == FILLED;
    EnqueueFirst(c2, Z, 0, ops, sends, back);
    EnqueueFirst(c1, Y, 0, [Enq(0, Z, 0, false)] + ops, sends, back);
    EnqueueFirst(FIRST, X, 0, [Enq(0, Y, 0, false)] + ([Enq(0, Z, 0, false)] + ops), sends, back);
    all := [Enq(0, X, 0, false)] + ([Enq(0, Y, 0, false)] + ([Enq(0, Z, 0, false)] + ops));
  }

  /** Sends 6 bytes at time 0 and 4 at time 4, and puts the 4 back. */
  lemma Undone(ops: seq<Op>, sends: seq<Send>) returns (all: seq<Op>)
    requires Yields(UNDONE, 4, ops, sends, 0)
    ensures Yields(FILLED, 0, all, [Send(6, 0)] + ([Send(4, 4)] + sends), 4)
  {
    hide Yields;
    var c4, c5 := Limited([Y, Z], [0, 0], [Send(6, 0)], 6), Limited([Z], [0], [Send(6, 0), Send(4, 4)], 10);
    assert Take(Touch(FILLED, 0), 0) == c4;
    assert Take(Touch(c4, 4), 4) == c5;
    assert PutBack(c5, Y) == UNDONE;
    RequeueFirst(c5, Y, 4, ops, sends, 0);
    DequeueFirst(c4, c5, 0, 4, [Req(0, Y)] + ops, sends, 4);
    DequeueFirst(FILLED, c4, 0, 0, [Deq(0, 4)] + ([Req(0, Y)] + ops), [Send(4, 4)] + sends, 4);
    all := [Deq(0, 0)] + ([Deq(0, 4)] + ([Req(0, Y)] + ops));
  }

  /** Sends the 4 again and 2 more at time 5. */
  lemma SentAgain() returns (ops: seq<Op>)
    ensures Yields(UNDONE, 4, ops, [Send(4, 5)] + ([Send(2, 5)] + []), 0)
  {
    hide Yields;
    var c7 := Limited([Z], [0], [Send(4, 4), Send(4, 5)], 8);
    var c8 := Limited([], [], [Send(4, 4), Send(4, 5), Send(2, 5)], 10);
    assert Take(Touch(UNDONE, 5), 5) == c7;
    assert Take(Touch(c7, 5), 5) == c8;
    YieldsNothing(c8, 5);
    DequeueFirst(c7, c8, 5, 5, [], [], 0);
    DequeueFirst(UNDONE, c7, 4, 5, [Deq(0, 5)] + [], [Send(2, 5)] + [], 0);
    ops := [Deq(0, 5)] + ([Deq(0, 5)] + []);
  }

  /** When the 4 bytes are put back the record of the 6 goes, so that 16 - 4 bytes leave for good
      within 5 time units, where 10 are allowed.
   */
  lemma RequeueForgets() returns (ops: seq<Op>)
    ensures var ps := Alone(FIRST);
            && Fresh(ps) && Runs(ps, ops) && Clocked(0, ops) && FIRST.params == Params(true, 5, 10, 0, 0)
            && Sum(Window(Sends(ps, ops, 0, 0), 0, 5)) - Returned(ops) == 12
  {
    ops := SentAgain();
    ops := Undone(ops, [Send(4, 5)] + ([Send(2, 5)] + []));
    ops := Filled(ops, [Send(6, 0)] + ([Send(4, 4)] + ([Send(4, 5)] + ([Send(2, 5)] + []))), 4);
    SixteenBytes();
    hide Runs, Sends, Window;
    assert Yields(FIRST, 0, ops, [Send(6, 0), Send(4, 4), Send(4, 5), Send(2, 5)], 4) by {
      assert [Send(6, 0)] + ([Send(4, 4)] + ([Send(4, 5)] + ([Send(2, 5)] + []))) ==
             [Send(6, 0), Send(4, 4), Send(4, 5), Send(2, 5)];
    }
  }

  lemma SixteenBytes()
    ensures Sum(Window([Send(6, 0), Send(4, 4), Send(4, 5), Send(2, 5)], 0, 5)) == 16
  {
    var d, c := [Send(2, 5)], [Send(4, 5), Send(2, 5)];
    var b := [Send(4, 4), Send(4, 5), Send(2, 5)];
    var a := [Send(6, 0), Send(4, 4), Send(4, 5), Send(2, 5)];
    assert d[1..] == [] && c[1..] == d && b[1..] == c && a[1..] == b;
    assert Window(d, 0, 5) == d && Window(c, 0, 5) == c && Window(b, 0, 5) == b && Window(a, 0, 5) == a;
    assert Sum(d) == 2 && Sum(c) == 6 && Sum(b) == 10;
  }
}
