/** Which class a dequeue serves, in terms of how late the heads are: a late one before one in
    time, among late ones by lateness times the multiplier of the class, among others the one that
    is due first.
 */
module DeltaQUrgency {
  import opened DeltaQSpec
  import opened DeltaQLedger
  import opened DeltaQOrder

  /** How long the head of the class is past its allowed wait. */
  function Lateness(c: Class, now: int): int
    requires c.wtimes != []
  {
    now - c.params.oExWaitT - c.wtimes[0]
  }

  /** Class `c` has a claim to service no weaker than that of `d`. */
  predicate AsUrgent(c: Class, d: Class, now: int)
    requires c.wtimes != [] && d.wtimes != []
  {
    var l, k := Lateness(c, now), Lateness(d, now);
    if k > 0 then l > 0 && l * c.params.oMulOver >= k * d.params.oMulOver else l > 0 || l >= k
  }

  predicate Scaled(port: Port) {
    forall k :: 0 <= k < |port.classes| ==> port.classes[k].params.oMulOver > 0
  }

  /** A head in time that is so early that its scaled slack reaches KTIME_MAX is passed over. */
  predicate TooEarly(c: Class, now: int)
    requires c.wtimes != []
  {
    -Lateness(c, now) * 100 >= KTIME_MAX
  }

  lemma LessSlack(c: Class, d: Class, now: int)
    requires c.wtimes != [] && d.wtimes != [] && c.params.oMulOver > 0 && d.params.oMulOver > 0
    ensures Slack(c, now) <= Slack(d, now) <==> AsUrgent(c, d, now)
  {
    var l, k := Lateness(c, now), Lateness(d, now);
    assert (-l) * c.params.oMulOver == -(l * c.params.oMulOver);
    assert (-k) * d.params.oMulOver == -(k * d.params.oMulOver);
    assert l > 0 ==> l * c.params.oMulOver > 0;
    assert k > 0 ==> k * d.params.oMulOver > 0;
  }

  lemma MuchSlack(c: Class, now: int)
    requires c.wtimes != [] && c.params.oMulOver > 0
    ensures Slack(c, now) >= KTIME_MAX <==> TooEarly(c, now)
  {
    var l := Lateness(c, now);
    assert l > 0 ==> (-l) * c.params.oMulOver < 0;
  }

  /** The class served is as urgent as any that can be served, and more urgent than those before
      it; nothing is served only when all that could be are too early.
   */
  lemma {:induction false} ServesMostUrgent(port: Port, now: int, now': int)
    requires PortInv(port, now) && now <= now' && Scaled(port)
    ensures AllPaired(port)
    ensures forall k :: 0 <= k < |port.classes| && Servable(port.classes[k], now') ==> port.classes[k].wtimes != []
    ensures var cs, b := port.classes, Chosen(port, now');
            if b < |cs| then
              && Servable(cs[b], now') && !TooEarly(cs[b], now')
              && (forall k :: 0 <= k < |cs| && Servable(cs[k], now') ==> AsUrgent(cs[b], cs[k], now'))
              && (forall k :: 0 <= k < b && Servable(cs[k], now') ==> !AsUrgent(cs[k], cs[b], now'))
            else forall k :: 0 <= k < |cs| && Servable(cs[k], now') ==> TooEarly(cs[k], now')
  {
    hide Slack, Chosen, AsUrgent, TooEarly;
    var cs, b := port.classes, Chosen(port, now');
    ChosenIsFirstLeast(port, now, now');
    forall k | 0 <= k < |cs| && Servable(cs[k], now') ensures cs[k].wtimes != [] {
      assert ClassInv(cs[k], now);
    }
    hide Servable;
    if b < |cs| { MuchSlack(cs[b], now'); }
    forall k | 0 <= k < |cs| && Servable(cs[k], now')
      ensures Slack(cs[k], now') >= KTIME_MAX <==> TooEarly(cs[k], now')
      ensures b < |cs| ==> (Slack(cs[b], now') <= Slack(cs[k], now') <==> AsUrgent(cs[b], cs[k], now'))
      ensures b < |cs| ==> (Slack(cs[k], now') <= Slack(cs[b], now') <==> AsUrgent(cs[k], cs[b], now'))
    {
      MuchSlack(cs[k], now');
      if b < |cs| {
        LessSlack(cs[b], cs[k], now');
        LessSlack(cs[k], cs[b], now');
      }
    }
  }

  /** So a late class comes before all that are in time. */
  lemma {:induction false} LateFirst(port: Port, now: int, now': int, k: nat)
    requires PortInv(port, now) && now <= now' && Scaled(port) && k < |port.classes|
    requires Servable(port.classes[k], now')
    ensures AllPaired(port) && port.classes[k].wtimes != []
    ensures var cs, b := port.classes, Chosen(port, now');
            Lateness(cs[k], now') > 0 ==>
              b < |cs| && cs[b].wtimes != [] && Lateness(cs[b], now') > 0
              && Lateness(cs[b], now') * cs[b].params.oMulOver >= Lateness(cs[k], now') * cs[k].params.oMulOver
  {
    ServesMostUrgent(port, now, now');
    hide Servable, Chosen;
  }

  /** What this promises about one port whose classes all have the multiplier `mul`. */
  ghost predicate LateServed(port: Port, now: int, now': int, mul: int, k: nat) {
    && PortInv(port, now) && now <= now' && AllPaired(port) && k < |port.classes|
    && (forall j :: 0 <= j < |port.classes| ==> port.classes[j].params.oMulOver == mul)
    && Servable(port.classes[k], now') && port.classes[k].wtimes != [] && Lateness(port.classes[k], now') > 0
    ==>
      var b := Chosen(port, now');
      b < |port.classes| && port.classes[b].wtimes != [] && Lateness(port.classes[b], now') > 0
  }

  function Head(key: nat, mul: int, at: int): Class {
    Class(key, Params(false, 0, 0, 0, mul), [Pdu(key, key, 1)], [at], [], 0, 0)
  }

  /** One class just due, and after it one that is late by 1. */
  function DueAndLate(mul: int): seq<Class> {
    [Head(0, mul, 1), Head(1, mul, 0)]
  }

  lemma DueAndLateInv(mul: int)
    ensures PortInv(Port(0, 2, DueAndLate(mul)), 1) && AllPaired(Port(0, 2, DueAndLate(mul)))
    ensures Servable(Head(0, mul, 1), 1) && Servable(Head(1, mul, 0), 1)
  {
    var cs := DueAndLate(mul);
    assert cs[1..] == [Head(1, mul, 0)] && cs[1..][1..] == [];
    assert Queued(cs[1..]) == 1 && Queued(cs) == 2;
    assert Sum([]) == 0;
  }

  /** With a multiplier that is not positive the late class has no less slack. */
  lemma DueChosen(mul: int)
    requires mul <= 0 && AllPaired(Port(0, 2, DueAndLate(mul)))
    ensures Chosen(Port(0, 2, DueAndLate(mul)), 1) == 0
  {
    var cs := DueAndLate(mul);
    assert TouchAll(cs, 1) == cs;
    assert forall j :: 0 <= j < 2 ==> Paired(cs[j]);
    assert Slack(cs[0], 1) == 0 && Slack(cs[1], 1) == -mul;
    hide Slack;
    assert Best(cs, 0, 1) == (2, KTIME_MAX);
    assert Best(cs, 1, 1) == (0, 0);
  }

  lemma LatePassedOver(mul: int)
    requires mul <= 0
    ensures !LateServed(Port(0, 2, DueAndLate(mul)), 1, 1, mul, 1)
  {
    DueAndLateInv(mul);
    DueChosen(mul);
    hide PortInv, AllPaired, Servable, Chosen;
  }

  /** Late classes come first on all ports with that multiplier if and only if it is positive. */
  lemma {:induction false} LateFirstIff(mul: int)
    ensures (forall port, now, now', k :: LateServed(port, now, now', mul, k)) <==> mul > 0
  {
    if mul > 0 {
      forall port, now, now', k ensures LateServed(port, now, now', mul, k) {
        LateServedWhenScaled(port, now, now', mul, k);
      }
    } else {
      LatePassedOver(mul);
    }
  }

  lemma LateServedWhenScaled(port: Port, now: int, now': int, mul: int, k: nat)
    requires mul > 0
    ensures LateServed(port, now, now', mul, k)
  {
    hide Servable, Chosen, PortInv, Lateness;
    if && PortInv(port, now) && now <= now' && k < |port.classes| && Servable(port.classes[k], now')
       && forall j :: 0 <= j < |port.classes| ==> port.classes[j].params.oMulOver == mul
    {
      LateFirst(port, now, now', k);
    }
  }
}
