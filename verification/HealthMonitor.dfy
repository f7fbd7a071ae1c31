/** The node health monitor: a failure counter per node, and the events it raises. */
module HealthMonitor {
  import opened Text

  datatype Status = Status(healthy: bool, failures: nat, portsOpen: map<nat, bool>)

  datatype Event =
    | Changed(node: string, healthy: bool, failures: nat)
    | Alert(node: string, failures: nat)

  datatype Health = Health(results: map<string, Status>, events: seq<Event>)

  function Failures(prev: Option<Status>, healthy: bool): nat {
    if prev.Some? && !healthy then prev.value.failures + 1 else 0
  }

  /** What one check of a node emits, given the previous result. */
  function Emitted(node: string, prev: Option<Status>, healthy: bool): seq<Event> {
    var failures := Failures(prev, healthy);
    (if prev.Some? && prev.value.healthy != healthy then [Changed(node, healthy, failures)] else [])
    + (if failures >= 3 && failures % 3 == 0 then [Alert(node, failures)] else [])
  }

  function Lookup(h: Health, node: string): Option<Status> {
    if node in h.results then Some(h.results[node]) else None
  }

  /** The outcome of probing one node's ports. */
  datatype Check = Check(node: string, healthy: bool, portsOpen: map<nat, bool>)

  function Observe(h: Health, c: Check): Health {
    var prev := Lookup(h, c.node);
    Health(h.results[c.node := Status(c.healthy, Failures(prev, c.healthy), c.portsOpen)],
           h.events + Emitted(c.node, prev, c.healthy))
  }

  /** The state after a sequence of checks of any nodes, from an empty monitor. */
  function Run(checks: seq<Check>): Health {
    if checks == [] then Health(map[], [])
    else Observe(Run(checks[..|checks| - 1]), checks[|checks| - 1])
  }

  // ---------------------------------------------------------------- what the checks of a node should give

  /** The outcomes of the checks of one node, oldest first. */
  function Outcomes(checks: seq<Check>, node: string): (hs: seq<bool>)
    ensures |hs| <= |checks|
  {
    if checks == [] then []
    else
      var c := checks[|checks| - 1];
      var rest := Outcomes(checks[..|checks| - 1], node);
      if c.node == node then rest + [c.healthy] else rest
  }

  /** Length of the unhealthy run at the end. */
  function Trailing(hs: seq<bool>): (n: nat)
    ensures n <= |hs| && forall i | |hs| - n <= i < |hs| :: !hs[i]
    ensures n < |hs| ==> hs[|hs| - n - 1]
  {
    if hs == [] || hs[|hs| - 1] then 0 else Trailing(hs[..|hs| - 1]) + 1
  }

  /** The unhealthy run at the end, not counting the node's very first check. */
  function Counted(hs: seq<bool>): nat {
    if Trailing(hs) == |hs| && hs != [] then |hs| - 1 else Trailing(hs)
  }

  /** The new outcome at each check that differs from the one before. */
  function Flips(hs: seq<bool>): seq<bool> {
    if |hs| < 2 then []
    else
      var n := |hs|;
      var rest := Flips(hs[..n - 1]);
      if hs[n - 1] != hs[n - 2] then rest + [hs[n - 1]] else rest
  }

  predicate Alternates(fs: seq<bool>) {
    forall i | 0 < i < |fs| :: fs[i] != fs[i - 1]
  }

  function ChangedTo(events: seq<Event>, node: string): seq<bool> {
    if events == [] then []
    else
      var e := events[|events| - 1];
      var rest := ChangedTo(events[..|events| - 1], node);
      if e.Changed? && e.node == node then rest + [e.healthy] else rest
  }

  function Alerts(events: seq<Event>, node: string): nat {
    if events == [] then 0
    else
      var e := events[|events| - 1];
      Alerts(events[..|events| - 1], node) + if e.Alert? && e.node == node then 1 else 0
  }

  // ---------------------------------------------------------------- the counter

  lemma TraceStep(hs: seq<bool>, h: bool)
    ensures Counted(hs + [h]) == if h || hs == [] then 0 else Counted(hs) + 1
    ensures Flips(hs + [h]) == if hs != [] && h != hs[|hs| - 1] then Flips(hs) + [h] else Flips(hs)
  {
    var more := hs + [h];
    assert more[..|more| - 1] == hs;
  }

  lemma {:induction false} StatusOfNode(checks: seq<Check>, node: string)
    ensures var hs := Outcomes(checks, node);
            match Lookup(Run(checks), node)
            case None => hs == []
            case Some(st) => hs != [] && st.healthy == hs[|hs| - 1] && st.failures == Counted(hs)
  {
    hide Counted, Emitted;
    if checks != [] {
      var before, c := checks[..|checks| - 1], checks[|checks| - 1];
      StatusOfNode(before, node);
      TraceStep(Outcomes(before, node), c.healthy);
    }
  }

  // ---------------------------------------------------------------- change events

  lemma {:induction false} EventsConcat(events: seq<Event>, more: seq<Event>, node: string)
    ensures ChangedTo(events + more, node) == ChangedTo(events, node) + ChangedTo(more, node)
    ensures Alerts(events + more, node) == Alerts(events, node) + Alerts(more, node)
  {
    if more == [] {
      assert events + more == events;
    } else {
      var k, all := |more| - 1, events + more;
      assert all[..|all| - 1] == events + more[..k] && all[|all| - 1] == more[k];
      EventsConcat(events, more[..k], node);
    }
  }

  lemma OneEvent(e: Event, node: string)
    ensures ChangedTo([e], node) == if e.Changed? && e.node == node then [e.healthy] else []
    ensures Alerts([e], node) == if e.Alert? && e.node == node then 1 else 0
  {
    assert [e][..0] == [];
  }

  lemma EmittedFor(node: string, n: string, prev: Option<Status>, healthy: bool)
    ensures ChangedTo(Emitted(n, prev, healthy), node)
            == if n == node && prev.Some? && prev.value.healthy != healthy then [healthy] else []
    ensures Alerts(Emitted(n, prev, healthy), node)
            == if n == node && Failures(prev, healthy) >= 3 && Failures(prev, healthy) % 3 == 0 then 1 else 0
  {
    hide ChangedTo, Alerts;
    var failures := Failures(prev, healthy);
    var changed := if prev.Some? && prev.value.healthy != healthy then [Changed(n, healthy, failures)] else [];
    var alert := if failures >= 3 && failures % 3 == 0 then [Alert(n, failures)] else [];
    EventsConcat(changed, alert, node);
    NoEvents(node);
    OneEvent(Changed(n, healthy, failures), node);
    OneEvent(Alert(n, failures), node);
  }

  lemma NoEvents(node: string)
    ensures ChangedTo([], node) == [] && Alerts([], node) == 0
  {
  }

  lemma RunStep(before: seq<Check>, c: Check, node: string)
    ensures Run(before + [c]) == Observe(Run(before), c)
    ensures Outcomes(before + [c], node)
            == if c.node == node then Outcomes(before, node) + [c.healthy] else Outcomes(before, node)
  {
    hide Observe;
    var all := before + [c];
    assert all[..|all| - 1] == before;
  }

  /** What one more check adds to the events of a node, in terms of the node's trace. */
  lemma StepEvents(before: seq<Check>, c: Check, node: string)
    ensures var hs := Outcomes(before, node);
            var failures := if c.healthy || hs == [] then 0 else Counted(hs) + 1;
            && ChangedTo(Run(before + [c]).events, node)
               == (if c.node == node && hs != [] && c.healthy != hs[|hs| - 1]
                   then ChangedTo(Run(before).events, node) + [c.healthy]
                   else ChangedTo(Run(before).events, node))
            && Alerts(Run(before + [c]).events, node)
               == Alerts(Run(before).events, node)
                  + if c.node == node && failures >= 3 && failures % 3 == 0 then 1 else 0
  {
    hide Run, Outcomes, ChangedTo, Alerts, Counted, Emitted;
    RunStep(before, c, node);
    StatusOfNode(before, node);
    var prev := Lookup(Run(before), c.node);
    EmittedFor(node, c.node, prev, c.healthy);
    EventsConcat(Run(before).events, Emitted(c.node, prev, c.healthy), node);
  }

  /** The change events of a node are exactly its flips, in order: each says what the node
      flipped to, none is missing and none is repeated. */
  lemma {:induction false} ChangesAreFlips(checks: seq<Check>, node: string)
    ensures ChangedTo(Run(checks).events, node) == Flips(Outcomes(checks, node))
  {
    if checks == [] {
      NoEvents(node);
    } else {
      hide *;
      var before, c := checks[..|checks| - 1], checks[|checks| - 1];
      assert checks == before + [c];
      ChangesAreFlips(before, node);
      StepEvents(before, c, node);
      RunStep(before, c, node);
      TraceStep(Outcomes(before, node), c.healthy);
    }
  }

  lemma {:induction false} FlipsAlternate(hs: seq<bool>)
    ensures Alternates(Flips(hs))
    ensures Flips(hs) != [] ==> Flips(hs)[|Flips(hs)| - 1] == hs[|hs| - 1]
    ensures Flips(hs) == [] ==> forall i | 0 <= i < |hs| :: hs[i] == hs[0]
  {
    if |hs| >= 2 {
      FlipsAlternate(hs[..|hs| - 1]);
    }
  }

  /** So "down" and "up" notifications for a node strictly alternate. */
  lemma ChangesAlternate(checks: seq<Check>, node: string)
    ensures Alternates(ChangedTo(Run(checks).events, node))
  {
    ChangesAreFlips(checks, node);
    FlipsAlternate(Outcomes(checks, node));
  }

  // ---------------------------------------------------------------- what events carry

  /** A change to unhealthy counts one failure, a recovery none; an alert counts a multiple of three. */
  predicate CountFits(e: Event) {
    match e
    case Changed(_, healthy, failures) => failures == if healthy then 0 else 1
    case Alert(_, failures) => failures >= 3 && failures % 3 == 0
  }

  lemma HealthyCountsNothing(hs: seq<bool>)
    requires hs != [] && hs[|hs| - 1]
    ensures Counted(hs) == 0
  {
  }

  lemma {:induction false} EventsCarryCounts(checks: seq<Check>)
    ensures forall e | e in Run(checks).events :: CountFits(e)
  {
    hide Counted, Outcomes;
    if checks != [] {
      var before, c := checks[..|checks| - 1], checks[|checks| - 1];
      EventsCarryCounts(before);
      StatusOfNode(before, c.node);
      var hs := Outcomes(before, c.node);
      if hs != [] && hs[|hs| - 1] { HealthyCountsNothing(hs); }
    }
  }

  // ---------------------------------------------------------------- alerts

  predicate AllDown(hs: seq<bool>) {
    forall i | 0 <= i < |hs| :: !hs[i]
  }

  lemma {:induction false} TrailingAfter(pre: seq<bool>, run: seq<bool>)
    requires AllDown(run) && (pre != [] ==> pre[|pre| - 1])
    ensures Trailing(pre + run) == |run|
  {
    if run == [] {
      assert pre + run == pre;
    } else {
      assert (pre + run)[..|pre + run| - 1] == pre + run[..|run| - 1];
      TrailingAfter(pre, run[..|run| - 1]);
    }
  }

  lemma CountedAfter(pre: seq<bool>, run: seq<bool>)
    requires AllDown(run) && (pre != [] ==> pre[|pre| - 1])
    ensures Counted(pre + run) == if pre == [] && run != [] then |run| - 1 else |run|
  {
    TrailingAfter(pre, run);
  }

  lemma DownPrefix(rest: seq<Check>, c: Check, node: string)
    requires AllDown(Outcomes(rest + [c], node))
    ensures AllDown(Outcomes(rest, node))
    ensures c.node == node ==> !c.healthy
  {
    hide Run, Observe;
    RunStep(rest, c, node);
    var all, mid := Outcomes(rest + [c], node), Outcomes(rest, node);
    assert all[..|mid|] == mid;
    assert c.node == node ==> all[|mid|] == c.healthy;
  }

  lemma NothingCounted()
    ensures Counted([]) == 0
  {
  }

  /** One more failed check within an unhealthy run. */
  lemma CountedGrows(before: seq<Check>, rest: seq<Check>, c: Check, node: string)
    requires var pre := Outcomes(before, node); pre != [] ==> pre[|pre| - 1]
    requires AllDown(Outcomes(rest + [c], node))
    ensures var hs := Outcomes(before + rest, node);
            Counted(Outcomes(before + (rest + [c]), node))
            == if c.node != node then Counted(hs) else if hs == [] then 0 else Counted(hs) + 1
    ensures c.node == node ==> !c.healthy
    ensures Outcomes(before + rest, node) == [] ==> Counted(Outcomes(before + rest, node)) == 0
  {
    hide Run, Observe, Counted;
    DownPrefix(rest, c, node);
    assert before + (rest + [c]) == (before + rest) + [c];
    RunStep(before + rest, c, node);
    TraceStep(Outcomes(before + rest, node), c.healthy);
    NothingCounted();
  }

  lemma CountedBase(before: seq<Check>, node: string)
    requires var pre := Outcomes(before, node); pre != [] ==> pre[|pre| - 1]
    ensures Counted(Outcomes(before, node)) == 0
  {
    CountedAfter(Outcomes(before, node), []);
    assert Outcomes(before, node) + [] == Outcomes(before, node);
  }

  lemma OneMoreThird(k: nat)
    ensures (k + 1) / 3 == k / 3 + if k + 1 >= 3 && (k + 1) % 3 == 0 then 1 else 0
  {
  }

  /** An unhealthy run of a node, interleaved with checks of other nodes, raises one alert for
      every third counted failure: the final counter over three, rounded down. */
  lemma {:induction false} EachRunAlerts(before: seq<Check>, run: seq<Check>, node: string)
    requires AllDown(Outcomes(run, node))
    requires var pre := Outcomes(before, node); pre != [] ==> pre[|pre| - 1]
    ensures Alerts(Run(before + run).events, node)
            == Alerts(Run(before).events, node) + Counted(Outcomes(before + run, node)) / 3
    decreases |run|
  {
    hide *;
    if run == [] {
      assert before + run == before;
      CountedBase(before, node);
    } else {
      var rest, c := run[..|run| - 1], run[|run| - 1];
      assert run == rest + [c] && (before + rest) + [c] == before + run;
      DownPrefix(rest, c, node);
      EachRunAlerts(before, rest, node);
      StepEvents(before + rest, c, node);
      CountedGrows(before, rest, c, node);
      OneMoreThird(Counted(Outcomes(before + rest, node)));
    }
  }

  // ---------------------------------------------------------------- the code

  /** The last entry recorded for each port. */
  function PortsOpen(ports: seq<nat>, dials: seq<bool>): (m: map<nat, bool>)
    requires |ports| == |dials|
  {
    if ports == [] then map[]
    else
      var k := |ports| - 1;
      PortsOpen(ports[..k], dials[..k])[ports[k] := dials[k]]
  }

  /** A port of the node counts as open exactly when the last connection to it succeeded. */
  lemma {:induction false} PortsOpenAre(ports: seq<nat>, dials: seq<bool>, i: nat)
    requires |ports| == |dials|
    ensures forall p: nat :: p in PortsOpen(ports, dials) <==> p in ports
    ensures i < |ports| && ports[i] !in ports[i + 1..] ==> PortsOpen(ports, dials)[ports[i]] == dials[i]
  {
    if ports != [] {
      var k := |ports| - 1;
      assert ports == ports[..k] + [ports[k]];
      PortsOpenAre(ports[..k], dials[..k], i);
      if i < k && ports[i] !in ports[i + 1..] {
        assert ports[..k][i + 1..] == ports[i + 1..][..k - i - 1];
        assert ports[i + 1..][k - i - 1] == ports[k];
      }
    }
  }

  /** What is on record for a node after its check: the outcome of any connection at all, and the
      ports of that check alone. */
  lemma LastCheckOnRecord(checks: seq<Check>, c: Check)
    ensures var st := Lookup(Run(checks + [c]), c.node);
            st.Some? && st.value.healthy == c.healthy && st.value.portsOpen == c.portsOpen
    ensures forall node | node != c.node :: Lookup(Run(checks + [c]), node) == Lookup(Run(checks), node)
  {
    hide Observe, Outcomes;
    RunStep(checks, c, c.node);
    ObservedIs(Run(checks), c);
  }

  lemma ObservedIs(h: Health, c: Check)
    ensures var st := Lookup(Observe(h, c), c.node);
            st.Some? && st.value.healthy == c.healthy && st.value.portsOpen == c.portsOpen
    ensures forall node | node != c.node :: Lookup(Observe(h, c), node) == Lookup(h, node)
  {
  }

  class Monitor {
    var results: map<string, Status>
    var emitted: seq<Event>

    constructor ()
      ensures Value() == Run([])
    {
      results, emitted := map[], [];
    }

    function Value(): Health
      reads this
    {
      Health(results, emitted)
    }

    /** dials[i] tells whether the connection to ports[i] succeeded. */
    method CheckNode(node: string, ports: seq<nat>, dials: seq<bool>)
      requires |ports| == |dials|
      modifies this
      ensures Value() == Observe(old(Value()), Check(node, true in dials, PortsOpen(ports, dials)))
    {
      var portsOpen: map<nat, bool> := map[];
      var successCount := 0;
      for i := 0 to |ports|
        invariant portsOpen == PortsOpen(ports[..i], dials[..i])
        invariant successCount >= 0
        invariant successCount > 0 <==> true in dials[..i]
      {
        assert ports[..i + 1][..i] == ports[..i] && dials[..i + 1][..i] == dials[..i];
        if dials[i] {
          portsOpen := portsOpen[ports[i] := true];
          successCount := successCount + 1;
        } else {
          portsOpen := portsOpen[ports[i] := false];
        }
      }
      assert ports[..|ports|] == ports && dials[..|ports|] == dials;
      var healthy := successCount > 0;
      var prev := if node in results then Some(results[node]) else None;
      var failures := 0;
      if prev.Some? && !healthy {
        failures := prev.value.failures + 1;
      }
      results := results[node := Status(healthy, failures, portsOpen)];
      if prev.Some? {
        if prev.value.healthy && !healthy {
          emitted := emitted + [Changed(node, false, failures)];
        } else if !prev.value.healthy && healthy {
          emitted := emitted + [Changed(node, true, 0)];
        }
      }
      if failures >= 3 && failures % 3 == 0 {
        emitted := emitted + [Alert(node, failures)];
      }
    }
  }
}
