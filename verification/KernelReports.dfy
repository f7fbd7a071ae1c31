/** What a port reassignment reports: "changed" says that a port was allocated, not that the
    profile changed. */
module KernelReports {
  import opened KernelPorts
  import opened KernelProfile
  import opened Text

  predicate Lacks(inbounds: seq<Inbound>, kind: Kind) {
    First(inbounds, kind) == |inbounds|
  }

  /** Nothing to report for a kind: its first inbound has no block, or there is none and the default
      port is free. */
  predicate Quiet(inbounds: seq<Inbound>, used: set<int>, kind: Kind) {
    if Lacks(inbounds, kind) then DefaultPort(kind) !in used else inbounds[First(inbounds, kind)].block.None?
  }

  /** Nothing to report for the controller: there is none, or its port is positive and free. */
  predicate QuietController(env: Env, used: set<int>, c: Experimental) {
    !c.Controller? || c.address == ""
    || match env.number(Address(env, c.address).1) case None => false case Some(port) => port > 0 && port !in used
  }

  function Filled(inbounds: seq<Inbound>, used: set<int>, kind: Kind): set<int> {
    if Lacks(inbounds, kind) then used + {DefaultPort(kind)} else used
  }

  /** The condition on the profile as it comes in. */
  predicate Silent(env: Env, inbounds: seq<Inbound>, e: Experimental) {
    var used := UsedPorts(inbounds);
    && Quiet(inbounds, used, Mixed) && Quiet(inbounds, used, Http) && Quiet(inbounds, used, Socks)
    && QuietController(env, used + DefaultsAdded(inbounds), Effective(e))
  }

  /** Default ports of the kinds the profile lacks. */
  function DefaultsAdded(inbounds: seq<Inbound>): set<int> {
    (if Lacks(inbounds, Mixed) then {20122} else {}) + (if Lacks(inbounds, Http) then {20121} else {})
    + (if Lacks(inbounds, Socks) then {20120} else {})
  }

  // ---------------------------------------------------------------- one kind

  lemma QuietSettle(env: Env, w: Work, kind: Kind)
    requires !w.failed && Quiet(w.inbounds, w.used, kind)
    ensures Settle(env, w, kind)
            == w.(inbounds := Ensure(w.inbounds, kind), used := Filled(w.inbounds, w.used, kind))
  {
    hide AllocateFrom, First, KindName;
    var l, f := w.inbounds, First(w.inbounds, kind);
    FirstAppend(l, Default(kind), kind);
    if Lacks(l, kind) {
      var e := l + [Default(kind)];
      var x := e[f];
      assert e[f := x] == e;
      assert Listening(x, x.block.value, Normal(x.block.value.listen)).(enable := true) == x;
    }
  }

  /** A settle that finishes records its kind exactly when there is something to report. */
  lemma SettleReportsIff(env: Env, w: Work, kind: Kind)
    requires !w.failed && !Settle(env, w, kind).failed && Covered(w.inbounds, w.used)
    requires KindName(kind) !in w.changes
    ensures KindName(kind) in Settle(env, w, kind).changes <==> !Quiet(w.inbounds, w.used, kind)
  {
    hide AllocateFrom, First, KindName;
    if Quiet(w.inbounds, w.used, kind) {
      QuietSettle(env, w, kind);
    } else {
      FirstAppend(w.inbounds, Default(kind), kind);
    }
  }

  lemma ChangesStay(env: Env, w: Work, kind: Kind)
    ensures w.changes.Keys <= Settle(env, w, kind).changes.Keys
    ensures w.changes.Keys <= SettleController(env, w).changes.Keys
  {
    hide AllocateFrom, First, KindName, Address, HostOrLocal, Decimal;
  }

  lemma ControllerReportsIff(env: Env, w: Work)
    requires !w.failed && !SettleController(env, w).failed && w.changes == map[]
    ensures SettleController(env, w).changes == map[] <==> QuietController(env, w.used, w.controller)
    ensures QuietController(env, w.used, w.controller) ==> SettleController(env, w).controller == w.controller
  {
    hide AllocateFrom, Address, HostOrLocal, Decimal;
    if !QuietController(env, w.used, w.controller) {
      assert "controller" in SettleController(env, w).changes;
    }
  }

  /** Filling in one kind does not change what there is to report for another. */
  lemma QuietAfter(l: seq<Inbound>, used: set<int>, kind: Kind, other: Kind)
    requires Managed(kind) && Managed(other) && kind != other
    ensures Lacks(Ensure(l, kind), other) <==> Lacks(l, other)
    ensures Quiet(Ensure(l, kind), Filled(l, used, kind), other) <==> Quiet(l, used, other)
  {
    hide First, KindName;
    FirstAppend(l, Default(kind), other);
  }

  lemma QuietCovered(l: seq<Inbound>, used: set<int>, kind: Kind)
    requires Covered(l, used) && Quiet(l, used, kind)
    ensures Covered(Ensure(l, kind), Filled(l, used, kind))
  {
    hide First, KindName;
  }

  // ---------------------------------------------------------------- the whole operation

  /** The profile and the ports in use once the kinds have been settled without a report. */
  lemma SilentKinds(env: Env, w: Work)
    requires !w.failed && w.changes == map[] && Covered(w.inbounds, w.used) && !SettleAll(env, w).failed
    ensures var l, u := w.inbounds, w.used;
            var quiet := Quiet(l, u, Mixed) && Quiet(l, u, Http) && Quiet(l, u, Socks);
            && (SettleAll(env, w).changes == map[] <==> quiet)
            && (quiet ==>
                  && SettleAll(env, w).used == u + DefaultsAdded(l)
                  && SettleAll(env, w).controller == w.controller
                  && (SettleAll(env, w).inbounds == l
                      <==> !Lacks(l, Mixed) && !Lacks(l, Http) && !Lacks(l, Socks)))
  {
    hide Settle, Quiet, Covered, First, KindName, Lacks;
    var l, u := w.inbounds, w.used;
    var w1 := Settle(env, w, Mixed);
    var w2 := Settle(env, w1, Http);
    var w3 := Settle(env, w2, Socks);
    StillFine(env, w1, Http);
    StillFine(env, w2, Socks);
    ChangesStay(env, w1, Http);
    ChangesStay(env, w2, Socks);
    SettleReportsIff(env, w, Mixed);
    if Quiet(l, u, Mixed) {
      QuietSettle(env, w, Mixed);
      QuietCovered(l, u, Mixed);
      QuietAfter(l, u, Mixed, Http);
      QuietAfter(l, u, Mixed, Socks);
      SettleReportsIff(env, w1, Http);
      if Quiet(l, u, Http) {
        QuietSettle(env, w1, Http);
        QuietCovered(w1.inbounds, w1.used, Http);
        QuietAfter(w1.inbounds, w1.used, Http, Socks);
        SettleReportsIff(env, w2, Socks);
        if Quiet(l, u, Socks) {
          QuietSettle(env, w2, Socks);
          FilledAll(l, u, w1.inbounds, w2.inbounds);
        }
      }
    }
  }

  lemma FilledAll(l: seq<Inbound>, u: set<int>, l1: seq<Inbound>, l2: seq<Inbound>)
    requires l1 == Ensure(l, Mixed) && l2 == Ensure(l1, Http)
    requires Lacks(l1, Http) == Lacks(l, Http) && Lacks(l2, Socks) == Lacks(l, Socks)
    ensures Filled(l2, Filled(l1, Filled(l, u, Mixed), Http), Socks) == u + DefaultsAdded(l)
    ensures Ensure(l2, Socks) == l <==> !Lacks(l, Mixed) && !Lacks(l, Http) && !Lacks(l, Socks)
  {
    hide First, Default;
    assert |Ensure(l2, Socks)|
           == |l| + (if Lacks(l, Mixed) then 1 else 0) + (if Lacks(l, Http) then 1 else 0)
              + if Lacks(l, Socks) then 1 else 0;
  }

  /** A reassignment that finishes reports no change exactly when the profile gives no cause: each
      of the three kinds is missing with a free default port or lacks its block, and the controller
      is absent or on a port that neither an inbound nor an added default uses. */
  lemma NothingReportedIff(env: Env, inbounds: seq<Inbound>, e: Experimental)
    requires !Reassign(env, inbounds, e).failed
    ensures Reassign(env, inbounds, e).changes == map[] <==> Silent(env, inbounds, e)
    ensures var r := Reassign(env, inbounds, e);
            Silent(env, inbounds, e) ==>
              && r.controller == Effective(e)
              && (r.inbounds == inbounds
                  <==> !Lacks(inbounds, Mixed) && !Lacks(inbounds, Http) && !Lacks(inbounds, Socks))
  {
    hide SettleController, SettleAll, Covered, UsedPorts, Quiet, QuietController, Lacks;
    var w := Start(inbounds, e);
    var w3 := SettleAll(env, w);
    StartFacts(inbounds, e);
    ControllerStillFine(env, w3);
    ChangesStay(env, w3, Mixed);
    SilentKinds(env, w);
    if w3.changes == map[] {
      ControllerReportsIff(env, w3);
    }
  }

  /** A change goes unreported exactly when there is no cause to report and yet a kind is missing or
      the experimental settings are. */
  lemma UnreportedChangeIff(env: Env, inbounds: seq<Inbound>, e: Experimental)
    requires !Reassign(env, inbounds, e).failed
    ensures var r := Reassign(env, inbounds, e);
            r.changes == map[] && (r.inbounds != inbounds || r.controller != e)
            <==> Silent(env, inbounds, e)
                 && (Lacks(inbounds, Mixed) || Lacks(inbounds, Http) || Lacks(inbounds, Socks) || e == Missing)
  {
    hide Reassign, Silent, Lacks;
    NothingReportedIff(env, inbounds, e);
  }

  /** With no cause to report nothing is allocated, so nothing can be rejected. */
  lemma SilentFinishes(env: Env, inbounds: seq<Inbound>, e: Experimental)
    requires Silent(env, inbounds, e)
    ensures !Reassign(env, inbounds, e).failed
  {
    hide Settle, SettleController, Covered, UsedPorts, Quiet, First, Lacks;
    var w := Start(inbounds, e);
    var w1 := Settle(env, w, Mixed);
    var w2 := Settle(env, w1, Http);
    QuietSettle(env, w, Mixed);
    QuietAfter(inbounds, w.used, Mixed, Http);
    QuietAfter(inbounds, w.used, Mixed, Socks);
    QuietSettle(env, w1, Http);
    QuietAfter(w1.inbounds, w1.used, Http, Socks);
    QuietSettle(env, w2, Socks);
    FilledAll(inbounds, w.used, w1.inbounds, w2.inbounds);
    QuietControllerFinishes(env, SettleAll(env, w));
  }

  lemma QuietControllerFinishes(env: Env, w: Work)
    requires !w.failed && QuietController(env, w.used, w.controller)
    ensures !SettleController(env, w).failed
  {
    hide AllocateFrom, Address, HostOrLocal, Decimal;
  }

  /** It happens: an empty profile gains inbounds and nothing is reported. */
  lemma UnreportedExample(env: Env)
    requires env.number("20123") == Some(20123)
    ensures var r := Reassign(env, [], Controller(DEFAULT_CONTROLLER));
            !r.failed && r.changes == map[] && r.inbounds != []
  {
    hide Address, Reassign, First;
    var e := Controller(DEFAULT_CONTROLLER);
    DefaultAddress(env);
    assert UsedPorts([]) == {};
    assert Silent(env, [], e) && Lacks([], Mixed);
    SilentFinishes(env, [], e);
    NothingReportedIff(env, [], e);
  }

  lemma DefaultAddress(env: Env)
    ensures Address(env, DEFAULT_CONTROLLER) == (LOCAL, "20123") && DEFAULT_CONTROLLER != ""
  {
    hide LastIndexOf, IndexOf;
    var s := DEFAULT_CONTROLLER;
    LastIndexIs(s, ':', 9);
    assert s[10..] == "20123" && s[..9] == LOCAL;
    assert s[..1] == "1";
    assert forall i | 0 <= i < 15 :: s[i] != '/';
  }

  // ---------------------------------------------------------------- what is reported is what is set

  /** The host an inbound goes on listening on. */
  function HostOf(listen: Option<Listen>): string {
    match listen case None => LOCAL case Some(Listen(host, _)) => if host == "" then LOCAL else host
  }

  /** The inbound listens on this host and port. */
  predicate ListensOn(x: Inbound, host: string, port: Option<int>) {
    x.block.Some? && x.block.value.listen == Some(Listen(host, port))
  }

  /** What one settle does to the inbound it settles and to the report. */
  lemma SettleTells(env: Env, w: Work, kind: Kind)
    requires !w.failed && !Settle(env, w, kind).failed
    ensures var e, f, w' := Ensure(w.inbounds, kind), First(w.inbounds, kind), Settle(env, w, kind);
            && f < |e| == |w'.inbounds|
            && (e[f].block.None? ==> w'.changes == w.changes && w'.inbounds == e)
            && (e[f].block.Some? ==>
                  var was, x := Normal(e[f].block.value.listen), w'.inbounds[f];
                  && x.enable && HostOf(e[f].block.value.listen) == was.host
                  && exists port :: ListensOn(x, was.host, port)
                       && ((w'.changes == w.changes && port == was.port)
                           || (port.Some? && w'.changes == w.changes[KindName(kind) := port.value])))
  {
    hide AllocateFrom, First, KindName, Default, Keeps;
    SettledInbound(env, w, kind);
    var e, f, w' := Ensure(w.inbounds, kind), First(w.inbounds, kind), Settle(env, w, kind);
    DefaultKind(kind);
    FirstAppend(w.inbounds, Default(kind), kind);
    if e[f].block.Some? {
      var was := Normal(e[f].block.value.listen);
      var port := if w'.changes == w.changes then was.port else w'.inbounds[f].block.value.listen.value.port;
      assert ListensOn(w'.inbounds[f], was.host, w'.inbounds[f].block.value.listen.value.port);
    }
  }

  /** A settle reports nothing about other names. */
  lemma SettleReportsOwn(env: Env, w: Work, kind: Kind, name: string)
    requires name != KindName(kind)
    ensures var w' := Settle(env, w, kind);
            && (name in w'.changes <==> name in w.changes)
            && (name in w.changes ==> w'.changes[name] == w.changes[name])
  {
    hide AllocateFrom, First, KindName, Default, Normal, Keeps;
  }

  lemma ControllerReportsOwn(env: Env, w: Work, name: string)
    requires name != "controller"
    ensures var w' := SettleController(env, w);
            && (name in w'.changes <==> name in w.changes)
            && (name in w.changes ==> w'.changes[name] == w.changes[name])
  {
    hide AllocateFrom, Address, HostOrLocal, Decimal, Keeps;
  }

  /** The inbound a settle of this kind leaves, before any other kind is settled. */
  predicate Told(l: seq<Inbound>, kind: Kind, name: string, port: int, x: Inbound, changes: map<string, int>) {
    var f := First(l, kind);
    && (name in changes ==>
          x.enable && x.block.Some? && x.block.value.listen.Some?
          && x.block.value.listen.value.port == Some(changes[name]))
    && (if f == |l|
        then
          && x.id == name + "-auto" && x.tag == name + "-in" && x.kind == kind && x.enable
          && ListensOn(x, LOCAL, Some(if name in changes then changes[name] else port))
        else if l[f].block.None? then x == l[f] && name !in changes
        else x.block.Some? && x.block.value.listen.Some?
             && x.block.value.listen.value.host == HostOf(l[f].block.value.listen))
  }

  const NAMES := {(Mixed, "mixed", 20122), (Http, "http", 20121), (Socks, "socks", 20120)}

  lemma SettleTold(env: Env, w: Work, kind: Kind, name: string, port: int)
    requires !w.failed && !Settle(env, w, kind).failed && name !in w.changes && (kind, name, port) in NAMES
    ensures var f, w' := First(w.inbounds, kind), Settle(env, w, kind);
            && f < |w'.inbounds| && First(w'.inbounds, kind) == f
            && Told(w.inbounds, kind, name, port, w'.inbounds[f], w'.changes)
  {
    hide Settle, First, AllocateFrom;
    var f, e, w' := First(w.inbounds, kind), Ensure(w.inbounds, kind), Settle(env, w, kind);
    SettleTells(env, w, kind);
    SettledInbound(env, w, kind);
    SettleShape(env, w, kind);
    FirstAfter(w.inbounds, w'.inbounds, kind, kind);
    if e[f].block.Some? {
      var was, x := Normal(e[f].block.value.listen), w'.inbounds[f];
      var p :| ListensOn(x, was.host, p)
        && ((w'.changes == w.changes && p == was.port)
            || (p.Some? && w'.changes == w.changes[KindName(kind) := p.value]));
    }
  }

  /** Settling another kind leaves it all in place. */
  lemma ToldStays(env: Env, w: Work, kind: Kind, other: Kind, name: string)
    requires other != kind && First(w.inbounds, kind) < |w.inbounds| && name != KindName(other)
    ensures var f, w' := First(w.inbounds, kind), Settle(env, w, other);
            && f < |w'.inbounds| && w'.inbounds[f] == w.inbounds[f] && First(w'.inbounds, kind) == f
            && (name in w'.changes <==> name in w.changes)
            && (name in w.changes ==> w'.changes[name] == w.changes[name])
  {
    hide Settle, First;
    var f := First(w.inbounds, kind);
    SettleUntouched(env, w, other, f);
    SettleReportsOwn(env, w, other, name);
    assert First(w.inbounds, other) != f;
  }

  /** Before a kind's turn, the kinds settled so far leave its inbound alone. */
  lemma TurnComes(env: Env, w: Work, kind: Kind, other: Kind, name: string)
    requires other != kind && !w.failed && name != KindName(other) && name !in w.changes
    ensures var l, w' := w.inbounds, Settle(env, w, other);
            && name !in w'.changes
            && (First(l, kind) < |l| ==> First(w'.inbounds, kind) == First(l, kind) < |w'.inbounds|
                                         && w'.inbounds[First(l, kind)] == l[First(l, kind)])
            && (First(l, kind) == |l| ==> First(w'.inbounds, kind) == |w'.inbounds|)
  {
    hide Settle, First;
    var l, w' := w.inbounds, Settle(env, w, other);
    SettleReportsOwn(env, w, other, name);
    SettleShape(env, w, other);
    FirstAfter(l, w'.inbounds, other, kind);
    if First(l, kind) < |l| {
      ToldStays(env, w, kind, other, name);
    }
  }

  lemma ToldFrom(l: seq<Inbound>, m: seq<Inbound>, kind: Kind, name: string, port: int, x: Inbound,
                 changes: map<string, int>)
    requires First(l, kind) < |l| ==> First(m, kind) == First(l, kind) < |m| && m[First(l, kind)] == l[First(l, kind)]
    requires First(l, kind) == |l| ==> First(m, kind) == |m|
    requires Told(m, kind, name, port, x, changes)
    ensures Told(l, kind, name, port, x, changes)
  {
    hide First;
  }

  lemma KindNames()
    ensures KindName(Mixed) == "mixed" && KindName(Http) == "http" && KindName(Socks) == "socks"
    ensures KindName(Mixed) != KindName(Http) && KindName(Http) != KindName(Socks) && KindName(Mixed) != KindName(Socks)
    ensures forall k | Managed(k) :: KindName(k) != "controller"
  {
    assert KindName(Mixed)[0] == 'm' && KindName(Http)[0] == 'h' && KindName(Socks)[0] == 's' && "controller"[0] == 'c';
  }

  /** What a finished reassignment says of a kind is what it set: a reported port is the one its first
      inbound, now on, listens on. A missing inbound has been made on 127.0.0.1 with its default port
      unless another is reported; an existing one keeps its host, 127.0.0.1 when it had none; one
      without its block stays as it was and is not reported. */
  lemma ReportsTellPorts(env: Env, inbounds: seq<Inbound>, e: Experimental, kind: Kind, name: string, port: int)
    requires !Reassign(env, inbounds, e).failed && (kind, name, port) in NAMES
    ensures var r := Reassign(env, inbounds, e);
            var f := First(r.inbounds, kind);
            f < |r.inbounds| && Told(inbounds, kind, name, port, r.inbounds[f], r.changes)
  {
    hide Settle, SettleController, Told, First, UsedPorts, KindName;
    var w := Start(inbounds, e);
    var w1 := Settle(env, w, Mixed);
    var w2 := Settle(env, w1, Http);
    var w3 := Settle(env, w2, Socks);
    KindNames();
    ControllerStillFine(env, w3);
    StillFine(env, w2, Socks);
    StillFine(env, w1, Http);
    ControllerReportsOwn(env, w3, name);
    match kind
    case Mixed =>
      SettleTold(env, w, Mixed, name, port);
      ToldStays(env, w1, Mixed, Http, name);
      ToldStays(env, w2, Mixed, Socks, name);
      ToldSame(inbounds, kind, name, port, w1, w3, Reassign(env, inbounds, e));
    case Http =>
      TurnComes(env, w, Http, Mixed, name);
      SettleTold(env, w1, Http, name, port);
      ToldFrom(inbounds, w1.inbounds, kind, name, port, w2.inbounds[First(w1.inbounds, kind)], w2.changes);
      ToldStays(env, w2, Http, Socks, name);
      ToldSame(inbounds, kind, name, port, w2, w3, Reassign(env, inbounds, e));
    case Socks =>
      TurnComes(env, w, Socks, Mixed, name);
      TurnComes(env, w1, Socks, Http, name);
      SettleTold(env, w2, Socks, name, port);
      ToldFrom(w1.inbounds, w2.inbounds, kind, name, port, w3.inbounds[First(w2.inbounds, kind)], w3.changes);
      ToldFrom(inbounds, w1.inbounds, kind, name, port, w3.inbounds[First(w2.inbounds, kind)], w3.changes);
      ToldSame(inbounds, kind, name, port, w3, w3, Reassign(env, inbounds, e));
  }

  lemma ToldSame(l: seq<Inbound>, kind: Kind, name: string, port: int, w: Work, w': Work, r: Work)
    requires var f := First(w.inbounds, kind);
             && f < |w.inbounds| && Told(l, kind, name, port, w.inbounds[f], w.changes)
             && f == First(w'.inbounds, kind) < |w'.inbounds| && w'.inbounds[f] == w.inbounds[f]
    requires r.inbounds == w'.inbounds
    requires (name in r.changes <==> name in w.changes) && (name in r.changes ==> r.changes[name] == w.changes[name])
    ensures var f := First(r.inbounds, kind); f < |r.inbounds| && Told(l, kind, name, port, r.inbounds[f], r.changes)
  {
    hide First;
  }

  /** A reported controller port is the one its address has been rewritten with, after the host it
      had, trimmed, or 127.0.0.1 if that is blank; without a report the address stays. */
  lemma ReportsTellController(env: Env, inbounds: seq<Inbound>, e: Experimental)
    requires !Reassign(env, inbounds, e).failed
    ensures var r := Reassign(env, inbounds, e);
            var before := if e == Experimental.Missing then Controller("127.0.0.1:20123") else e;
            if "controller" in r.changes
            then
              && before.Controller? && r.changes["controller"] >= 0
              && var host := JsTrim(Address(env, before.address).0);
                 r.controller
                 == Controller((if host == "" then "127.0.0.1" else host) + ":" + Decimal(r.changes["controller"]))
            else r.controller == before
  {
    hide Settle, First, UsedPorts, KindName, Address, Decimal, JsTrim, AllocateFrom, Keeps;
    var w := Start(inbounds, e);
    var w1 := Settle(env, w, Mixed);
    var w2 := Settle(env, w1, Http);
    KindNames();
    SettleReportsOwn(env, w, Mixed, "controller");
    SettleReportsOwn(env, w1, Http, "controller");
    SettleReportsOwn(env, w2, Socks, "controller");
    SettleKeepsController(env, w, Mixed);
    SettleKeepsController(env, w1, Http);
    SettleKeepsController(env, w2, Socks);
  }

  /** Of an address written as a URL, host and port are what the URL has; 127.0.0.1 and no port when
      it does not parse. */
  lemma AddressOfUrl(env: Env, scheme: string, rest: string)
    ensures var s := scheme + "://" + rest;
            Address(env, s)
            == match env.url(s)
               case None => ("127.0.0.1", "")
               case Some((host, port)) => (if host == "" then "127.0.0.1" else host, port)
  {
    hide LastIndexOf, IndexOf;
    var s, i := scheme + "://" + rest, |scheme|;
    assert s[i] == ':' && s[i + 1] == '/' && s[i + 2] == '/';
    assert HasScheme(s);
  }
}
