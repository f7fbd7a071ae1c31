/** Port reassignment before a kernel restart. */
module KernelPorts {
  import opened KernelProfile
  import opened Text

  /** What the outside world answers: the ports GetAvailablePort offers one after another (None
      when it rejects), Number() on a string (None for NaN), and URL parsing (host and port). */
  datatype Env = Env(
    offers: nat -> Option<nat>, number: string -> Option<int>, url: string -> Option<(string, string)>)

  const LOCAL := "127.0.0.1"
  const DEFAULT_CONTROLLER := "127.0.0.1:20123"
  const TRIES: nat := 10

  function KindName(kind: Kind): string {
    match kind
    case Mixed => "mixed"
    case Http => "http"
    case Socks => "socks"
    case Other(name) => name
  }

  function DefaultPort(kind: Kind): int {
    match kind
    case Http => 20121
    case Socks => 20120
    case _ => 20122
  }

  function Default(kind: Kind): Inbound {
    Inbound(KindName(kind) + "-auto", kind, KindName(kind) + "-in", true,
            Some(Block(Some(Listen(LOCAL, Some(DefaultPort(kind)))), "defaults")))
  }

  /** The positive port an inbound listens on. */
  function PortOf(inbound: Inbound): Option<int> {
    match inbound.block
    case Some(Block(Some(Listen(_, Some(p))), _)) => if p > 0 then Some(p) else None
    case _ => None
  }

  function UsedPorts(inbounds: seq<Inbound>): set<int> {
    if inbounds == [] then {}
    else
      var k := |inbounds| - 1;
      UsedPorts(inbounds[..k]) + match PortOf(inbounds[k]) case None => {} case Some(p) => {p}
  }

  /** The first inbound of a kind, or the length when there is none. */
  function First(inbounds: seq<Inbound>, kind: Kind): (i: nat)
    ensures i <= |inbounds| && (i < |inbounds| ==> inbounds[i].kind == kind)
    ensures forall j | 0 <= j < i :: inbounds[j].kind != kind
  {
    if inbounds == [] || inbounds[0].kind == kind then 0 else First(inbounds[1..], kind) + 1
  }

  function Ensure(inbounds: seq<Inbound>, kind: Kind): seq<Inbound> {
    if First(inbounds, kind) < |inbounds| then inbounds else inbounds + [Default(kind)]
  }

  // ---------------------------------------------------------------- allocation

  datatype Grant = Grant(port: Option<nat>, cursor: nat)

  function AllocateFrom(offers: nat -> Option<nat>, cursor: nat, used: set<int>, tries: nat): Grant
    decreases tries
  {
    match offers(cursor)
    case None => Grant(None, cursor + 1)
    case Some(p) =>
      if tries == 0 || p !in used then Grant(Some(p), cursor + 1)
      else AllocateFrom(offers, cursor + 1, used, tries - 1)
  }

  predicate Busy(offers: nat -> Option<nat>, k: nat, used: set<int>) {
    offers(k).Some? && offers(k).value in used
  }

  predicate Unused(offers: nat -> Option<nat>, k: nat, used: set<int>) {
    offers(k).Some? && offers(k).value !in used
  }

  predicate AllBusy(offers: nat -> Option<nat>, from: nat, to: nat, used: set<int>) {
    forall j: nat | from <= j < to :: Busy(offers, j, used)
  }

  /** An allocation yields an unused port exactly when one is among its eleven offers, with
      nothing but used ports before it; and then it yields that one. */
  lemma {:induction false} AllocationFindsUnusedIff(offers: nat -> Option<nat>, cursor: nat, used: set<int>, tries: nat)
    ensures var g := AllocateFrom(offers, cursor, used, tries);
            g.port.Some? && g.port.value !in used
            <==> exists k: nat | cursor <= k <= cursor + tries ::
                   Unused(offers, k, used) && AllBusy(offers, cursor, k, used)
    ensures forall k: nat | cursor <= k <= cursor + tries ::
              Unused(offers, k, used) && AllBusy(offers, cursor, k, used) ==>
                AllocateFrom(offers, cursor, used, tries) == Grant(offers(k), k + 1)
    decreases tries
  {
    assert forall k: nat | k > cursor && AllBusy(offers, cursor, k, used) :: Busy(offers, cursor, used);
    if Unused(offers, cursor, used) {
      assert AllBusy(offers, cursor, cursor, used);
    } else if Busy(offers, cursor, used) && tries > 0 {
      AllocationFindsUnusedIff(offers, cursor + 1, used, tries - 1);
      assert forall k: nat | k > cursor :: AllBusy(offers, cursor, k, used) <==> AllBusy(offers, cursor + 1, k, used);
    }
  }

  /** Each allocation of a reassignment asks eleven times at most. */
  lemma AllocationWithinEleven(offers: nat -> Option<nat>, cursor: nat, used: set<int>)
    ensures var g := AllocateFrom(offers, cursor, used, TRIES);
            g.port.Some? && g.port.value !in used
            <==> exists k: nat | cursor <= k <= cursor + 10 ::
                   Unused(offers, k, used) && AllBusy(offers, cursor, k, used)
  {
    hide AllocateFrom, Unused, AllBusy;
    AllocationFindsUnusedIff(offers, cursor, used, TRIES);
  }

  // ---------------------------------------------------------------- one inbound

  /** State of a reassignment. `failed`: an offer was rejected and the operation threw; `clashed`:
      all eleven offers of some allocation were in use. */
  datatype Work = Work(
    inbounds: seq<Inbound>, controller: Experimental, controllerPort: Option<int>, used: set<int>,
    cursor: nat, changes: map<string, int>, failed: bool, clashed: bool)

  function Normal(listen: Option<Listen>): Listen {
    match listen
    case None => Listen(LOCAL, Some(0))
    case Some(Listen(host, port)) => Listen(if host == "" then LOCAL else host, port)
  }

  function Listening(inbound: Inbound, block: Block, listen: Listen): Inbound {
    inbound.(block := Some(block.(listen := Some(listen))))
  }

  predicate Keeps(used: set<int>, port: Option<int>) {
    port.Some? && port.value > 0 && port.value !in used
  }

  function Settle(env: Env, w: Work, kind: Kind): Work {
    var l := Ensure(w.inbounds, kind);
    var i := First(l, kind);
    if w.failed || i >= |l| then w
    else
      match l[i].block
      case None => w.(inbounds := l)
      case Some(b) =>
        var listen := Normal(b.listen);
        if Keeps(w.used, listen.port) then
          w.(inbounds := l[i := Listening(l[i], b, listen).(enable := true)], used := w.used + {listen.port.value})
        else
          var g := AllocateFrom(env.offers, w.cursor, w.used, TRIES);
          match g.port
          case None => w.(inbounds := l[i := Listening(l[i], b, listen)], cursor := g.cursor, failed := true)
          case Some(p) =>
            w.(inbounds := l[i := Listening(l[i], b, listen.(port := Some(p))).(enable := true)],
               used := w.used + {p}, cursor := g.cursor, changes := w.changes[KindName(kind) := p],
               clashed := w.clashed || p in w.used)
  }

  // ---------------------------------------------------------------- the controller address

  function IndexOf(s: string, c: char): (i: nat)
    ensures i <= |s| && c !in s[..i] && (i < |s| ==> s[i] == c)
  {
    if s == "" || s[0] == c then 0 else IndexOf(s[1..], c) + 1
  }

  function LastIndexOf(s: string, c: char): (i: int)
    ensures -1 <= i < |s| && c !in s[i + 1..] && (i >= 0 ==> s[i] == c)
  {
    if s == "" then -1 else if s[|s| - 1] == c then |s| - 1 else LastIndexOf(s[..|s| - 1], c)
  }

  predicate HasScheme(s: string) {
    exists i | 0 <= i <= |s| - 3 :: s[i] == ':' && s[i + 1] == '/' && s[i + 2] == '/'
  }

  /** Host and port text of a controller address. */
  function Address(env: Env, controller: string): (string, string) {
    if HasScheme(controller) then
      match env.url(controller)
      case None => (LOCAL, "")
      case Some((host, port)) => (if host == "" then LOCAL else host, port)
    else if HasPrefix(controller, "[") then
      var closing := IndexOf(controller, ']');
      if closing < |controller| then (controller[..closing + 1], controller[closing + 1..]) else (LOCAL, "")
    else
      var idx := LastIndexOf(controller, ':');
      if idx >= 0 then (controller[..idx], controller[idx + 1..]) else (controller, "")
  }

  function HostOrLocal(host: string): string {
    if JsTrim(host) != "" then JsTrim(host) else LOCAL
  }

  function SettleController(env: Env, w: Work): Work {
    if w.failed || !w.controller.Controller? || w.controller.address == "" then w
    else
      var (host, raw) := Address(env, w.controller.address);
      var existing := env.number(raw);
      if Keeps(w.used, existing) then w.(used := w.used + {existing.value}, controllerPort := existing)
      else
        var used := if existing.Some? && existing.value > 0 then w.used + {existing.value} else w.used;
        var g := AllocateFrom(env.offers, w.cursor, used, TRIES);
        match g.port
        case None => w.(used := used, cursor := g.cursor, failed := true)
        case Some(p) =>
          w.(controller := Controller(HostOrLocal(host) + ":" + Decimal(p)), controllerPort := Some(p),
             used := used + {p}, cursor := g.cursor, changes := w.changes["controller" := p],
             clashed := w.clashed || p in used)
  }

  /** The experimental settings once a missing block has been filled in. */
  function Effective(e: Experimental): Experimental {
    if e == Missing then Controller(DEFAULT_CONTROLLER) else e
  }

  function Start(inbounds: seq<Inbound>, e: Experimental): Work {
    Work(inbounds, Effective(e), None, UsedPorts(inbounds), 0, map[],
         false, false)
  }

  function SettleAll(env: Env, w: Work): Work {
    Settle(env, Settle(env, Settle(env, w, Mixed), Http), Socks)
  }

  function Reassign(env: Env, inbounds: seq<Inbound>, e: Experimental): Work {
    SettleController(env, SettleAll(env, Start(inbounds, e)))
  }

  // ---------------------------------------------------------------- ports stay apart

  predicate Covered(inbounds: seq<Inbound>, used: set<int>) {
    forall i | 0 <= i < |inbounds| :: PortOf(inbounds[i]).Some? ==> PortOf(inbounds[i]).value in used
  }

  /** No other inbound has the port of inbound f. */
  predicate Apart(inbounds: seq<Inbound>, f: nat)
    requires f < |inbounds|
  {
    PortOf(inbounds[f]).Some? ==> forall j | 0 <= j < |inbounds| && j != f :: PortOf(inbounds[j]) != PortOf(inbounds[f])
  }

  predicate Blocked(inbounds: seq<Inbound>, kind: Kind) {
    var f := First(inbounds, kind);
    f < |inbounds| && inbounds[f].block.None?
  }

  /** The first inbound of the kind is on and listens on a positive port. */
  predicate Live(inbounds: seq<Inbound>, kind: Kind) {
    var f := First(inbounds, kind);
    f < |inbounds| && inbounds[f].enable && PortOf(inbounds[f]).Some?
  }

  predicate Alone(inbounds: seq<Inbound>, kind: Kind) {
    var f := First(inbounds, kind);
    f < |inbounds| ==> Apart(inbounds, f)
  }

  lemma {:induction false} UsedCovers(inbounds: seq<Inbound>)
    ensures Covered(inbounds, UsedPorts(inbounds))
  {
    hide PortOf;
    if inbounds != [] {
      var k := |inbounds| - 1;
      UsedCovers(inbounds[..k]);
      assert forall i | 0 <= i < k :: inbounds[i] == inbounds[..k][i];
    }
  }

  /** The ports in use are the positive ones that inbounds listen on. */
  lemma {:induction false} UsedPortsAre(inbounds: seq<Inbound>, p: int)
    ensures p in UsedPorts(inbounds) <==>
            exists x :: x in inbounds && x.block.Some? && x.block.value.listen.Some?
                        && x.block.value.listen.value.port == Some(p) && p > 0
  {
    if inbounds != [] {
      var k := |inbounds| - 1;
      UsedPortsAre(inbounds[..k], p);
      assert inbounds == inbounds[..k] + [inbounds[k]];
    }
  }

  /** The edit every settled inbound undergoes: x takes the place at i (or is appended) and listens
      on a port nothing else uses. */
  lemma PlacedApart(l: seq<Inbound>, i: nat, x: Inbound, used: set<int>)
    requires i < |l| && PortOf(x).Some? && PortOf(x).value !in used
    requires forall j | 0 <= j < |l| && j != i :: PortOf(l[j]).Some? ==> PortOf(l[j]).value in used
    ensures Apart(l[i := x], i)
    ensures forall f | 0 <= f < |l| && f != i && Apart(l, f) :: Apart(l[i := x], f)
    ensures Covered(l[i := x], used + {PortOf(x).value})
  {
    hide PortOf;
  }

  lemma {:induction false} FirstIs(l: seq<Inbound>, kind: Kind, i: nat)
    requires i <= |l| && (i < |l| ==> l[i].kind == kind)
    requires forall j | 0 <= j < i :: l[j].kind != kind
    ensures First(l, kind) == i
  {
    if i > 0 {
      FirstIs(l[1..], kind, i - 1);
    }
  }

  lemma FirstAppend(l: seq<Inbound>, x: Inbound, kind: Kind)
    ensures var f := First(l, kind); First(l + [x], kind) == if f < |l| || x.kind == kind then f else |l| + 1
  {
    var f := First(l, kind);
    FirstIs(l + [x], kind, if f < |l| || x.kind == kind then f else |l| + 1);
  }

  predicate SameBut(x: Inbound, y: Inbound) {
    && x.id == y.id && x.kind == y.kind && x.tag == y.tag && (x.block.Some? <==> y.block.Some?)
    && (x.block.Some? ==> x.block.value.rest == y.block.value.rest)
  }

  /** What settling a kind leaves alone: every inbound but the first of the kind, which keeps
      everything but its switch and its listen address. */
  predicate OnlyFirstChanged(l: seq<Inbound>, m: seq<Inbound>, kind: Kind) {
    var f := First(l, kind);
    && |m| == (if f < |l| then |l| else |l| + 1)
    && (forall j | 0 <= j < |l| && j != f :: m[j] == l[j])
    && (f < |m| ==> SameBut(m[f], if f < |l| then l[f] else Default(kind)))
  }

  lemma PlacedShape(l: seq<Inbound>, kind: Kind, x: Inbound)
    requires var e := Ensure(l, kind); First(l, kind) < |e| && SameBut(x, e[First(l, kind)])
    ensures var e := Ensure(l, kind);
            && First(e, kind) == First(l, kind)
            && OnlyFirstChanged(l, e[First(l, kind) := x], kind) && OnlyFirstChanged(l, e, kind)
  {
    FirstAppend(l, Default(kind), kind);
  }

  lemma SettledInbound(env: Env, w: Work, kind: Kind)
    requires !w.failed
    ensures var e, f, m := Ensure(w.inbounds, kind), First(w.inbounds, kind), Settle(env, w, kind).inbounds;
            f < |e| == |m| && m == e[f := m[f]] && SameBut(m[f], e[f])
  {
    hide AllocateFrom, First, Default, KindName, Normal, Keeps;
    DefaultKind(kind);
    FirstAppend(w.inbounds, Default(kind), kind);
    var e, f := Ensure(w.inbounds, kind), First(w.inbounds, kind);
    assert First(e, kind) == f < |e|;
    assert e[f := e[f]] == e;
  }

  lemma DefaultKind(kind: Kind)
    ensures Default(kind).kind == kind
  {
  }

  lemma SettleShape(env: Env, w: Work, kind: Kind)
    requires !w.failed
    ensures OnlyFirstChanged(w.inbounds, Settle(env, w, kind).inbounds, kind)
  {
    hide OnlyFirstChanged, First, Settle;
    var l, f := w.inbounds, First(w.inbounds, kind);
    var e := Ensure(l, kind);
    assert f < |e|;
    SettledInbound(env, w, kind);
    var m := Settle(env, w, kind).inbounds;
    PlacedShape(l, kind, m[f]);
  }

  /** Kinds keep their first inbound, except that the settled one gains it. */
  lemma FirstAfter(l: seq<Inbound>, m: seq<Inbound>, kind: Kind, other: Kind)
    requires OnlyFirstChanged(l, m, kind)
    ensures First(m, kind) == First(l, kind)
    ensures other != kind ==> First(m, other) == if First(l, other) < |l| then First(l, other) else |m|
  {
    hide First, OnlyFirstChanged;
    FirstKinds(l, m, kind);
    FirstIs(m, kind, First(l, kind));
    if other != kind {
      FirstIs(m, other, if First(l, other) < |l| then First(l, other) else |m|);
    }
  }

  lemma FirstKinds(l: seq<Inbound>, m: seq<Inbound>, kind: Kind)
    requires OnlyFirstChanged(l, m, kind)
    ensures First(l, kind) < |m| && m[First(l, kind)].kind == kind
    ensures |m| == if First(l, kind) < |l| then |l| else |l| + 1
    ensures forall j | 0 <= j < |l| :: m[j].kind == l[j].kind
  {
  }

  // ---------------------------------------------------------------- one kind settled

  ghost predicate PositiveOffers(env: Env) {
    forall k: nat :: env.offers(k).Some? ==> env.offers(k).value > 0
  }

  lemma {:induction false} AllocatedPositive(env: Env, cursor: nat, used: set<int>, tries: nat)
    requires PositiveOffers(env)
    ensures var g := AllocateFrom(env.offers, cursor, used, tries); g.port.Some? ==> g.port.value > 0
    decreases tries
  {
    if tries > 0 && env.offers(cursor).Some? {
      AllocatedPositive(env, cursor + 1, used, tries - 1);
    }
  }

  /** Settling either skips an inbound without its block, or writes one that is on and listens on
      a port not used before. */
  lemma SettleCases(env: Env, w: Work, kind: Kind)
    requires PositiveOffers(env)
    requires var w' := Settle(env, w, kind); !w'.failed && !w'.clashed
    ensures var e, w' := Ensure(w.inbounds, kind), Settle(env, w, kind);
            var f := First(w.inbounds, kind);
            && f < |e|
            && if e[f].block.None? then w'.inbounds == e == w.inbounds && w'.used == w.used
               else
                 && |w'.inbounds| == |e| && var x := w'.inbounds[f];
                 && w'.inbounds == e[f := x] && x.enable && x.kind == e[f].kind && PortOf(x).Some?
                 && PortOf(x).value !in w.used && w'.used == w.used + {PortOf(x).value}
  {
    hide First, AllocateFrom;
    var l, f := w.inbounds, First(w.inbounds, kind);
    FirstAppend(l, Default(kind), kind);
    AllocatedPositive(env, w.cursor, w.used, TRIES);
  }

  lemma StillFine(env: Env, w: Work, kind: Kind)
    ensures w.failed ==> Settle(env, w, kind).failed
    ensures w.clashed ==> Settle(env, w, kind).clashed
  {
    hide First, AllocateFrom;
  }

  lemma NoBlockNoPort(x: Inbound)
    ensures x.block.None? ==> PortOf(x).None?
  {
  }

  lemma AloneWithoutPort(l: seq<Inbound>, f: nat)
    requires f < |l| && PortOf(l[f]).None?
    ensures Apart(l, f)
  {
  }

  /** Apart from the inbound about to be settled, every port is recorded as used. */
  lemma CoveredElsewhere(l: seq<Inbound>, kind: Kind, used: set<int>)
    requires Covered(l, used)
    ensures var e, f := Ensure(l, kind), First(l, kind);
            forall j | 0 <= j < |e| && j != f :: PortOf(e[j]).Some? ==> PortOf(e[j]).value in used
  {
    hide PortOf, Default;
  }

  predicate Settled(l: seq<Inbound>, kind: Kind) {
    First(l, kind) < |l| && Alone(l, kind) && (Live(l, kind) <==> !Blocked(l, kind))
  }

  lemma SettleSettles(env: Env, w: Work, kind: Kind)
    requires PositiveOffers(env) && Covered(w.inbounds, w.used)
    requires var w' := Settle(env, w, kind); !w'.failed && !w'.clashed
    ensures var w' := Settle(env, w, kind);
            && Covered(w'.inbounds, w'.used) && Settled(w'.inbounds, kind)
            && (Blocked(w'.inbounds, kind) <==> Blocked(w.inbounds, kind))
  {
    hide PortOf, Settle, Covered, Apart;
    SettleCases(env, w, kind);
    StillFine(env, w, kind);
    SettleShape(env, w, kind);
    var l, w', f := w.inbounds, Settle(env, w, kind), First(w.inbounds, kind);
    var e := Ensure(l, kind);
    FirstAfter(l, w'.inbounds, kind, kind);
    if e[f].block.None? {
      NoBlockNoPort(e[f]);
      AloneWithoutPort(e, f);
    } else {
      CoveredElsewhere(l, kind, w.used);
      PlacedApart(e, f, w'.inbounds[f], w.used);
      NoBlockNoPort(w'.inbounds[f]);
    }
  }

  /** Settling one kind does not disturb another that was settled. */
  lemma SettleKeepsOther(env: Env, w: Work, kind: Kind, other: Kind)
    requires PositiveOffers(env) && Covered(w.inbounds, w.used) && other != kind && Settled(w.inbounds, other)
    requires var w' := Settle(env, w, kind); !w'.failed && !w'.clashed
    ensures var w' := Settle(env, w, kind);
            Settled(w'.inbounds, other) && (Blocked(w'.inbounds, other) <==> Blocked(w.inbounds, other))
  {
    hide PortOf, Settle, Covered, Apart, Default;
    SettleCases(env, w, kind);
    StillFine(env, w, kind);
    SettleShape(env, w, kind);
    var l, w', f, g := w.inbounds, Settle(env, w, kind), First(w.inbounds, kind), First(w.inbounds, other);
    var e := Ensure(l, kind);
    FirstAfter(l, w'.inbounds, kind, other);
    if e[f].block.Some? {
      CoveredElsewhere(l, kind, w.used);
      PlacedApart(e, f, w'.inbounds[f], w.used);
      ApartInEnsured(l, kind, g, w'.inbounds[f], w.used);
    }
  }

  lemma ApartInEnsured(l: seq<Inbound>, kind: Kind, g: nat, x: Inbound, used: set<int>)
    requires var e, f := Ensure(l, kind), First(l, kind);
             && f < |e| && g < |l| && g != f && Apart(l, g) && PortOf(x).Some? && PortOf(x).value !in used
    requires Covered(l, used)
    ensures var e, f := Ensure(l, kind), First(l, kind); Apart(e[f := x], g)
  {
    hide PortOf, First, Default;
  }

  lemma SettleUntouched(env: Env, w: Work, kind: Kind, i: nat)
    requires i < |w.inbounds|
    ensures var m := Settle(env, w, kind).inbounds;
            && i < |m|
            && (i != First(w.inbounds, kind) ==> m[i] == w.inbounds[i])
            && SameBut(m[i], w.inbounds[i])
            && (forall k: Kind :: First(m, k) == i <==> First(w.inbounds, k) == i)
  {
    hide Settle, First;
    if w.failed {
      FailedStays(env, w, kind);
    } else {
      SettleShape(env, w, kind);
      var m := Settle(env, w, kind).inbounds;
      forall k: Kind ensures First(m, k) == i <==> First(w.inbounds, k) == i {
        FirstAfter(w.inbounds, m, kind, k);
      }
    }
  }

  lemma FailedStays(env: Env, w: Work, kind: Kind)
    requires w.failed
    ensures Settle(env, w, kind) == w
  {
    hide First, AllocateFrom;
  }

  // ---------------------------------------------------------------- the whole reassignment

  predicate Managed(kind: Kind) {
    kind in {Mixed, Http, Socks}
  }

  lemma StartFacts(inbounds: seq<Inbound>, e: Experimental)
    ensures var w := Start(inbounds, e); Covered(w.inbounds, w.used) && w.inbounds == inbounds && !w.failed
  {
    UsedCovers(inbounds);
  }

  lemma SettleAllSettles(env: Env, w: Work)
    requires PositiveOffers(env) && Covered(w.inbounds, w.used)
    requires var w' := SettleAll(env, w); !w'.failed && !w'.clashed
    ensures var w' := SettleAll(env, w);
            && Covered(w'.inbounds, w'.used)
            && (forall k | Managed(k) :: Settled(w'.inbounds, k))
            && (forall k | Managed(k) :: Blocked(w'.inbounds, k) <==> Blocked(w.inbounds, k))
  {
    hide Settle, Settled, Covered, Blocked;
    var w1 := Settle(env, w, Mixed);
    var w2 := Settle(env, w1, Http);
    var w3 := Settle(env, w2, Socks);
    StillFine(env, w2, Socks);
    StillFine(env, w1, Http);
    StillFine(env, w, Mixed);
    SettleSettles(env, w, Mixed);
    SettleSettles(env, w1, Http);
    SettleKeepsOther(env, w1, Http, Mixed);
    SettleSettles(env, w2, Socks);
    SettleKeepsOther(env, w2, Socks, Mixed);
    SettleKeepsOther(env, w2, Socks, Http);
    BlockedAfter(env, w, Mixed, Http);
    BlockedAfter(env, w, Mixed, Socks);
    BlockedAfter(env, w1, Http, Socks);
    assert w3 == SettleAll(env, w);
  }

  /** Settling one kind neither gives another its block nor takes it. */
  lemma BlockedAfter(env: Env, w: Work, kind: Kind, other: Kind)
    requires !w.failed && other != kind
    ensures Blocked(Settle(env, w, kind).inbounds, other) <==> Blocked(w.inbounds, other)
  {
    hide Settle, First;
    SettleShape(env, w, kind);
    FirstAfter(w.inbounds, Settle(env, w, kind).inbounds, kind, other);
  }

  /** The address in force carries this port: kept, it reads as the port; rewritten, it ends in it. */
  predicate Carries(env: Env, before: Experimental, after: Experimental, port: int) {
    && after.Controller? && port > 0
    && if after == before then env.number(Address(env, after.address).1) == Some(port) || EndsIn(after.address, port)
       else EndsIn(after.address, port)
  }

  predicate EndsIn(address: string, port: int) {
    port >= 0 && HasSuffix(address, ":" + Decimal(port))
  }

  lemma RewrittenEnds(host: string, port: nat)
    ensures EndsIn(host + ":" + Decimal(port), port)
  {
    hide Decimal;
    var s, t := host + ":" + Decimal(port), ":" + Decimal(port);
    assert s == host + t;
    assert s[|s| - |t|..] == t;
  }

  lemma ControllerSettled(env: Env, w: Work)
    requires PositiveOffers(env) && Covered(w.inbounds, w.used) && w.controllerPort.None?
    requires var w' := SettleController(env, w); !w'.failed && !w'.clashed
    ensures !w.failed && !w.clashed
    ensures var w' := SettleController(env, w);
            && w'.inbounds == w.inbounds
            && (w'.controllerPort.Some? <==> w.controller.Controller? && w.controller.address != "")
            && (w'.controllerPort.Some? ==>
                  && Carries(env, w.controller, w'.controller, w'.controllerPort.value)
                  && forall i | 0 <= i < |w.inbounds| :: PortOf(w.inbounds[i]) != w'.controllerPort)
            && (w'.controllerPort.None? ==> w'.controller == w.controller)
  {
    hide Address, AllocateFrom, Decimal, HostOrLocal, PortOf, EndsIn;
    if !w.failed && w.controller.Controller? && w.controller.address != "" {
      var existing := env.number(Address(env, w.controller.address).1);
      var used := if existing.Some? && existing.value > 0 then w.used + {existing.value} else w.used;
      AllocatedPositive(env, w.cursor, used, TRIES);
      var port := AllocateFrom(env.offers, w.cursor, used, TRIES).port;
      if port.Some? {
        RewrittenEnds(HostOrLocal(Address(env, w.controller.address).0), port.value);
      }
    }
  }

  lemma ControllerStillFine(env: Env, w: Work)
    ensures w.failed ==> SettleController(env, w).failed
    ensures w.clashed ==> SettleController(env, w).clashed
    ensures SettleController(env, w).inbounds == w.inbounds
  {
    hide Address, AllocateFrom, Decimal, HostOrLocal, Keeps;
  }

  lemma SettleKeepsController(env: Env, w: Work, kind: Kind)
    ensures var w' := Settle(env, w, kind); w'.controller == w.controller && w'.controllerPort == w.controllerPort
  {
    hide First, AllocateFrom;
  }

  /** When each allocation finds an unused port, no other inbound shares a port with the mixed,
      http or socks inbound, nor any inbound with the port that the controller address carries; and
      each of the three is on and listens on a positive port exactly when its first inbound was not
      missing its block. */
  lemma ReassignKeepsPortsApart(env: Env, inbounds: seq<Inbound>, e: Experimental, kind: Kind)
    requires PositiveOffers(env) && Managed(kind)
    requires var r := Reassign(env, inbounds, e); !r.failed && !r.clashed
    ensures var r := Reassign(env, inbounds, e);
            && First(r.inbounds, kind) < |r.inbounds|
            && Apart(r.inbounds, First(r.inbounds, kind))
            && (Live(r.inbounds, kind) <==> !Blocked(inbounds, kind))
            && (r.controllerPort.Some? <==> e == Missing || (e.Controller? && e.address != ""))
            && (r.controllerPort.Some? ==>
                  && Carries(env, Effective(e), r.controller, r.controllerPort.value)
                  && forall i | 0 <= i < |r.inbounds| :: PortOf(r.inbounds[i]) != r.controllerPort)
            && (r.controllerPort.None? ==> r.controller == e)
  {
    hide SettleController, Settle, Covered, PortOf, Apart, Live, Blocked, Carries;
    var w := Start(inbounds, e);
    var w1 := Settle(env, w, Mixed);
    var w2 := Settle(env, w1, Http);
    StartFacts(inbounds, e);
    ControllerStillFine(env, SettleAll(env, w));
    SettleAllSettles(env, w);
    SettleKeepsController(env, w, Mixed);
    SettleKeepsController(env, w1, Http);
    SettleKeepsController(env, w2, Socks);
    ControllerSettled(env, SettleAll(env, w));
    assert Settled(SettleAll(env, w).inbounds, kind);
  }

  /** Ports that are in use, or may come into use without being allocated. */
  function Taken(env: Env, inbounds: seq<Inbound>, e: Experimental): set<int> {
    UsedPorts(inbounds) + {20120, 20121, 20122}
    + match Effective(e)
      case Controller(address) =>
        (match env.number(Address(env, address).1) case Some(p) => {p} case None => {})
      case _ => {}
  }

  /** No request for a port is rejected, and the ports offered are positive, new and all different. */
  ghost predicate FreshOffers(env: Env, taken: set<int>) {
    && (forall k: nat :: env.offers(k).Some? && env.offers(k).value > 0 && env.offers(k).value !in taken)
    && forall j: nat, k: nat | j < k :: env.offers(j) != env.offers(k)
  }

  /** Every port in use was taken before or is an offer already consumed. */
  predicate Accounted(env: Env, taken: set<int>, used: set<int>, cursor: nat) {
    forall p | p in used :: p in taken || exists j: nat | j < cursor :: env.offers(j) == Some(p)
  }

  lemma FreshGrant(env: Env, taken: set<int>, used: set<int>, cursor: nat)
    requires FreshOffers(env, taken) && Accounted(env, taken, used, cursor)
    ensures var g := AllocateFrom(env.offers, cursor, used, TRIES);
            && g == Grant(env.offers(cursor), cursor + 1) && g.port.Some? && g.port.value !in used
            && Accounted(env, taken, used + {g.port.value}, cursor + 1)
  {
    var offer := env.offers(cursor);
    assert offer.Some? && offer.value !in taken;
    assert forall j: nat | j < cursor :: env.offers(j) != env.offers(cursor);
    forall p | p in used + {offer.value}
      ensures p in taken || exists j: nat | j < cursor + 1 :: env.offers(j) == Some(p)
    {
      if p == offer.value {
        assert env.offers(cursor) == Some(p);
      }
    }
  }

  lemma AccountedTaken(env: Env, taken: set<int>, used: set<int>, cursor: nat, p: int)
    requires Accounted(env, taken, used, cursor) && p in taken
    ensures Accounted(env, taken, used + {p}, cursor)
  {
  }

  /** No port is kept but a free default port. */
  lemma KeptIsDefault(l: seq<Inbound>, used: set<int>, kind: Kind, b: Block)
    requires var e, f := Ensure(l, kind), First(l, kind); Covered(l, used) && f < |e| && e[f].block == Some(b)
    ensures Keeps(used, Normal(b.listen).port) ==> Normal(b.listen).port == Some(DefaultPort(kind))
  {
    hide First, KindName;
    var e, f := Ensure(l, kind), First(l, kind);
    assert f < |l| ==> PortOf(l[f]).Some? ==> PortOf(l[f]).value in used;
  }

  lemma SettleFresh(env: Env, taken: set<int>, w: Work, kind: Kind)
    requires FreshOffers(env, taken) && Accounted(env, taken, w.used, w.cursor) && !w.failed && !w.clashed
    requires DefaultPort(kind) in taken && Covered(w.inbounds, w.used)
    ensures var w' := Settle(env, w, kind);
            !w'.failed && !w'.clashed && Accounted(env, taken, w'.used, w'.cursor)
  {
    hide First, AllocateFrom, FreshOffers, Accounted, KindName, DefaultPort, Normal, Covered, Keeps, Default;
    FreshGrant(env, taken, w.used, w.cursor);
    DefaultKind(kind);
    FirstAppend(w.inbounds, Default(kind), kind);
    AccountedTaken(env, taken, w.used, w.cursor, DefaultPort(kind));
    var e, f := Ensure(w.inbounds, kind), First(w.inbounds, kind);
    if e[f].block.Some? {
      KeptIsDefault(w.inbounds, w.used, kind, e[f].block.value);
    }
  }

  lemma ControllerFresh(env: Env, taken: set<int>, w: Work)
    requires FreshOffers(env, taken) && Accounted(env, taken, w.used, w.cursor) && !w.failed && !w.clashed
    requires w.controller.Controller? ==>
               var existing := env.number(Address(env, w.controller.address).1);
               existing.Some? ==> existing.value in taken
    ensures var w' := SettleController(env, w); !w'.failed && !w'.clashed
  {
    hide Address, AllocateFrom, FreshOffers, Accounted, HostOrLocal, Decimal;
    FreshGrant(env, taken, w.used, w.cursor);
    if w.controller.Controller? {
      var existing := env.number(Address(env, w.controller.address).1);
      if existing.Some? {
        AccountedTaken(env, taken, w.used, w.cursor, existing.value);
        FreshGrant(env, taken, w.used + {existing.value}, w.cursor);
      }
    }
  }

  lemma TakenParts(env: Env, inbounds: seq<Inbound>, e: Experimental)
    ensures var t := Taken(env, inbounds, e);
            && UsedPorts(inbounds) <= t && (forall k | Managed(k) :: DefaultPort(k) in t)
            && (Effective(e).Controller? ==>
                  var existing := env.number(Address(env, Effective(e).address).1);
                  existing.Some? ==> existing.value in t)
  {
    hide Address, UsedPorts;
  }

  /** With fresh offers no allocation fails to find an unused port, so the ports end up apart. */
  lemma FreshOffersSuffice(env: Env, inbounds: seq<Inbound>, e: Experimental)
    requires FreshOffers(env, Taken(env, inbounds, e))
    ensures var r := Reassign(env, inbounds, e); !r.failed && !r.clashed
    ensures PositiveOffers(env)
  {
    hide Settle, SettleController, Taken, Covered, UsedPorts, DefaultPort, Address;
    var taken, w := Taken(env, inbounds, e), Start(inbounds, e);
    TakenParts(env, inbounds, e);
    StartFacts(inbounds, e);
    var w1 := Settle(env, w, Mixed);
    SettleFresh(env, taken, w, Mixed);
    SettleSettles(env, w, Mixed);
    var w2 := Settle(env, w1, Http);
    SettleFresh(env, taken, w1, Http);
    SettleSettles(env, w1, Http);
    SettleFresh(env, taken, w2, Socks);
    SettleKeepsController(env, w, Mixed);
    SettleKeepsController(env, w1, Http);
    SettleKeepsController(env, w2, Socks);
    ControllerFresh(env, taken, SettleAll(env, w));
  }

  /** Whatever the allocator does, every inbound that is not the first of its kind among the three
      stays as it was, and the first ones keep all but their switch and listen address. */
  lemma ReassignTouchesOnlyThree(env: Env, inbounds: seq<Inbound>, e: Experimental, i: nat)
    requires i < |inbounds|
    ensures var m := Reassign(env, inbounds, e).inbounds;
            && i < |m| && SameBut(m[i], inbounds[i])
            && ((forall k | Managed(k) :: First(inbounds, k) != i) ==> m[i] == inbounds[i])
  {
    hide SettleController, Settle, First;
    var w := Start(inbounds, e);
    var w1 := Settle(env, w, Mixed);
    var w2 := Settle(env, w1, Http);
    StartFacts(inbounds, e);
    SettleUntouched(env, w, Mixed, i);
    SettleUntouched(env, w1, Http, i);
    SettleUntouched(env, w2, Socks, i);
    ControllerStillFine(env, SettleAll(env, w));
  }

  /** An existing inbound with a port of its own, on or off, never keeps it: its port counts as used
      from the start. So reassignment reports a change whenever such an inbound exists. */
  lemma ExistingPortAlwaysMoves(env: Env, w: Work, kind: Kind)
    requires !w.failed && Covered(w.inbounds, w.used) && !Settle(env, w, kind).failed
    requires First(w.inbounds, kind) < |w.inbounds| && PortOf(w.inbounds[First(w.inbounds, kind)]).Some?
    ensures var w' := Settle(env, w, kind); KindName(kind) in w'.changes
    ensures !Settle(env, w, kind).clashed ==>
              var f := First(w.inbounds, kind);
              PortOf(Settle(env, w, kind).inbounds[f]) != PortOf(w.inbounds[f])
  {
    hide First, AllocateFrom;
  }

  /** Only a rejected request for a port makes the operation throw. */
  ghost predicate NoneRejected(env: Env) {
    forall k: nat :: env.offers(k).Some?
  }

  lemma {:induction false} AllocationGrants(env: Env, cursor: nat, used: set<int>, tries: nat)
    requires NoneRejected(env)
    ensures AllocateFrom(env.offers, cursor, used, tries).port.Some?
    decreases tries
  {
    assert env.offers(cursor).Some?;
    if tries > 0 {
      AllocationGrants(env, cursor + 1, used, tries - 1);
    }
  }

  lemma SettleFinishes(env: Env, w: Work, kind: Kind)
    requires NoneRejected(env) && !w.failed
    ensures !Settle(env, w, kind).failed
  {
    hide AllocateFrom, First;
    AllocationGrants(env, w.cursor, w.used, TRIES);
  }

  lemma ReassignFinishes(env: Env, inbounds: seq<Inbound>, e: Experimental)
    requires NoneRejected(env)
    ensures !Reassign(env, inbounds, e).failed
  {
    hide Settle, AllocateFrom, Address, HostOrLocal, Decimal, UsedPorts, NoneRejected;
    var w := Start(inbounds, e);
    SettleFinishes(env, w, Mixed);
    SettleFinishes(env, Settle(env, w, Mixed), Http);
    SettleFinishes(env, Settle(env, Settle(env, w, Mixed), Http), Socks);
    var w3 := SettleAll(env, w);
    if w3.controller.Controller? {
      var existing := env.number(Address(env, w3.controller.address).1);
      AllocationGrants(env, w3.cursor, w3.used, TRIES);
      if existing.Some? {
        AllocationGrants(env, w3.cursor, w3.used + {existing.value}, TRIES);
      }
    }
  }

  // ---------------------------------------------------------------- the controller address

  lemma {:induction false} LastIndexIs(s: string, c: char, i: nat)
    requires i < |s| && s[i] == c && c !in s[i + 1..]
    ensures LastIndexOf(s, c) == i
  {
    if i < |s| - 1 {
      assert s[i + 1..][|s| - 2 - i] == s[|s| - 1];
      assert s[..|s| - 1][i + 1..] == s[i + 1..][..|s| - 2 - i];
      LastIndexIs(s[..|s| - 1], c, i);
    }
  }

  /** A rewritten address carries its port after the last colon. */
  lemma AddressCarriesPort(host: string, port: nat)
    ensures var s := host + ":" + Decimal(port);
            && LastIndexOf(s, ':') == |host| && s[..|host|] == host && s[|host| + 1..] == Decimal(port)
  {
    DecimalDenotes(port);
    var s := host + ":" + Decimal(port);
    assert s[|host| + 1..] == Decimal(port);
    LastIndexIs(s, ':', |host|);
  }

  /** Reading a rewritten address again gives back host and port, unless the host is bracketed or
      holds a scheme. */
  lemma AddressReadsBack(env: Env, host: string, port: nat)
    requires !HasScheme(host + ":" + Decimal(port))
    ensures Address(env, host + ":" + Decimal(port)) == (host, Decimal(port)) <== !HasPrefix(host, "[")
  {
    hide Decimal;
    var s := host + ":" + Decimal(port);
    AddressCarriesPort(host, port);
    if !HasPrefix(host, "[") {
      assert host != "" ==> s[..1] == host[..1];
      assert host == "" ==> s[..1] == ":";
    }
  }

  /** For a bracketed address the text handed to Number keeps its colon, so the port never counts
      as free and the controller always moves. */
  lemma BracketedControllerAlwaysMoves(env: Env, w: Work, host: string, port: string)
    requires ']' !in host && !HasScheme("[" + host + "]:" + port) && env.number(":" + port).None?
    requires !w.failed && w.controller == Controller("[" + host + "]:" + port)
    requires !SettleController(env, w).failed
    ensures Address(env, w.controller.address) == ("[" + host + "]", ":" + port)
    ensures "controller" in SettleController(env, w).changes
  {
    hide AllocateFrom, Decimal, HostOrLocal, HasScheme;
    var s := "[" + host + "]:" + port;
    IndexIs(s, ']', |host| + 1);
    assert s[..|host| + 2] == "[" + host + "]" && s[|host| + 2..] == ":" + port;
    assert s[..1] == "[";
  }

  lemma {:induction false} IndexIs(s: string, c: char, i: nat)
    requires i < |s| && s[i] == c && c !in s[..i]
    ensures IndexOf(s, c) == i
  {
    if i > 0 {
      assert s[0] == s[..i][0];
      assert s[..i][1..] == s[1..][..i - 1];
      IndexIs(s[1..], c, i - 1);
    }
  }

  // ---------------------------------------------------------------- the code

  /** One call of the operation: the profile it edits and the variables its inner functions share. */
  class Reassignment {
    const env: Env
    const target: Profile
    var used: set<int>
    var changes: map<string, int>
    var cursor: nat
    ghost var controllerPort: Option<int>
    ghost var failed: bool
    ghost var clashed: bool

    constructor (env: Env, target: Profile)
      ensures this.env == env && this.target == target
      ensures used == {} && changes == map[] && cursor == 0 && controllerPort == None && !failed && !clashed
    {
      this.env, this.target := env, target;
      used, changes, cursor := {}, map[], 0;
      controllerPort, failed, clashed := None, false, false;
    }

    ghost function Value(): Work
      reads this, target
    {
      Work(target.inbounds, target.experimental, controllerPort, used, cursor, changes, failed, clashed)
    }

    method CollectPorts()
      modifies this`used
      ensures used == old(used) + UsedPorts(target.inbounds)
    {
      hide PortOf;
      for i := 0 to |target.inbounds|
        invariant used == old(used) + UsedPorts(target.inbounds[..i])
      {
        assert target.inbounds[..i + 1][..i] == target.inbounds[..i];
        var port := PortOf(target.inbounds[i]);
        if port.Some? {
          used := used + {port.value};
        }
      }
      assert target.inbounds[..|target.inbounds|] == target.inbounds;
    }

    method EnsureInbound(kind: Kind) returns (i: nat)
      modifies target`inbounds
      ensures target.inbounds == Ensure(old(target.inbounds), kind)
      ensures i < |target.inbounds| && i == First(target.inbounds, kind)
    {
      i := 0;
      while i < |target.inbounds| && target.inbounds[i].kind != kind
        invariant i <= |target.inbounds|
        invariant forall j | 0 <= j < i :: target.inbounds[j].kind != kind
      {
        i := i + 1;
      }
      FirstIs(target.inbounds, kind, i);
      if i == |target.inbounds| {
        FirstAppend(target.inbounds, Default(kind), kind);
        target.inbounds := target.inbounds + [Default(kind)];
      }
    }

    /** Ten tries for an unused port, then one more that is taken as it comes; None when the offer
        is rejected. */
    method AllocatePort() returns (port: Option<nat>)
      modifies this`used, this`cursor, this`clashed
      ensures var g := AllocateFrom(env.offers, old(cursor), old(used), TRIES);
              && port == g.port && cursor == g.cursor
              && used == (if port.Some? then old(used) + {port.value} else old(used))
              && clashed == (old(clashed) || (port.Some? && port.value in old(used)))
    {
      var attempt: nat := 0;
      while attempt < TRIES
        invariant attempt <= TRIES && used == old(used) && clashed == old(clashed)
        invariant AllocateFrom(env.offers, old(cursor), old(used), TRIES)
                  == AllocateFrom(env.offers, cursor, used, TRIES - attempt)
      {
        var offer := env.offers(cursor);
        cursor := cursor + 1;
        if offer.None? {
          return None;
        }
        if offer.value !in used {
          used := used + {offer.value};
          return offer;
        }
        attempt := attempt + 1;
      }
      port := env.offers(cursor);
      cursor := cursor + 1;
      if port.Some? {
        clashed := clashed || port.value in used;
        used := used + {port.value};
      }
    }

    method UpdateInboundPort(kind: Kind) returns (ok: bool)
      requires !failed
      modifies this, target`inbounds
      ensures Value() == Settle(env, old(Value()), kind)
      ensures ok <==> !failed
    {
      hide AllocateFrom, First;
      var i := EnsureInbound(kind);
      var l := target.inbounds;
      var inbound := l[i];
      if inbound.block.None? {
        return true;
      }
      var block := inbound.block.value;
      var listen := Normal(block.listen);
      target.inbounds := l[i := Listening(inbound, block, listen)];
      if listen.port.Some? && listen.port.value > 0 && listen.port.value !in used {
        used := used + {listen.port.value};
        target.inbounds := l[i := Listening(inbound, block, listen).(enable := true)];
        return true;
      }
      var port := AllocatePort();
      if port.None? {
        failed := true;
        return false;
      }
      target.inbounds := l[i := Listening(inbound, block, listen.(port := Some(port.value))).(enable := true)];
      changes := changes[KindName(kind) := port.value];
      return true;
    }

    method UpdateController() returns (ok: bool)
      requires !failed && controllerPort == None
      modifies this, target`experimental
      ensures Value() == SettleController(env, old(Value()))
      ensures ok <==> !failed
    {
      hide AllocateFrom, Address, HostOrLocal, Decimal;
      if !target.experimental.Controller? || target.experimental.address == "" {
        return true;
      }
      var address := Address(env, target.experimental.address);
      var existing := env.number(address.1);
      if existing.Some? && existing.value > 0 && existing.value !in used {
        used := used + {existing.value};
        controllerPort := existing;
        return true;
      }
      if existing.Some? && existing.value > 0 {
        used := used + {existing.value};
      }
      var port := AllocatePort();
      if port.None? {
        failed := true;
        return false;
      }
      target.experimental := Controller(HostOrLocal(address.0) + ":" + Decimal(port.value));
      controllerPort := Some(port.value);
      changes := changes["controller" := port.value];
      return true;
    }

    /** None when an offer was rejected; otherwise the recorded changes. */
    method ReassignKernelProfilePorts() returns (ports: Option<map<string, int>>)
      requires used == {} && changes == map[] && cursor == 0 && controllerPort == None && !failed && !clashed
      modifies this, target`inbounds, target`experimental
      ensures var r := Reassign(env, old(target.inbounds), old(target.experimental));
              && Value() == r
              && ports == if r.failed then None else Some(r.changes)
    {
      hide Settle, SettleController, UsedPorts;
      CollectPorts();
      if target.experimental == Missing {
        target.experimental := Controller(DEFAULT_CONTROLLER);
      }
      ghost var w := Start(old(target.inbounds), old(target.experimental));
      assert Value() == w;
      var ok := UpdateInboundPort(Mixed);
      ghost var w1 := Value();
      if !ok {
        FailedStays(env, w1, Http);
        FailedStays(env, w1, Socks);
        ControllerFailedStays(env, w1);
        return None;
      }
      ok := UpdateInboundPort(Http);
      ghost var w2 := Value();
      if !ok {
        FailedStays(env, w2, Socks);
        ControllerFailedStays(env, w2);
        return None;
      }
      SettleKeepsController(env, w, Mixed);
      SettleKeepsController(env, w1, Http);
      ok := UpdateInboundPort(Socks);
      SettleKeepsController(env, w2, Socks);
      if !ok {
        ControllerFailedStays(env, Value());
        return None;
      }
      ok := UpdateController();
      ports := if ok then Some(changes) else None;
    }
  }

  lemma ControllerFailedStays(env: Env, w: Work)
    requires w.failed
    ensures SettleController(env, w) == w
  {
  }
}
