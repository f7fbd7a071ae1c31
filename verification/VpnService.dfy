/** Ownership of the native handles behind the mobile VPN service. */
module VpnService {
  import opened Text

  type Handle = nat

  /** The last two fields are a ledger: handles below `next` have been opened, and `closes` lists the
      close calls in order. */
  datatype Vpn = Vpn(
    running: bool, config: string, platform: bool, basePath: string,
    server: Option<Handle>, service: Option<Handle>, client: Option<Handle>,
    next: Handle, closes: seq<Handle>)

  /** How far a start attempt gets once its own checks have passed. */
  datatype StartOutcome =
    | PathsFail | SetupFail | ConfigInvalid | ServerStartFails | ServiceNewFails
    | ServiceStartFails | ConnectFails | Started

  /** Which of the three close calls report an error. */
  datatype CloseErrors = CloseErrors(client: bool, service: bool, server: bool)

  predicate AnyError(s: Vpn, e: CloseErrors) {
    (s.client.Some? && e.client) || (s.service.Some? && e.service) || (s.server.Some? && e.server)
  }

  function Of(h: Option<Handle>): seq<Handle> {
    match h case None => [] case Some(x) => [x]
  }

  /** How often h occurs in a log of close calls. */
  function Times(log: seq<Handle>, h: Handle): nat {
    multiset(log)[h]
  }

  /** How many of the service's fields hold h. */
  function Holders(s: Vpn, h: Handle): nat {
    (if s.server == Some(h) then 1 else 0) + (if s.service == Some(h) then 1 else 0)
    + (if s.client == Some(h) then 1 else 0)
  }

  predicate Startable(s: Vpn, config: string) {
    !s.running && GoTrim(config) != "" && s.platform && GoTrim(s.basePath) != ""
  }

  function StartWith(s: Vpn, config: string, o: StartOutcome): Vpn {
    if !Startable(s, config) then s
    else
      var a, b, c := s.next, s.next + 1, s.next + 2;
      match o
      case ServiceNewFails => s.(next := b, closes := s.closes + [a])
      case ServiceStartFails => s.(next := c, closes := s.closes + [b] + [a])
      case ConnectFails => s.(next := c, closes := s.closes + [b] + [a])
      case Started =>
        s.(running := true, config := config, server := Some(a), service := Some(b), client := Some(c),
           next := c + 1)
      case _ => s
  }

  lemma StartUnfolds(s: Vpn, config: string, o: StartOutcome)
    ensures Startable(s, config) <==> !s.running && GoTrim(config) != "" && s.platform && GoTrim(s.basePath) != ""
    ensures !Startable(s, config) || o in {PathsFail, SetupFail, ConfigInvalid, ServerStartFails} ==>
              StartWith(s, config, o) == s
    ensures Startable(s, config) && o == ServiceNewFails ==>
              StartWith(s, config, o) == s.(next := s.next + 1, closes := s.closes + [s.next])
    ensures Startable(s, config) && o in {ServiceStartFails, ConnectFails} ==>
              StartWith(s, config, o) == s.(next := s.next + 2, closes := s.closes + [s.next + 1] + [s.next])
    ensures Startable(s, config) && o == Started ==>
              StartWith(s, config, o)
              == s.(running := true, config := config, server := Some(s.next), service := Some(s.next + 1),
                    client := Some(s.next + 2), next := s.next + 3)
  {
    hide GoTrim;
  }

  /** stopLocked: every held handle is closed and forgotten, whatever the close calls report. */
  function CloseAll(s: Vpn): Vpn {
    s.(server := None, service := None, client := None,
       closes := s.closes + Of(s.client) + Of(s.service) + Of(s.server))
  }

  function StopNow(s: Vpn): Vpn {
    if !s.running then s else CloseAll(s).(running := false)
  }

  /** The part of Restart under its first lock, and whether Restart goes on to start again. */
  function RestartBegin(s: Vpn, e: CloseErrors): Vpn {
    if GoTrim(s.config) == "" || !s.running then s
    else if AnyError(s, e) then CloseAll(s)
    else CloseAll(s).(running := false)
  }

  predicate RestartContinues(s: Vpn, e: CloseErrors) {
    GoTrim(s.config) != "" && !(s.running && AnyError(s, e))
  }

  // ---------------------------------------------------------------- the ledger

  /** h has been opened and is held by exactly one field or closed exactly once, or is yet to be
      opened and is neither. */
  predicate Accounted(s: Vpn, h: Handle) {
    Holders(s, h) + Times(s.closes, h) == if h < s.next then 1 else 0
  }

  ghost predicate Balanced(s: Vpn) {
    forall h: Handle :: Accounted(s, h)
  }

  predicate AllHeld(s: Vpn) {
    s.server.Some? && s.service.Some? && s.client.Some?
  }

  predicate NoneHeld(s: Vpn) {
    s.server.None? && s.service.None? && s.client.None?
  }

  ghost predicate Sound(s: Vpn) {
    && Balanced(s)
    && (!s.running ==> NoneHeld(s))
    && (AllHeld(s) || NoneHeld(s))
  }

  lemma TimesAppend(log: seq<Handle>, o: Option<Handle>, h: Handle)
    ensures Times(log + Of(o), h) == Times(log, h) + if o == Some(h) then 1 else 0
  {
  }

  lemma StartAccounts(s: Vpn, config: string, o: StartOutcome, h: Handle)
    requires NoneHeld(s) && Accounted(s, h)
    ensures Accounted(StartWith(s, config, o), h)
  {
    hide Times, GoTrim;
    var a, b := Some(s.next), Some(s.next + 1);
    assert Of(a) == [s.next] && Of(b) == [s.next + 1];
    TimesAppend(s.closes, a, h);
    TimesAppend(s.closes, b, h);
    TimesAppend(s.closes + [s.next + 1], a, h);
  }

  lemma StartSound(s: Vpn, config: string, o: StartOutcome)
    requires Sound(s)
    ensures Sound(StartWith(s, config, o))
  {
    hide Accounted, GoTrim;
    if Startable(s, config) {
      forall h: Handle ensures Accounted(StartWith(s, config, o), h) {
        StartAccounts(s, config, o, h);
      }
    }
  }

  lemma CloseAllAccounts(s: Vpn, h: Handle)
    requires Accounted(s, h)
    ensures Accounted(CloseAll(s), h)
  {
    hide Times;
    TimesAppend(s.closes, s.client, h);
    TimesAppend(s.closes + Of(s.client), s.service, h);
    TimesAppend(s.closes + Of(s.client) + Of(s.service), s.server, h);
  }

  lemma CloseAllBalanced(s: Vpn)
    requires Balanced(s)
    ensures Balanced(CloseAll(s)) && NoneHeld(CloseAll(s))
  {
    hide Accounted;
    forall h: Handle ensures Accounted(CloseAll(s), h) {
      CloseAllAccounts(s, h);
    }
  }

  predicate SameLedger(s: Vpn, s': Vpn) {
    s'.server == s.server && s'.service == s.service && s'.client == s.client
    && s'.closes == s.closes && s'.next == s.next
  }

  lemma SameLedgerBalanced(s: Vpn, s': Vpn)
    requires Balanced(s) && SameLedger(s, s')
    ensures Balanced(s')
  {
    hide Times;
    assert forall h: Handle :: Accounted(s, h) ==> Accounted(s', h);
  }

  // ---------------------------------------------------------------- runs

  /** The service plus the configurations of restarts that have released the lock. */
  datatype World = World(vpn: Vpn, pending: seq<string>)

  datatype Op =
    | OpStart(config: string, outcome: StartOutcome)
    | OpStop
    | OpRestart(errors: CloseErrors)
    | OpRestartGoesOn(which: nat, restarted: StartOutcome)
    | OpUpdateConfig(newConfig: string)
    | OpConfigure(newPlatform: bool, newBase: string)

  /** One locked section; a pending restart starts with the configuration it read earlier. */
  function Perform(w: World, op: Op): World {
    match op
    case OpStart(config, o) => w.(vpn := StartWith(w.vpn, config, o))
    case OpStop => w.(vpn := StopNow(w.vpn))
    case OpRestart(e) =>
      World(RestartBegin(w.vpn, e), if RestartContinues(w.vpn, e) then w.pending + [w.vpn.config] else w.pending)
    case OpRestartGoesOn(i, o) =>
      if i >= |w.pending| then w
      else World(StartWith(w.vpn, w.pending[i], o), w.pending[..i] + w.pending[i + 1..])
    case OpUpdateConfig(config) => w.(vpn := w.vpn.(config := config))
    case OpConfigure(platform, base) => w.(vpn := w.vpn.(platform := platform, basePath := base))
  }

  function PerformAll(w: World, ops: seq<Op>): World
    decreases |ops|
  {
    if ops == [] then w else PerformAll(Perform(w, ops[0]), ops[1..])
  }

  function Fresh(): World {
    World(Vpn(false, "", false, "", None, None, None, 0, []), [])
  }

  lemma StopSound(s: Vpn)
    requires Sound(s)
    ensures Sound(StopNow(s))
  {
    hide Accounted;
    CloseAllBalanced(s);
    SameLedgerBalanced(CloseAll(s), CloseAll(s).(running := false));
  }

  lemma RestartSound(s: Vpn, e: CloseErrors)
    requires Sound(s)
    ensures Sound(RestartBegin(s, e))
  {
    hide Accounted, GoTrim;
    CloseAllBalanced(s);
    SameLedgerBalanced(CloseAll(s), CloseAll(s).(running := false));
  }

  lemma SettingSound(s: Vpn, config: string, platform: bool, base: string)
    requires Sound(s)
    ensures Sound(s.(config := config, platform := platform, basePath := base))
  {
    hide Accounted;
    SameLedgerBalanced(s, s.(config := config, platform := platform, basePath := base));
  }

  lemma PerformSound(w: World, op: Op)
    requires Sound(w.vpn)
    ensures Sound(Perform(w, op).vpn)
  {
    hide *;
    PerformUnfolds(w, op);
    match op
    case OpStart(config, o) => StartSound(w.vpn, config, o);
    case OpStop => StopSound(w.vpn);
    case OpRestart(e) => RestartSound(w.vpn, e);
    case OpRestartGoesOn(i, o) => if i < |w.pending| { StartSound(w.vpn, w.pending[i], o); }
    case OpUpdateConfig(config) => SettingSound(w.vpn, config, w.vpn.platform, w.vpn.basePath);
    case OpConfigure(platform, base) => SettingSound(w.vpn, w.vpn.config, platform, base);
  }

  lemma PerformUnfolds(w: World, op: Op)
    ensures Perform(w, op).vpn ==
            match op
            case OpStart(config, o) => StartWith(w.vpn, config, o)
            case OpStop => StopNow(w.vpn)
            case OpRestart(e) => RestartBegin(w.vpn, e)
            case OpRestartGoesOn(i, o) => if i < |w.pending| then StartWith(w.vpn, w.pending[i], o) else w.vpn
            case OpUpdateConfig(config) =>
              w.vpn.(config := config, platform := w.vpn.platform, basePath := w.vpn.basePath)
            case OpConfigure(platform, base) => w.vpn.(config := w.vpn.config, platform := platform, basePath := base)
  {
    hide StartWith, StopNow, RestartBegin, RestartContinues;
  }

  lemma {:induction false} RunsSound(w: World, ops: seq<Op>)
    requires Sound(w.vpn)
    ensures Sound(PerformAll(w, ops).vpn)
    decreases |ops|
  {
    hide Sound;
    if ops != [] {
      PerformSound(w, ops[0]);
      RunsSound(Perform(w, ops[0]), ops[1..]);
    }
  }

  lemma FreshSound()
    ensures Sound(Fresh().vpn)
  {
    assert forall h: Handle :: Accounted(Fresh().vpn, h);
  }

  /** After any interleaving of operations and failures: each handle opened is either held, and
      then never closed, or was closed exactly once; and a stopped service holds nothing, so a
      start never overwrites a live handle. */
  lemma HandlesNeitherLeakNorCloseTwice(ops: seq<Op>, h: Handle)
    ensures var s := PerformAll(Fresh(), ops).vpn;
            && (h < s.next ==>
                  (Holders(s, h) == 1 && h !in s.closes) || (Holders(s, h) == 0 && Times(s.closes, h) == 1))
            && (h >= s.next ==> Holders(s, h) == 0 && h !in s.closes)
            && (!s.running ==> NoneHeld(s))
  {
    FreshSound();
    RunsSound(Fresh(), ops);
    var s := PerformAll(Fresh(), ops).vpn;
    assert Accounted(s, h);
    assert h in s.closes <==> Times(s.closes, h) > 0;
  }

  // ---------------------------------------------------------------- running without handles

  /** The service reports running and holds nothing. */
  predicate Hollow(s: Vpn) {
    s.running && NoneHeld(s)
  }

  /** A restart of a live service in which some close call reports an error. */
  predicate HollowingOp(s: Vpn, op: Op) {
    && op.OpRestart? && GoTrim(s.config) != "" && s.running && AllHeld(s)
    && (op.errors.client || op.errors.service || op.errors.server)
  }

  /** A stop, or a restart with some configuration. */
  predicate EndingOp(s: Vpn, op: Op) {
    op.OpStop? || (op.OpRestart? && GoTrim(s.config) != "")
  }

  /** One operation leaves the service running without handles exactly when it is a restart of a
      live service whose close calls fail, or the service was so before and the operation neither
      stops it nor restarts it with a configuration. */
  lemma HollowAfterIff(w: World, op: Op)
    requires Sound(w.vpn)
    ensures Hollow(Perform(w, op).vpn) <==> HollowingOp(w.vpn, op) || (Hollow(w.vpn) && !EndingOp(w.vpn, op))
  {
    hide Balanced, GoTrim;
    if op.OpStart? {
      StartUnfolds(w.vpn, op.config, op.outcome);
    } else if op.OpRestartGoesOn? && op.which < |w.pending| {
      StartUnfolds(w.vpn, w.pending[op.which], op.restarted);
    }
  }

  /** The state before operation k of a run. */
  function Before(ops: seq<Op>, k: nat): Vpn
    requires k <= |ops|
  {
    PerformAll(Fresh(), ops[..k]).vpn
  }

  lemma {:induction false} PerformLast(w: World, ops: seq<Op>, op: Op)
    ensures PerformAll(w, ops + [op]) == Perform(PerformAll(w, ops), op)
    decreases |ops|
  {
    hide Perform;
    if ops == [] {
      assert [] + [op] == [op] && [op][1..] == [];
    } else {
      assert (ops + [op])[0] == ops[0] && (ops + [op])[1..] == ops[1..] + [op];
      PerformLast(Perform(w, ops[0]), ops[1..], op);
    }
  }

  /** Operation k was a failing restart of a live service and nothing has ended its effect. */
  predicate HollowSince(ops: seq<Op>, k: nat)
    requires k < |ops|
  {
    && HollowingOp(Before(ops, k), ops[k])
    && forall j | k < j < |ops| :: !EndingOp(Before(ops, j), ops[j])
  }

  /** Over every run: the service reports running and holds nothing exactly when some restart of the
      live service failed to close cleanly and no stop, nor restart with a configuration, has come
      after it. Otherwise running means that all three handles are held. */
  lemma {:induction false} RunningWithoutHandlesIff(ops: seq<Op>)
    ensures Hollow(PerformAll(Fresh(), ops).vpn) <==> exists k | 0 <= k < |ops| :: HollowSince(ops, k)
    ensures var s := PerformAll(Fresh(), ops).vpn; s.running && !Hollow(s) ==> AllHeld(s)
    decreases |ops|
  {
    hide Perform, Sound, HollowingOp, EndingOp, Hollow;
    FreshSound();
    RunsSound(Fresh(), ops);
    AllOrNone(PerformAll(Fresh(), ops).vpn);
    if ops == [] {
      FreshNotHollow();
    } else {
      var n := |ops| - 1;
      var front, op := ops[..n], ops[n];
      assert ops == front + [op];
      RunsSound(Fresh(), front);
      PerformLast(Fresh(), front, op);
      HollowAfterIff(PerformAll(Fresh(), front), op);
      RunningWithoutHandlesIff(front);
      HollowSinceStep(ops, front, op);
    }
  }

  lemma AllOrNone(s: Vpn)
    requires Sound(s)
    ensures AllHeld(s) || NoneHeld(s)
    ensures s.running && !Hollow(s) ==> AllHeld(s)
  {
    hide Balanced;
  }

  lemma FreshNotHollow()
    ensures !Hollow(PerformAll(Fresh(), []).vpn)
  {
  }

  lemma HollowSinceStep(ops: seq<Op>, front: seq<Op>, op: Op)
    requires ops == front + [op]
    ensures (exists k | 0 <= k < |ops| :: HollowSince(ops, k))
            <==> HollowingOp(PerformAll(Fresh(), front).vpn, op)
                 || ((exists k | 0 <= k < |front| :: HollowSince(front, k))
                     && !EndingOp(PerformAll(Fresh(), front).vpn, op))
  {
    hide PerformAll, HollowingOp, EndingOp;
    var n := |front|;
    assert ops[..n] == front && ops[n] == op;
    assert forall k | 0 <= k <= n :: ops[..k] == front[..k];
    assert forall k | 0 <= k < n :: ops[k] == front[k] && Before(ops, k) == Before(front, k);
    forall k | 0 <= k < n
      ensures HollowSince(ops, k) <==> HollowSince(front, k) && !EndingOp(Before(ops, n), op)
    {
      SinceLonger(ops, front, op, k);
    }
    assert HollowSince(ops, n) <==> HollowingOp(Before(ops, n), op);
  }

  lemma SinceLonger(ops: seq<Op>, front: seq<Op>, op: Op, k: nat)
    requires ops == front + [op] && k < |front|
    ensures HollowSince(ops, k) <==> HollowSince(front, k) && !EndingOp(Before(ops, |front|), op)
  {
    hide PerformAll, HollowingOp, EndingOp;
    var n := |front|;
    assert ops[n] == op;
    assert forall j | 0 <= j < n :: ops[..j] == front[..j] && ops[j] == front[j];
    assert forall j | 0 <= j < n :: Before(ops, j) == Before(front, j);
  }

  /** It happens. */
  lemma FailedRestartExample()
    ensures var ops := [OpConfigure(true, "/base"), OpStart("{}", Started), OpRestart(CloseErrors(true, false, false))];
            var s := PerformAll(Fresh(), ops).vpn;
            s.running && NoneHeld(s)
  {
    var w1 := Perform(Fresh(), OpConfigure(true, "/base"));
    assert GoTrim("/base") == "/base" && GoTrim("{}") == "{}" by {
      TightIsTrimmed("/base", GoSpace);
      TightIsTrimmed("{}", GoSpace);
    }
    var w2 := Perform(w1, OpStart("{}", Started));
    assert AllHeld(w2.vpn) && w2.vpn.running;
    var w3 := Perform(w2, OpRestart(CloseErrors(true, false, false)));
    var ops := [OpConfigure(true, "/base"), OpStart("{}", Started), OpRestart(CloseErrors(true, false, false))];
    assert ops[1..][0] == OpStart("{}", Started) && ops[1..][1..] == [OpRestart(CloseErrors(true, false, false))];
    assert [OpRestart(CloseErrors(true, false, false))][1..] == [];
    assert PerformAll(w2, ops[1..][1..]) == w3;
    assert PerformAll(w1, ops[1..]) == w3;
  }

  // ---------------------------------------------------------------- starting and restarting

  /** All three handles are held and were opened at or after this point of the ledger. */
  predicate HeldSince(s: Vpn, next: Handle) {
    && s.server.Some? && s.service.Some? && s.client.Some?
    && s.server.value >= next && s.service.value >= next && s.client.value >= next
  }

  /** In every run: a start of a running service changes nothing. A start of a stopped one leaves it
      running, with three handles opened by this very start and the new configuration, exactly when
      the configuration and the base path are not blank, the platform is set and every step
      succeeds; otherwise it stays stopped, holds nothing and keeps its configuration. */
  lemma StartOutcomes(ops: seq<Op>, config: string, o: StartOutcome)
    ensures var w := PerformAll(Fresh(), ops);
            var s, s' := w.vpn, Perform(w, OpStart(config, o)).vpn;
            var ready := GoTrim(config) != "" && s.platform && GoTrim(s.basePath) != "";
            && Perform(w, OpStart(config, o)).pending == w.pending
            && (s.running ==> s' == s)
            && (!s.running && ready && o == Started ==>
                  s'.running && s'.config == config && HeldSince(s', s.next) && s'.closes == s.closes)
            && (!s.running && !(ready && o == Started) ==> !s'.running && NoneHeld(s') && s'.config == s.config)
  {
    hide PerformAll, GoTrim, Balanced;
    FreshSound();
    RunsSound(Fresh(), ops);
    var s := PerformAll(Fresh(), ops).vpn;
    StartUnfolds(s, config, o);
    hide StartWith;
  }

  /** In every run, a restart that nothing interrupts: without a configuration it does nothing. When
      the service is running and a close call on a handle it holds reports an error, it goes no
      further: the service holds nothing and still reports running. Otherwise everything held is
      closed and the service is started anew with the same configuration, which leaves it running,
      on three new handles, exactly when the platform and the base path are there and every step of
      the start succeeds. */
  lemma RestartOutcomes(ops: seq<Op>, e: CloseErrors, o: StartOutcome)
    ensures var w := PerformAll(Fresh(), ops);
            var s, w' := w.vpn, Perform(Perform(w, OpRestart(e)), OpRestartGoesOn(|w.pending|, o));
            var s' := w'.vpn;
            var stuck := s.running && AllHeld(s) && (e.client || e.service || e.server);
            && w'.pending == w.pending && s'.config == s.config
            && (GoTrim(s.config) == "" ==> Perform(w, OpRestart(e)) == w && w' == w)
            && (GoTrim(s.config) != "" ==> forall h :: Holders(s, h) > 0 ==> h in s'.closes)
            && (GoTrim(s.config) != "" && stuck ==> s'.running && NoneHeld(s') && s'.next == s.next)
            && (GoTrim(s.config) != "" && !stuck ==>
                  && (s'.running <==> o == Started && s.platform && GoTrim(s.basePath) != "")
                  && (if s'.running then HeldSince(s', s.next) else NoneHeld(s')))
  {
    hide PerformAll, GoTrim, Balanced, Times;
    FreshSound();
    RunsSound(Fresh(), ops);
    var w := PerformAll(Fresh(), ops);
    var s, w1 := w.vpn, Perform(w, OpRestart(e));
    StartUnfolds(w1.vpn, s.config, o);
    if RestartContinues(s, e) {
      assert w1.pending == w.pending + [s.config] && w1.pending[|w.pending|] == s.config;
      assert w1.pending[..|w.pending|] + w1.pending[|w.pending| + 1..] == w.pending;
    }
    hide StartWith;
  }

  // ---------------------------------------------------------------- the code

  class Service {
    var running: bool
    var config: string
    var platform: bool
    var basePath: string
    var server: Option<Handle>
    var service: Option<Handle>
    var client: Option<Handle>
    ghost var next: Handle
    ghost var closes: seq<Handle>

    constructor ()
      ensures Value() == Fresh().vpn
    {
      running, config, platform, basePath := false, "", false, "";
      server, service, client := None, None, None;
      next, closes := 0, [];
    }

    ghost function Value(): Vpn
      reads this
    {
      Vpn(running, config, platform, basePath, server, service, client, next, closes)
    }

    /** a, b and c are what the three opens return: handles never seen before. */
    method Start(configJSON: string, o: StartOutcome, a: Handle, b: Handle, c: Handle) returns (ok: bool)
      requires a == next && b == next + 1 && c == next + 2
      modifies this
      ensures Value() == StartWith(old(Value()), configJSON, o)
      ensures ok <==> Startable(old(Value()), configJSON) && o == Started
    {
      ghost var was := Value();
      StartUnfolds(was, configJSON, o);
      hide StartWith, Startable, GoTrim;
      if running {
        return false;
      }
      if GoTrim(configJSON) == "" {
        return false;
      }
      if !platform {
        return false;
      }
      if GoTrim(basePath) == "" || o == PathsFail || o == SetupFail || o == ConfigInvalid {
        return false;
      }
      if o == ServerStartFails {
        return false;
      }
      next := next + 1;
      if o == ServiceNewFails {
        closes := closes + [a];
        return false;
      }
      next := next + 1;
      if o == ServiceStartFails || o == ConnectFails {
        closes := closes + [b] + [a];
        return false;
      }
      next := next + 1;
      service := Some(b);
      server := Some(a);
      client := Some(c);
      config := configJSON;
      running := true;
      return true;
    }

    method StopLocked(e: CloseErrors) returns (failed: bool)
      modifies this`server, this`service, this`client, this`closes
      ensures Value() == CloseAll(old(Value()))
      ensures failed <==> AnyError(old(Value()), e)
    {
      failed := false;
      if client.Some? {
        closes := closes + [client.value];
        if e.client {
          failed := true;
        }
      }
      if service.Some? {
        closes := closes + [service.value];
        if e.service {
          failed := true;
        }
      }
      if server.Some? {
        closes := closes + [server.value];
        if e.server {
          failed := true;
        }
      }
      client := None;
      service := None;
      server := None;
    }

    method Stop(e: CloseErrors) returns (ok: bool)
      modifies this
      ensures Value() == StopNow(old(Value()))
      ensures ok <==> old(running) && !AnyError(old(Value()), e)
    {
      if !running {
        return false;
      }
      var failed := StopLocked(e);
      running := false;
      return !failed;
    }

    /** Restart up to the release of the lock; on success the caller starts with the returned
        configuration, after whatever other calls get in between. */
    method RestartLocked(e: CloseErrors) returns (goOn: Option<string>)
      modifies this
      ensures Value() == RestartBegin(old(Value()), e)
      ensures goOn == if RestartContinues(old(Value()), e) then Some(old(config)) else None
    {
      if GoTrim(config) == "" {
        return None;
      }
      if running {
        var failed := StopLocked(e);
        if failed {
          return None;
        }
        running := false;
      }
      return Some(config);
    }
  }
}
