/** All interleavings of CDN operations and readiness probes: each step is one locked section or
    one answer from the network. */
module CdnSystem {
  import opened CdnNames
  import opened CdnStore
  import opened Text

  const MAX_TRIES: nat := 14

  /** Facts a probe learned in one of its tries. `NoSecret` says whether the record was still there
      when no secret was found. */
  datatype Evidence =
    | TlsReached(probe: nat, try: nat)
    | RelayReached(probe: nat, try: nat)
    | NoSecret(probe: nat, try: nat, present: bool)

  datatype Win = Win(probe: nat, try: nat, nodeID: string, host: string)

  /** A custom domain bound to a script under an account. */
  datatype Binding = Binding(accountID: string, id: string, host: string, scriptName: string)

  /** What has happened so far: scripts uploaded and hosts bound per account, remote deletes and
      detaches sent, zones listed as active per account, what probes saw, and "active" writes.
      `live` holds the scripts uploaded and not deleted since. */
  datatype Log = Log(
    uploads: set<(string, string)>, attaches: set<Binding>,
    deletes: set<(string, string)>, detaches: set<(string, string)>,
    listed: set<(string, Zone)>, seen: set<Evidence>, actives: set<Win>, live: set<(string, string)>)

  datatype Stage = Sleeping | Expected | TlsOk | HasSecret(secret: string) | Winning | Losing

  /** Where each operation stands between two locked sections. `rest` holds the nodes a Clear still
      has to delete; `of` notes which deployment a delete began with, and a set ready to commit notes
      the account its zone was listed under. */
  datatype Task =
    | Verifying(token: string, priorVerified: bool)
    | VerifyEnding
    | Deploying(nodeID: string, scriptName: string, backend: string, accountID: string, workersSubdomain: string)
    | DeployEnabling(record: Record, workersSubdomain: string)
    | DeployReading(record: Record)
    | DeployBinding(record: Record, custom: Option<CustomDomain>)
    | DeployReady(record: Record)
    | DeployEnding
    | DeleteDetaching(
        nodeID: string, of: nat, accountID: string, scriptName: string, domainID: string, rest: Option<seq<string>>)
    | DeleteRemoving(nodeID: string, of: nat, accountID: string, scriptName: string, rest: Option<seq<string>>)
    | DeleteReady(nodeID: string, of: nat, rest: Option<seq<string>>)
    | Clearing(ids: seq<string>)
    | SetProbing(zoneID: string, subdomain: string)
    | SetListing(zoneID: string, subdomain: string)
    | SetMatching(zoneID: string, subdomain: string, account: string)
    | SetReady(zone: Zone, subdomain: string, account: string)
    | Resuming(nodeID: string, host: string)
    | Probing(nodeID: string, host: string, tries: nat, stage: Stage)
    | Over

  datatype World = World(store: Store, log: Log, tasks: seq<Task>)

  /** An answer from outside: a refusal or failure, a plain success, whether a save succeeded (two
      for Clear), the verified account, a fresh path secret, a domain binding, a list of zones. */
  datatype Answer =
    | Refused
    | Granted
    | Persisted(saved: bool, alsoSaved: bool)
    | Account(accountID: string, email: string, workersSubdomain: string, saved: bool)
    | Secret(pathSecret: string)
    | Bound(id: string, hostname: string)
    | Zones(zones: seq<Zone>)

  datatype Action =
    | StartVerify(token: string)
    | StartDeploy(nodeID: string, scriptName: string, backend: string, host: string, port: int, template: bool)
    | StartDelete(nodeID: string)
    | StartClear(ids: seq<string>)
    | StartSet(zoneID: string, subdomain: string)
    | DropDomain(saved: bool)
    | Restart(order: seq<string>)
    | Continue(index: nat, answer: Answer)

  predicate Saved(a: Answer) {
    a.Persisted? && a.saved
  }

  /** What one step of an operation or probe does: the new state and log, where it stands next, and
      what it spawns. */
  datatype Change = Change(store: Store, log: Log, task: Task, spawned: seq<Task>)

  // ---------------------------------------------------------------- verify

  function VerifyStep(s: Store, log: Log, task: Task, a: Answer): Change
    requires task.Verifying? || task.VerifyEnding?
  {
    match task
    case VerifyEnding => Change(s.(verifying := false), log, Over, [])
    case Verifying(token, prior) =>
      if GoTrim(token) == "" then Change(s, log, VerifyEnding, [])
      else
        match a
        case Account(id, email, sub, saved) =>
          if id != "" then Change(VerifyCommit(s, GoTrim(token), id, email, sub, saved), log, VerifyEnding, [])
          else Change(FailVerify(s, prior, saved), log, VerifyEnding, [])
        case _ => Change(FailVerify(s, prior, Saved(a)), log, VerifyEnding, [])
  }

  // ---------------------------------------------------------------- deploy

  predicate IsDeploy(task: Task) {
    task.Deploying? || task.DeployEnabling? || task.DeployReading? || task.DeployBinding? || task.DeployReady?
    || task.DeployEnding?
  }

  /** A generated path secret: 32 hex digits. */
  predicate IsSecret(s: string) {
    |s| == 32 && forall i | 0 <= i < 32 :: HexChar(s[i])
  }

  function AfterEnabling(r: Record, workersSubdomain: string): Record {
    r.(workerHost := r.scriptName + "." + workersSubdomain + ".workers.dev")
  }

  /** i is the deployment's own number. */
  function DeployStep(s: Store, log: Log, i: nat, task: Task, a: Answer): Change
    requires IsDeploy(task)
  {
    match task
    case Deploying(node, script, backend, account, sub) =>
      if a.Secret? && IsSecret(a.pathSecret) then
        var r := Record(node, script, "", backend, i, "", "", NoHost, account, a.pathSecret);
        Change(s, log.(uploads := log.uploads + {(account, script)}, live := log.live + {(account, script)}),
               DeployEnabling(r, sub), [])
      else Change(s, log, DeployEnding, [])
    case DeployEnabling(r, sub) =>
      if sub == "" then Change(s, log, DeployReading(r), [])
      else if a == Granted then Change(s, log, DeployReading(AfterEnabling(r, sub)), [])
      else Change(s, log, DeployEnding, [])
    case DeployReading(r) => Change(s, log, DeployBinding(r, s.cfg.custom), [])
    case DeployBinding(r, custom) =>
      var host := if custom.Some? then HostForScript(custom.value, r.scriptName) else "";
      if host == "" || !a.Bound? || a.id == "" then Change(s, log, DeployReady(r), [])
      else
        var bound := if a.hostname == "" then host else a.hostname;
        Change(s, log.(attaches := log.attaches + {Binding(r.accountID, a.id, bound, r.scriptName)}),
               DeployReady(r.(customHost := bound, customDomainID := a.id, status := Pending)),
               [Probing(r.nodeID, bound, 0, Sleeping)])
    case DeployReady(r) => Change(DeployCommit(s, r.nodeID, r, Saved(a)), log, DeployEnding, [])
    case _ => Change(s.(deploying := false), log, Over, [])
  }

  // ---------------------------------------------------------------- delete and clear

  predicate IsDelete(task: Task) {
    task.DeleteDetaching? || task.DeleteRemoving? || task.DeleteReady? || task.Clearing?
  }

  function Next(rest: Option<seq<string>>): Task {
    match rest case None => Over case Some(ids) => Clearing(ids)
  }

  /** The first locked section of DeleteWorker. */
  function BeginDelete(s: Store, nodeID: string, rest: Option<seq<string>>): Task {
    if !MayDelete(s, nodeID) then Next(rest)
    else
      var r := s.deployments[nodeID];
      DeleteDetaching(nodeID, r.deployedAt, DeleteAccount(s, nodeID), r.scriptName, r.customDomainID, rest)
  }

  function DeleteStep(s: Store, log: Log, task: Task, a: Answer): Change
    requires IsDelete(task)
  {
    match task
    case DeleteDetaching(node, of, account, script, domain, rest) =>
      Change(s, if domain == "" then log else log.(detaches := log.detaches + {(account, domain)}),
             DeleteRemoving(node, of, account, script, rest), [])
    case DeleteRemoving(node, of, account, script, rest) =>
      Change(s, log.(deletes := log.deletes + {(account, script)},
                     live := if a == Granted then log.live - {(account, script)} else log.live),
             if a == Granted then DeleteReady(node, of, rest) else Next(rest), [])
    case DeleteReady(node, _, rest) => Change(DeleteCommit(s, node, Saved(a)), log, Next(rest), [])
    case Clearing(ids) =>
      if ids == [] then Change(ClearCommit(s, Saved(a), a.Persisted? && a.alsoSaved), log, Over, [])
      else Change(s, log, BeginDelete(s, ids[0], Some(ids[1..])), [])
    case _ => Change(s, log, Over, [])
  }

  // ---------------------------------------------------------------- set custom domain

  predicate IsSetTask(task: Task) {
    task.SetProbing? || task.SetListing? || task.SetMatching? || task.SetReady?
  }

  function FindZone(zones: seq<Zone>, id: string): Option<Zone> {
    if zones == [] then None else if zones[0].id == id then Some(zones[0]) else FindZone(zones[1..], id)
  }

  function SetStep(s: Store, log: Log, task: Task, a: Answer): Change
    requires IsSetTask(task)
  {
    match task
    case SetProbing(zone, sub) => Change(s, log, if a == Granted then SetListing(zone, sub) else Over, [])
    case SetListing(zone, sub) => Change(s, log, SetMatching(zone, sub, GoTrim(s.cfg.accountID)), [])
    case SetMatching(zone, sub, account) =>
      if a.Zones? then
        var found := FindZone(a.zones, zone);
        Change(s, log.(listed := log.listed + set z | z in a.zones :: (account, z)),
               if found.Some? then SetReady(found.value, sub, account) else Over, [])
      else Change(s, log, Over, [])
    case SetReady(zone, sub, _) => Change(SetCommit(s, zone, sub, Saved(a)), log, Over, [])
    case _ => Change(s, log, Over, [])
  }

  // ---------------------------------------------------------------- probes

  predicate IsProbe(task: Task) {
    task.Probing? || task.Resuming?
  }

  function See(log: Log, e: Evidence): Log {
    log.(seen := log.seen + {e})
  }

  /** i is the probe's own number. */
  function ProbeStep(s: Store, log: Log, i: nat, task: Task, a: Answer): Change
    requires IsProbe(task)
  {
    match task
    case Resuming(node, host) =>
      Change(Mark(s, node, host, Pending, Saved(a)), log, Probing(node, host, 0, Sleeping), [])
    case Probing(node, host, tries, stage) =>
      match stage
      case Sleeping =>
        if tries >= MAX_TRIES then Change(s, log, task.(stage := Losing), [])
        else Change(s, log, if Expects(s, node, host) then Probing(node, host, tries + 1, Expected) else Over, [])
      case Expected =>
        if a == Granted then Change(s, See(log, TlsReached(i, tries)), task.(stage := TlsOk), [])
        else Change(s, log, task.(stage := Sleeping), [])
      case TlsOk =>
        var secret := PathSecretFor(s, node, host);
        if secret == "" then
          Change(s, See(log, NoSecret(i, tries, Expects(s, node, host))), task.(stage := Winning), [])
        else Change(s, log, task.(stage := HasSecret(secret)), [])
      case HasSecret(_) =>
        if a == Granted then Change(s, See(log, RelayReached(i, tries)), task.(stage := Winning), [])
        else Change(s, log, task.(stage := Sleeping), [])
      case Winning =>
        var s' := Mark(s, node, host, Active, Saved(a));
        Change(s', if s' == s then log else log.(actives := log.actives + {Win(i, tries, node, host)}),
               Over, [])
      case Losing => Change(Mark(s, node, host, Failed, Saved(a)), log, Over, [])
  }

  // ---------------------------------------------------------------- steps

  function TaskStep(s: Store, log: Log, i: nat, task: Task, a: Answer): Change {
    if task.Verifying? || task.VerifyEnding? then VerifyStep(s, log, task, a)
    else if IsDeploy(task) then DeployStep(s, log, i, task, a)
    else if IsDelete(task) then DeleteStep(s, log, task, a)
    else if IsSetTask(task) then SetStep(s, log, task, a)
    else if IsProbe(task) then ProbeStep(s, log, i, task, a)
    else Change(s, log, Over, [])
  }

  function AllOver(n: nat): (tasks: seq<Task>)
    ensures |tasks| == n && forall i | 0 <= i < n :: tasks[i] == Over
  {
    if n == 0 then [] else AllOver(n - 1) + [Over]
  }

  /** The probes load() resumes, one for each unfinished custom host. */
  function Resumed(deployments: map<string, Record>, order: seq<string>): seq<Task> {
    if order == [] then []
    else
      var n, rest := order[0], Resumed(deployments, order[1..]);
      if n !in deployments || deployments[n].customHost == "" then rest
      else if deployments[n].status == Pending then [Probing(n, deployments[n].customHost, 0, Sleeping)] + rest
      else if deployments[n].status == Failed then [Resuming(n, deployments[n].customHost)] + rest
      else rest
  }

  function Spawn(w: World, store: Store, task: Task): World {
    w.(store := store, tasks := w.tasks + [task])
  }

  function Step(w: World, action: Action): World {
    var s := w.store;
    match action
    case StartVerify(token) =>
      if s.verifying then w else Spawn(w, s.(verifying := true), Verifying(token, Verified(s.cfg)))
    case StartDeploy(node, script, backend, host, port, template) =>
      if !MayDeploy(s, host, port, template) then w
      else
        Spawn(w, s.(deploying := true), Deploying(node, script, backend, s.cfg.accountID, s.cfg.workersSubdomain))
    case StartDelete(node) => Spawn(w, s, BeginDelete(s, node, None))
    case StartClear(ids) =>
      if (forall id | id in ids :: id in s.deployments) && (forall id | id in s.deployments :: id in ids)
      then Spawn(w, s, Clearing(ids)) else w
    case StartSet(zone, sub) =>
      if GoTrim(zone) != "" && ValidSubdomain(GoTrim(sub)) && Verified(s.cfg)
      then Spawn(w, s, SetProbing(GoTrim(zone), GoTrim(sub))) else w
    case DropDomain(saved) => w.(store := ClearDomain(s, saved))
    case Restart(order) =>
      World(Load(s.disk), w.log, AllOver(|w.tasks|) + Resumed(s.disk.deployments, order))
    case Continue(i, a) =>
      if i >= |w.tasks| then w
      else
        var c := TaskStep(s, w.log, i, w.tasks[i], a);
        World(c.store, c.log, w.tasks[i := c.task] + c.spawned)
  }

  function Run(w: World, actions: seq<Action>): World
    decreases |actions|
  {
    if actions == [] then w else Run(Step(w, actions[0]), actions[1..])
  }

  function Init(): World {
    World(Load(Disk(EMPTY, map[])), Log({}, {}, {}, {}, {}, {}, {}, {}), [])
  }

  // ---------------------------------------------------------------- composing runs

  lemma {:induction false} RunConcat(w: World, a: seq<Action>, b: seq<Action>)
    ensures Run(w, a + b) == Run(Run(w, a), b)
    decreases |a|
  {
    hide Step;
    if a == [] {
      assert a + b == b;
    } else {
      assert (a + b)[0] == a[0] && (a + b)[1..] == a[1..] + b;
      RunConcat(Step(w, a[0]), a[1..], b);
    }
  }

  lemma RunOne(w: World, a: Action)
    ensures Run(w, [a]) == Step(w, a)
  {
    hide Step;
    assert [a][1..] == [];
    assert Run(Step(w, a), []) == Step(w, a);
  }

  lemma RunLast(w: World, actions: seq<Action>, next: Action)
    ensures Run(w, actions + [next]) == Step(Run(w, actions), next)
  {
    hide Step, Run;
    RunConcat(w, actions, [next]);
    RunOne(Run(w, actions), next);
  }
}
