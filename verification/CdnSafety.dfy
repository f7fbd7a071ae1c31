/** What holds in every interleaving of CDN operations, probes and restarts. */
module CdnSafety {
  import opened CdnNames
  import opened CdnStore
  import opened CdnSystem
  import opened Text

  // ---------------------------------------------------------------- the invariant

  /** The probe's try saw a TLS success, and a relay success or no secret. */
  predicate Won(log: Log, probe: nat, try: nat) {
    && TlsReached(probe, try) in log.seen
    && (RelayReached(probe, try) in log.seen || NoSecret(probe, try, false) in log.seen)
  }

  predicate RecordOk(log: Log, nodeID: string, r: Record) {
    && r.nodeID == nodeID
    && GoTrim(r.accountID) != "" && (r.accountID, r.scriptName) in log.uploads
    && GoTrim(r.pathSecret) != ""
    && (r.customHost != "" <==> r.status != NoHost)
    && (r.customHost != "" <==> r.customDomainID != "")
    && (r.customDomainID != "" ==> Binding(r.accountID, r.customDomainID, r.customHost, r.scriptName) in log.attaches)
    && (r.status == Active ==> exists m | m in log.actives :: m.nodeID == nodeID && m.host == r.customHost)
  }

  predicate RecordsOk(log: Log, d: map<string, Record>) {
    forall n | n in d :: RecordOk(log, n, d[n])
  }

  /** The binding was made under this account. */
  predicate Made(log: Log, account: string, id: string) {
    exists b | b in log.attaches :: b.accountID == account && b.id == id
  }

  predicate TaskOk(log: Log, i: nat, task: Task) {
    match task
    case Deploying(_, _, _, account, _) => GoTrim(account) != ""
    case DeployEnabling(r, _) => RecordOk(log, r.nodeID, r) && r.status == NoHost
    case DeployReading(r) => RecordOk(log, r.nodeID, r) && r.status == NoHost
    case DeployBinding(r, _) => RecordOk(log, r.nodeID, r) && r.status == NoHost
    case DeployReady(r) => RecordOk(log, r.nodeID, r) && (r.status == NoHost || r.status == Pending)
    case DeleteDetaching(_, _, account, script, domain, _) =>
      (account, script) in log.uploads && (domain != "" ==> Made(log, account, domain))
    case DeleteRemoving(_, _, account, script, _) => (account, script) in log.uploads
    case Resuming(_, host) => host != ""
    case Probing(_, host, tries, stage) =>
      && host != "" && tries <= MAX_TRIES
      && (stage == TlsOk || stage.HasSecret? ==> TlsReached(i, tries) in log.seen)
      && (stage == Winning ==> Won(log, i, tries))
    case _ => true
  }

  predicate TasksOk(log: Log, tasks: seq<Task>) {
    forall i: nat | i < |tasks| :: TaskOk(log, i, tasks[i])
  }

  /** Remote calls go where things were made, "active" was earned, and no probe found an empty
      secret on a record that was there. */
  predicate LogOk(log: Log) {
    && log.deletes <= log.uploads
    && (forall d | d in log.detaches :: Made(log, d.0, d.1))
    && (forall m | m in log.actives :: Won(log, m.probe, m.try))
    && (forall e | e in log.seen :: e.NoSecret? ==> !e.present)
  }

  predicate StoreOk(log: Log, s: Store) {
    RecordsOk(log, s.deployments) && RecordsOk(log, s.disk.deployments)
  }

  predicate Inv(w: World) {
    LogOk(w.log) && StoreOk(w.log, w.store) && TasksOk(w.log, w.tasks)
  }

  // ---------------------------------------------------------------- the log only grows

  predicate Grows(l: Log, m: Log) {
    && l.uploads <= m.uploads && l.attaches <= m.attaches && l.deletes <= m.deletes
    && l.detaches <= m.detaches && l.listed <= m.listed && l.seen <= m.seen && l.actives <= m.actives
  }

  lemma RecordGrows(l: Log, m: Log, n: string, r: Record)
    requires Grows(l, m) && RecordOk(l, n, r)
    ensures RecordOk(m, n, r)
  {
    hide GoTrim;
  }

  lemma RecordsGrow(l: Log, m: Log, d: map<string, Record>)
    requires Grows(l, m) && RecordsOk(l, d)
    ensures RecordsOk(m, d)
  {
    hide RecordOk;
    forall n | n in d ensures RecordOk(m, n, d[n]) {
      RecordGrows(l, m, n, d[n]);
    }
  }

  lemma TaskGrows(l: Log, m: Log, i: nat, task: Task)
    requires Grows(l, m) && TaskOk(l, i, task)
    ensures TaskOk(m, i, task)
  {
    hide GoTrim, RecordOk;
    match task
    case DeployEnabling(r, _) => RecordGrows(l, m, r.nodeID, r);
    case DeployReading(r) => RecordGrows(l, m, r.nodeID, r);
    case DeployBinding(r, _) => RecordGrows(l, m, r.nodeID, r);
    case DeployReady(r) => RecordGrows(l, m, r.nodeID, r);
    case DeleteDetaching(_, _, _, _, _, _) => MadeGrows(l, m);
    case _ =>
  }

  // ---------------------------------------------------------------- steps of one task

  /** A step of a task keeps what is known, and a task it spawns starts out well whatever its
      number. */
  ghost predicate ChangeOk(log: Log, i: nat, c: Change) {
    && Grows(log, c.log) && LogOk(c.log) && StoreOk(c.log, c.store) && TaskOk(c.log, i, c.task)
    && |c.spawned| <= 1 && (c.spawned != [] ==> forall j: nat :: TaskOk(c.log, j, c.spawned[0]))
  }

  lemma SameRecords(log: Log, m: Log, s: Store, s': Store)
    requires StoreOk(log, s) && Grows(log, m)
    requires s'.deployments == s.deployments && s'.disk.deployments == s.disk.deployments
    ensures StoreOk(m, s')
  {
    hide RecordsOk, Grows;
    RecordsGrow(log, m, s.deployments);
    RecordsGrow(log, m, s.disk.deployments);
  }

  lemma ConfigChanged(log: Log, s: Store, c: Config, saved: bool)
    requires StoreOk(log, s)
    ensures StoreOk(log, WithConfig(s, c, saved))
  {
    hide RecordsOk;
  }

  lemma DeploymentsChanged(log: Log, s: Store, d: map<string, Record>, saved: bool)
    requires StoreOk(log, s) && RecordsOk(log, d)
    ensures StoreOk(log, WithDeployments(s, d, saved))
  {
    hide RecordsOk;
  }

  lemma SameGrows(l: Log)
    ensures Grows(l, l)
  {
  }

  lemma VerifyStepOk(s: Store, log: Log, i: nat, task: Task, a: Answer)
    requires (task.Verifying? || task.VerifyEnding?) && LogOk(log) && StoreOk(log, s)
    ensures ChangeOk(log, i, VerifyStep(s, log, task, a))
  {
    hide LogOk, RecordsOk, Grows, GoTrim;
    SameGrows(log);
  }

  function Uploaded(log: Log, account: string, script: string): Log {
    log.(uploads := log.uploads + {(account, script)}, live := log.live + {(account, script)})
  }

  lemma MadeGrows(l: Log, m: Log)
    requires Grows(l, m)
    ensures forall account: string, id: string :: Made(l, account, id) ==> Made(m, account, id)
  {
  }

  lemma UploadGrows(log: Log, account: string, script: string)
    requires LogOk(log)
    ensures var m := Uploaded(log, account, script); Grows(log, m) && LogOk(m)
  {
  }

  lemma AttachGrows(log: Log, b: Binding)
    requires LogOk(log)
    ensures var m := log.(attaches := log.attaches + {b}); Grows(log, m) && LogOk(m)
  {
    MadeGrows(log, log.(attaches := log.attaches + {b}));
  }

  lemma SecretNotBlank(s: string)
    requires IsSecret(s)
    ensures GoTrim(s) != ""
  {
    assert HexChar(s[0]) && HexChar(s[31]);
    TightIsTrimmed(s, GoSpace);
  }

  lemma DeployStepOk(s: Store, log: Log, i: nat, task: Task, a: Answer)
    requires IsDeploy(task) && LogOk(log) && StoreOk(log, s) && TaskOk(log, i, task)
    ensures ChangeOk(log, i, DeployStep(s, log, i, task, a))
  {
    hide LogOk, StoreOk, Grows, GoTrim, HostForScript, RecordOk, IsSecret, Saved;
    SameGrows(log);
    SameRecords(log, log, s, s.(deploying := false));
    SameRecords(log, log, s, s);
    match task
    case Deploying(node, script, backend, account, sub) =>
      if a.Secret? && IsSecret(a.pathSecret) {
        UploadOk(s, log, i, task, a);
      }
    case DeployEnabling(r, sub) =>
      EnableOk(log, r, sub);
    case DeployReading(r) =>
    case DeployBinding(r, custom) =>
      var host := if custom.Some? then HostForScript(custom.value, r.scriptName) else "";
      if host != "" && a.Bound? && a.id != "" {
        BindOk(s, log, r, a.id, if a.hostname == "" then host else a.hostname);
      }
    case DeployReady(r) =>
      CommitOk(log, s, r, Saved(a));
    case _ =>
  }

  lemma UploadOk(s: Store, log: Log, i: nat, task: Task, a: Answer)
    requires task.Deploying? && LogOk(log) && StoreOk(log, s) && GoTrim(task.accountID) != ""
    requires a.Secret? && IsSecret(a.pathSecret)
    ensures var m := Uploaded(log, task.accountID, task.scriptName);
            && Grows(log, m) && LogOk(m) && StoreOk(m, s)
            && RecordOk(m, task.nodeID, Record(task.nodeID, task.scriptName, "", task.backend, i, "", "", NoHost,
                                               task.accountID, a.pathSecret))
  {
    hide LogOk, StoreOk, Grows, GoTrim, IsSecret;
    UploadGrows(log, task.accountID, task.scriptName);
    SameRecords(log, Uploaded(log, task.accountID, task.scriptName), s, s);
    SecretNotBlank(a.pathSecret);
  }

  lemma EnableOk(log: Log, r: Record, sub: string)
    requires RecordOk(log, r.nodeID, r)
    ensures RecordOk(log, r.nodeID, AfterEnabling(r, sub))
  {
    hide GoTrim;
  }

  lemma BindOk(s: Store, log: Log, r: Record, id: string, host: string)
    requires LogOk(log) && StoreOk(log, s) && RecordOk(log, r.nodeID, r) && id != "" && host != ""
    ensures var m := log.(attaches := log.attaches + {Binding(r.accountID, id, host, r.scriptName)});
            && Grows(log, m) && LogOk(m) && StoreOk(m, s)
            && RecordOk(m, r.nodeID, r.(customHost := host, customDomainID := id, status := Pending))
  {
    hide LogOk, StoreOk, Grows, GoTrim;
    var b := Binding(r.accountID, id, host, r.scriptName);
    AttachGrows(log, b);
    SameRecords(log, log.(attaches := log.attaches + {b}), s, s);
  }

  lemma CommitOk(log: Log, s: Store, r: Record, saved: bool)
    requires StoreOk(log, s) && RecordOk(log, r.nodeID, r)
    ensures StoreOk(log, DeployCommit(s, r.nodeID, r, saved))
  {
    hide RecordOk;
    DeploymentsChanged(log, s, s.deployments[r.nodeID := r], saved);
  }

  lemma DetachGrows(log: Log, account: string, id: string)
    requires LogOk(log) && Made(log, account, id)
    ensures var m := log.(detaches := log.detaches + {(account, id)}); Grows(log, m) && LogOk(m)
  {
    MadeGrows(log, log.(detaches := log.detaches + {(account, id)}));
  }

  function Deleted(log: Log, account: string, script: string, gone: bool): Log {
    log.(deletes := log.deletes + {(account, script)},
         live := if gone then log.live - {(account, script)} else log.live)
  }

  lemma DeleteGrows(log: Log, account: string, script: string, gone: bool)
    requires LogOk(log) && (account, script) in log.uploads
    ensures var m := Deleted(log, account, script, gone); Grows(log, m) && LogOk(m)
  {
  }

  lemma BeginDeleteOk(log: Log, s: Store, i: nat, nodeID: string, rest: Option<seq<string>>)
    requires StoreOk(log, s)
    ensures TaskOk(log, i, BeginDelete(s, nodeID, rest))
  {
    if MayDelete(s, nodeID) {
      assert RecordOk(log, nodeID, s.deployments[nodeID]);
    }
  }

  lemma NextOk(log: Log, i: nat, rest: Option<seq<string>>)
    ensures TaskOk(log, i, Next(rest))
  {
  }

  lemma DeleteStepOk(s: Store, log: Log, i: nat, task: Task, a: Answer)
    requires IsDelete(task) && LogOk(log) && StoreOk(log, s) && TaskOk(log, i, task)
    ensures ChangeOk(log, i, DeleteStep(s, log, task, a))
  {
    hide LogOk, StoreOk, Grows, GoTrim, Saved, BeginDelete, Next;
    SameGrows(log);
    match task
    case DeleteDetaching(node, of, account, script, domain, rest) =>
      if domain != "" {
        var m := log.(detaches := log.detaches + {(account, domain)});
        DetachGrows(log, account, domain);
        SameRecords(log, m, s, s);
        TaskGrows(log, m, i, DeleteRemoving(node, of, account, script, rest));
      }
    case DeleteRemoving(node, of, account, script, rest) =>
      DeleteGrows(log, account, script, a == Granted);
      SameRecords(log, Deleted(log, account, script, a == Granted), s, s);
      NextOk(Deleted(log, account, script, a == Granted), i, rest);
    case DeleteReady(node, of, rest) =>
      FewerRecords(log, s, node);
      DeploymentsChanged(log, s, s.deployments - {node}, Saved(a));
      NextOk(log, i, rest);
    case Clearing(ids) =>
      NoRecords(log);
      ConfigChanged(log, s, EMPTY, Saved(a));
      DeploymentsChanged(log, WithConfig(s, EMPTY, Saved(a)), map[], Saved(a) && a.Persisted? && a.alsoSaved);
      if ids != [] {
        BeginDeleteOk(log, s, i, ids[0], Some(ids[1..]));
      }
  }

  lemma FewerRecords(log: Log, s: Store, nodeID: string)
    requires StoreOk(log, s)
    ensures RecordsOk(log, s.deployments - {nodeID})
  {
    hide RecordOk;
  }

  lemma NoRecords(log: Log)
    ensures RecordsOk(log, map[])
  {
  }

  lemma SetStepOk(s: Store, log: Log, i: nat, task: Task, a: Answer)
    requires IsSetTask(task) && LogOk(log) && StoreOk(log, s)
    ensures ChangeOk(log, i, SetStep(s, log, task, a))
  {
    hide LogOk, StoreOk, Grows, GoTrim, Saved, FindZone;
    SameGrows(log);
    match task
    case SetMatching(zone, sub, account) =>
      if a.Zones? {
        ListingGrows(log, account, a.zones);
        SameRecords(log, log.(listed := log.listed + set z | z in a.zones :: (account, z)), s, s);
      }
    case SetReady(zone, sub, _) =>
      ConfigChanged(log, s, s.cfg.(custom := Some(CustomDomain(zone.id, zone.name, sub))), Saved(a));
    case _ =>
  }

  lemma ListingGrows(log: Log, account: string, zones: seq<Zone>)
    requires LogOk(log)
    ensures var m := log.(listed := log.listed + set z | z in zones :: (account, z)); Grows(log, m) && LogOk(m)
  {
  }

  lemma SeeGrows(log: Log, e: Evidence)
    requires LogOk(log) && (e.NoSecret? ==> !e.present)
    ensures Grows(log, See(log, e)) && LogOk(See(log, e)) && e in See(log, e).seen
  {
  }

  lemma WinGrows(log: Log, i: nat, tries: nat, nodeID: string, host: string)
    requires LogOk(log) && Won(log, i, tries)
    ensures var m := log.(actives := log.actives + {Win(i, tries, nodeID, host)});
            Grows(log, m) && LogOk(m) && Win(i, tries, nodeID, host) in m.actives
  {
  }

  /** A blank secret is only ever read when the record is gone or bound elsewhere. */
  lemma BlankMeansGone(log: Log, s: Store, nodeID: string, host: string)
    requires StoreOk(log, s)
    ensures PathSecretFor(s, nodeID, host) == "" <==> !Expects(s, nodeID, host)
  {
    if nodeID in s.deployments {
      assert RecordOk(log, nodeID, s.deployments[nodeID]);
    }
  }

  lemma MarkOk(log: Log, s: Store, nodeID: string, host: string, status: HostStatus, saved: bool)
    requires StoreOk(log, s) && host != "" && status != NoHost
    requires status == Active ==> exists m | m in log.actives :: m.nodeID == nodeID && m.host == host
    ensures StoreOk(log, Mark(s, nodeID, host, status, saved))
  {
    if Expects(s, nodeID, host) {
      var r := s.deployments[nodeID];
      assert RecordOk(log, nodeID, r);
      var d := s.deployments[nodeID := r.(status := status)];
      RecordsUpdate(log, s.deployments, nodeID, r.(status := status));
      DeploymentsChanged(log, s, d, saved);
    }
  }

  lemma RecordsUpdate(log: Log, d: map<string, Record>, nodeID: string, r: Record)
    requires RecordsOk(log, d) && RecordOk(log, nodeID, r)
    ensures RecordsOk(log, d[nodeID := r])
  {
    hide RecordOk;
  }

  lemma ProbeStepOk(s: Store, log: Log, i: nat, task: Task, a: Answer)
    requires IsProbe(task) && LogOk(log) && StoreOk(log, s) && TaskOk(log, i, task)
    ensures ChangeOk(log, i, ProbeStep(s, log, i, task, a))
  {
    hide LogOk, StoreOk, Grows, PathSecretFor, Expects, Saved, Mark, See;
    SameGrows(log);
    SameRecords(log, log, s, s);
    match task
    case Resuming(node, host) => MarkOk(log, s, node, host, Pending, Saved(a));
    case Probing(node, host, tries, stage) =>
      match stage
      case Sleeping =>
      case Expected =>
        SeeGrows(log, TlsReached(i, tries));
        SameRecords(log, See(log, TlsReached(i, tries)), s, s);
      case TlsOk =>
        if PathSecretFor(s, node, host) == "" {
          BlankMeansGone(log, s, node, host);
          SeeGrows(log, NoSecret(i, tries, false));
          SeenStays(log, NoSecret(i, tries, false), TlsReached(i, tries));
          SameRecords(log, See(log, NoSecret(i, tries, false)), s, s);
        }
      case HasSecret(_) =>
        SeeGrows(log, RelayReached(i, tries));
        SeenStays(log, RelayReached(i, tries), TlsReached(i, tries));
        SameRecords(log, See(log, RelayReached(i, tries)), s, s);
      case Winning => WinningOk(s, log, i, node, host, tries, Saved(a));
      case Losing => MarkOk(log, s, node, host, Failed, Saved(a));
  }

  lemma SeenStays(log: Log, e: Evidence, old_: Evidence)
    requires old_ in log.seen
    ensures old_ in See(log, e).seen
  {
  }

  lemma WinningOk(s: Store, log: Log, i: nat, nodeID: string, host: string, tries: nat, saved: bool)
    requires LogOk(log) && StoreOk(log, s) && host != "" && Won(log, i, tries)
    ensures var s' := Mark(s, nodeID, host, Active, saved);
            var m := log.(actives := log.actives + {Win(i, tries, nodeID, host)});
            Grows(log, m) && LogOk(m) && StoreOk(m, s') && (s' == s ==> StoreOk(log, s'))
  {
    hide LogOk, StoreOk, Grows, Mark;
    var m := log.(actives := log.actives + {Win(i, tries, nodeID, host)});
    WinGrows(log, i, tries, nodeID, host);
    SameRecords(log, m, s, s);
    assert Win(i, tries, nodeID, host).nodeID == nodeID;
    MarkOk(m, s, nodeID, host, Active, saved);
  }

  // ---------------------------------------------------------------- steps and runs

  lemma TaskStepOk(s: Store, log: Log, i: nat, task: Task, a: Answer)
    requires LogOk(log) && StoreOk(log, s) && TaskOk(log, i, task)
    ensures ChangeOk(log, i, TaskStep(s, log, i, task, a))
  {
    hide *;
    TaskStepUnfolds(s, log, i, task, a);
    if task.Verifying? || task.VerifyEnding? {
      VerifyStepOk(s, log, i, task, a);
    } else if IsDeploy(task) {
      DeployStepOk(s, log, i, task, a);
    } else if IsDelete(task) {
      DeleteStepOk(s, log, i, task, a);
    } else if IsSetTask(task) {
      SetStepOk(s, log, i, task, a);
    } else if IsProbe(task) {
      ProbeStepOk(s, log, i, task, a);
    } else {
      NothingDone(s, log, i);
    }
  }

  lemma TaskStepUnfolds(s: Store, log: Log, i: nat, task: Task, a: Answer)
    ensures TaskStep(s, log, i, task, a) ==
            if task.Verifying? || task.VerifyEnding? then VerifyStep(s, log, task, a)
            else if IsDeploy(task) then DeployStep(s, log, i, task, a)
            else if IsDelete(task) then DeleteStep(s, log, task, a)
            else if IsSetTask(task) then SetStep(s, log, task, a)
            else if IsProbe(task) then ProbeStep(s, log, i, task, a)
            else Change(s, log, Over, [])
  {
    hide VerifyStep, DeployStep, DeleteStep, SetStep, ProbeStep, IsDeploy, IsDelete, IsSetTask, IsProbe;
  }

  lemma NothingDone(s: Store, log: Log, i: nat)
    requires LogOk(log) && StoreOk(log, s)
    ensures ChangeOk(log, i, Change(s, log, Over, []))
  {
    SameGrows(log);
  }

  lemma TasksChanged(log: Log, tasks: seq<Task>, i: nat, m: Log, task: Task, spawned: seq<Task>)
    requires TasksOk(log, tasks) && i < |tasks| && Grows(log, m) && TaskOk(m, i, task)
    requires |spawned| <= 1 && (spawned != [] ==> forall j: nat :: TaskOk(m, j, spawned[0]))
    ensures TasksOk(m, tasks[i := task] + spawned)
  {
    hide TaskOk, Grows;
    var after := tasks[i := task] + spawned;
    forall j: nat | j < |after| ensures TaskOk(m, j, after[j]) {
      if j < |tasks| && j != i {
        TaskGrows(log, m, j, tasks[j]);
      }
    }
  }

  lemma TaskAdded(log: Log, tasks: seq<Task>, task: Task)
    requires TasksOk(log, tasks) && TaskOk(log, |tasks|, task)
    ensures TasksOk(log, tasks + [task])
  {
    hide TaskOk;
  }

  lemma {:induction false} ResumedOk(log: Log, d: map<string, Record>, order: seq<string>)
    ensures forall k, j: nat | 0 <= k < |Resumed(d, order)| :: TaskOk(log, j, Resumed(d, order)[k])
  {
    hide RecordOk;
    if order != [] {
      ResumedOk(log, d, order[1..]);
    }
  }

  lemma StepInv(w: World, action: Action)
    requires Inv(w)
    ensures Inv(Step(w, action))
  {
    hide LogOk, StoreOk, RecordOk, TaskStep, Resumed, GoTrim, MayDeploy, BeginDelete, ValidSubdomain, TaskOk, Grows;
    match action
    case StartVerify(token) =>
      StartedOk(w, w.store.(verifying := true), Verifying(token, Verified(w.store.cfg)));
    case StartDeploy(node, script, backend, host, port, template) =>
      if MayDeploy(w.store, host, port, template) {
        DeployStarts(w, node, script, backend, host, port, template);
      }
    case StartDelete(node) =>
      BeginDeleteOk(w.log, w.store, |w.tasks|, node, None);
      TaskAdded(w.log, w.tasks, BeginDelete(w.store, node, None));
    case StartClear(ids) => StartedOk(w, w.store, Clearing(ids));
    case StartSet(zone, sub) => StartedOk(w, w.store, SetProbing(GoTrim(zone), GoTrim(sub)));
    case DropDomain(saved) => ConfigChanged(w.log, w.store, w.store.cfg.(custom := None), saved);
    case Restart(order) => RestartInv(w, order);
    case Continue(i, a) =>
      if i < |w.tasks| {
        var c := TaskStep(w.store, w.log, i, w.tasks[i], a);
        assert TaskOk(w.log, i, w.tasks[i]);
        TaskStepOk(w.store, w.log, i, w.tasks[i], a);
        TasksChanged(w.log, w.tasks, i, c.log, c.task, c.spawned);
      }
  }

  lemma StartedOk(w: World, s: Store, task: Task)
    requires Inv(w) && s.deployments == w.store.deployments && s.disk == w.store.disk
    requires task.Verifying? || task.Clearing? || task.SetProbing?
    ensures Inv(Spawn(w, s, task))
  {
    hide LogOk, RecordsOk, Grows, TasksOk;
    SameGrows(w.log);
    SameRecords(w.log, w.log, w.store, s);
    TaskAdded(w.log, w.tasks, task);
  }

  lemma DeployStarts(
    w: World, node: string, script: string, backend: string, host: string, port: int, template: bool)
    requires Inv(w) && MayDeploy(w.store, host, port, template)
    ensures Inv(Spawn(w, w.store.(deploying := true),
                      Deploying(node, script, backend, w.store.cfg.accountID, w.store.cfg.workersSubdomain)))
  {
    hide LogOk, RecordsOk, Grows, TasksOk, GoTrim;
    SameGrows(w.log);
    SameRecords(w.log, w.log, w.store, w.store.(deploying := true));
    TaskAdded(w.log, w.tasks, Deploying(node, script, backend, w.store.cfg.accountID, w.store.cfg.workersSubdomain));
  }

  lemma RestartInv(w: World, order: seq<string>)
    requires Inv(w)
    ensures Inv(Step(w, Restart(order)))
  {
    hide LogOk, RecordsOk, Resumed;
    var d := w.store.disk.deployments;
    ResumedOk(w.log, d, order);
    var after := AllOver(|w.tasks|) + Resumed(d, order);
    forall j: nat | j < |after| ensures TaskOk(w.log, j, after[j]) {
      if j >= |w.tasks| {
        assert after[j] == Resumed(d, order)[j - |w.tasks|];
      }
    }
  }

  lemma {:induction false} RunInv(w: World, actions: seq<Action>)
    requires Inv(w)
    ensures Inv(Run(w, actions))
    decreases |actions|
  {
    hide Inv, Step;
    if actions != [] {
      StepInv(w, actions[0]);
      RunInv(Step(w, actions[0]), actions[1..]);
    }
  }

  lemma InitInv()
    ensures Inv(Init())
  {
  }

  // ---------------------------------------------------------------- what every run guarantees

  lemma Reachable(actions: seq<Action>)
    ensures Inv(Run(Init(), actions))
  {
    InitInv();
    RunInv(Init(), actions);
  }

  /** Records: pinned to the account their script was uploaded to, with a status exactly when they
      have a custom host, and that host bound to that script in that same account. */
  lemma RecordsArePinned(actions: seq<Action>, nodeID: string)
    requires nodeID in Run(Init(), actions).store.deployments
    ensures var w := Run(Init(), actions);
            var r := w.store.deployments[nodeID];
            && r.nodeID == nodeID
            && GoTrim(r.accountID) != "" && (r.accountID, r.scriptName) in w.log.uploads
            && (r.status != NoHost <==> r.customHost != "")
            && (r.customHost != "" <==> r.customDomainID != "")
            && (r.customHost != "" ==>
                  Binding(r.accountID, r.customDomainID, r.customHost, r.scriptName) in w.log.attaches)
  {
    Reachable(actions);
  }

  /** Every script delete goes to an account that script was uploaded to, and every detach to one
      where the binding was made, whatever was re-verified in between. */
  lemma RemoteDeletesHitOwnAccount(actions: seq<Action>)
    ensures var log := Run(Init(), actions).log;
            log.deletes <= log.uploads && forall d | d in log.detaches :: Made(log, d.0, d.1)
  {
    Reachable(actions);
  }

  /** A delete aims at the account pinned in the record, never at the one verified now. */
  lemma DeleteUsesPinnedAccount(actions: seq<Action>, nodeID: string, rest: Option<seq<string>>)
    requires MayDelete(Run(Init(), actions).store, nodeID)
    ensures var s := Run(Init(), actions).store;
            var r := s.deployments[nodeID];
            BeginDelete(s, nodeID, rest)
            == DeleteDetaching(nodeID, r.deployedAt, r.accountID, r.scriptName, r.customDomainID, rest)
  {
    Reachable(actions);
    var w := Run(Init(), actions);
    assert RecordOk(w.log, nodeID, w.store.deployments[nodeID]);
  }

  /** A probe's step neither adds nor removes a record, and the only thing it can change is the
      status of its own node's record, while that record has the host the probe was started for. */
  lemma ProbeTouchesOnlyItsStatus(w: World, i: nat, a: Answer, nodeID: string)
    requires i < |w.tasks| && IsProbe(w.tasks[i]) && nodeID in w.store.deployments
    ensures var s, s', task := w.store, Step(w, Continue(i, a)).store, w.tasks[i];
            && s'.deployments.Keys == s.deployments.Keys && s'.cfg == s.cfg
            && (s'.deployments[nodeID] != s.deployments[nodeID] ==>
                  && nodeID == task.nodeID && s.deployments[nodeID].customHost == task.host
                  && s'.deployments[nodeID] == s.deployments[nodeID].(status := s'.deployments[nodeID].status))
  {
    hide Step, TaskStep, Mark, Saved;
    var task, b := w.tasks[i], Saved(a);
    StepIsTaskStep(w, i, a);
    ProbeStepMarks(w.store, w.log, i, task, a);
    MarkTouches(w.store, task.nodeID, task.host, Pending, b, nodeID);
    MarkTouches(w.store, task.nodeID, task.host, Active, b, nodeID);
    MarkTouches(w.store, task.nodeID, task.host, Failed, b, nodeID);
  }

  lemma ProbeStepMarks(s: Store, log: Log, i: nat, task: Task, a: Answer)
    requires IsProbe(task)
    ensures var s' := TaskStep(s, log, i, task, a).store;
            s' == s || exists status | status in {Pending, Active, Failed} ::
              s' == Mark(s, task.nodeID, task.host, status, Saved(a))
  {
    hide Mark, Saved, See, PathSecretFor, Expects, VerifyStep, DeployStep, DeleteStep, SetStep;
  }

  lemma StepIsTaskStep(w: World, i: nat, a: Answer)
    requires i < |w.tasks|
    ensures Step(w, Continue(i, a)).store == TaskStep(w.store, w.log, i, w.tasks[i], a).store
  {
    hide TaskStep;
  }

  lemma MarkTouches(s: Store, own: string, host: string, status: HostStatus, saved: bool, nodeID: string)
    requires nodeID in s.deployments
    ensures var s' := Mark(s, own, host, status, saved);
            && s'.deployments.Keys == s.deployments.Keys && s'.cfg == s.cfg
            && (s'.deployments[nodeID] != s.deployments[nodeID] ==>
                  && nodeID == own && s.deployments[nodeID].customHost == host
                  && s'.deployments[nodeID] == s.deployments[nodeID].(status := s'.deployments[nodeID].status))
  {
  }

  /** A record that reads "active" was marked by a probe of its node and host that, in one try,
      completed a TLS handshake and then either reached the relay or found no secret; and a probe
      only finds no secret when the record is gone or bound to another host at that moment. */
  lemma ActiveWasEarned(actions: seq<Action>, nodeID: string) returns (m: Win)
    requires nodeID in Run(Init(), actions).store.deployments
    requires Run(Init(), actions).store.deployments[nodeID].status == Active
    ensures var w := Run(Init(), actions);
            && m in w.log.actives && m.nodeID == nodeID && m.host == w.store.deployments[nodeID].customHost
            && TlsReached(m.probe, m.try) in w.log.seen
            && (RelayReached(m.probe, m.try) in w.log.seen || NoSecret(m.probe, m.try, false) in w.log.seen)
            && NoSecret(m.probe, m.try, true) !in w.log.seen
  {
    Reachable(actions);
    var w := Run(Init(), actions);
    assert RecordOk(w.log, nodeID, w.store.deployments[nodeID]);
    m :| m in w.log.actives && m.nodeID == nodeID && m.host == w.store.deployments[nodeID].customHost;
  }

  /** No probe starts a fifteenth try. */
  lemma AtMostFourteenTries(actions: seq<Action>, i: nat)
    requires var w := Run(Init(), actions); i < |w.tasks| && w.tasks[i].Probing?
    ensures Run(Init(), actions).tasks[i].tries <= 14
  {
    Reachable(actions);
    var w := Run(Init(), actions);
    assert TaskOk(w.log, i, w.tasks[i]);
  }
}
