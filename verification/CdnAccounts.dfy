/** The custom domain and the verified account: what re-verification keeps and drops. */
module CdnAccounts {
  import opened CdnNames
  import opened CdnSafety
  import opened CdnStore
  import opened CdnSystem
  import opened Text

  // ---------------------------------------------------------------- one verification at a time

  predicate IsVerify(task: Task) {
    task.Verifying? || task.VerifyEnding?
  }

  /** At most one verification is under way, and while one that began unverified runs, nothing else
      becomes verified. */
  predicate VerifyInv(w: World) {
    && (forall i, j | 0 <= i < |w.tasks| && 0 <= j < |w.tasks| && IsVerify(w.tasks[i]) && IsVerify(w.tasks[j]) ::
          i == j)
    && (forall i | 0 <= i < |w.tasks| && IsVerify(w.tasks[i]) :: w.store.verifying)
    && (forall i | 0 <= i < |w.tasks| && w.tasks[i].Verifying? && !w.tasks[i].priorVerified :: !Verified(w.store.cfg))
  }

  predicate SameOrNoAccount(s: Store, s': Store) {
    s'.cfg.accountID == s.cfg.accountID || s'.cfg.accountID == ""
  }

  /** Steps of other operations: no verification starts or ends, no account appears. */
  predicate Quiet(s: Store, c: Change) {
    && !IsVerify(c.task) && (forall t | t in c.spawned :: !IsVerify(t))
    && c.store.verifying == s.verifying && SameOrNoAccount(s, c.store)
  }

  lemma OthersQuiet(s: Store, log: Log, i: nat, task: Task, a: Answer)
    requires !IsVerify(task)
    ensures Quiet(s, TaskStep(s, log, i, task, a))
  {
    hide *;
    TaskStepUnfolds(s, log, i, task, a);
    VerifyKinds(task);
    if IsDeploy(task) {
      DeployQuiet(s, log, i, task, a);
    } else if IsDelete(task) {
      DeleteQuiet(s, log, task, a);
    } else if IsSetTask(task) {
      SetQuiet(s, log, task, a);
    } else if IsProbe(task) {
      ProbeQuiet(s, log, i, task, a);
    } else {
      NothingQuiet(s, log);
    }
  }

  lemma VerifyKinds(task: Task)
    ensures IsVerify(task) <==> task.Verifying? || task.VerifyEnding?
  {
  }

  lemma NothingQuiet(s: Store, log: Log)
    ensures Quiet(s, Change(s, log, Over, []))
  {
  }

  lemma DeployQuiet(s: Store, log: Log, i: nat, task: Task, a: Answer)
    requires IsDeploy(task)
    ensures Quiet(s, DeployStep(s, log, i, task, a))
  {
    hide HostForScript, IsSecret, AfterEnabling, Saved;
  }

  lemma DeleteQuiet(s: Store, log: Log, task: Task, a: Answer)
    requires IsDelete(task)
    ensures Quiet(s, DeleteStep(s, log, task, a))
  {
    hide MayDelete, DeleteAccount, Saved;
  }

  lemma SetQuiet(s: Store, log: Log, task: Task, a: Answer)
    requires IsSetTask(task)
    ensures Quiet(s, SetStep(s, log, task, a))
  {
    hide FindZone, GoTrim, Saved;
  }

  lemma ProbeQuiet(s: Store, log: Log, i: nat, task: Task, a: Answer)
    requires IsProbe(task)
    ensures Quiet(s, ProbeStep(s, log, i, task, a))
    ensures ProbeStep(s, log, i, task, a).store.cfg == s.cfg
    ensures ProbeStep(s, log, i, task, a).store.disk.cfg == s.disk.cfg
    ensures ProbeStep(s, log, i, task, a).log.listed == log.listed
  {
    hide PathSecretFor, Expects, Saved;
  }

  lemma AccountGone(s: Store, s': Store)
    requires SameOrNoAccount(s, s') && !Verified(s.cfg)
    ensures !Verified(s'.cfg)
  {
  }

  lemma {:induction false} ResumedKinds(d: map<string, Record>, order: seq<string>)
    ensures forall t | t in Resumed(d, order) :: IsProbe(t)
  {
    if order != [] {
      ResumedKinds(d, order[1..]);
    }
  }

  lemma VerifyContinues(w: World, i: nat, a: Answer)
    requires VerifyInv(w) && i < |w.tasks|
    ensures VerifyInv(Step(w, Continue(i, a)))
  {
    hide TaskStep, Verified;
    var s, c := w.store, TaskStep(w.store, w.log, i, w.tasks[i], a);
    var w' := Step(w, Continue(i, a));
    if IsVerify(w.tasks[i]) {
      VerifyEnds(s, w.log, i, w.tasks[i], a);
      assert forall j | 0 <= j < |w'.tasks| && IsVerify(w'.tasks[j]) :: j == i;
    } else {
      OthersQuiet(s, w.log, i, w.tasks[i], a);
      assert forall j | 0 <= j < |w'.tasks| && IsVerify(w'.tasks[j]) ::
          j < |w.tasks| && j != i && w'.tasks[j] == w.tasks[j];
      if !Verified(s.cfg) {
        AccountGone(s, c.store);
      }
    }
  }

  lemma VerifyEnds(s: Store, log: Log, i: nat, task: Task, a: Answer)
    requires IsVerify(task)
    ensures var c := TaskStep(s, log, i, task, a);
            c.spawned == [] && (c.task == Over || (c.task == VerifyEnding && c.store.verifying == s.verifying))
  {
    hide GoTrim, Saved;
  }

  lemma StepVerifyInv(w: World, action: Action)
    requires VerifyInv(w)
    ensures VerifyInv(Step(w, action))
  {
    hide Verified, MayDeploy, BeginDelete, GoTrim, ValidSubdomain, TaskStep, Resumed;
    match action
    case Continue(i, a) => if i < |w.tasks| { VerifyContinues(w, i, a); }
    case Restart(order) =>
      ResumedKinds(w.store.disk.deployments, order);
      var more := Resumed(w.store.disk.deployments, order);
      assert forall j | 0 <= j < |AllOver(|w.tasks|) + more| ::
          !IsVerify((AllOver(|w.tasks|) + more)[j]) by {
        assert forall j | 0 <= j < |more| :: more[j] in more;
      }
    case StartDelete(node) => DeleteStartsQuiet(w.store, node);
    case DropDomain(saved) => DroppedAccount(w.store, saved);
    case _ =>
  }

  lemma DroppedAccount(s: Store, saved: bool)
    ensures Verified(ClearDomain(s, saved).cfg) == Verified(s.cfg)
  {
  }

  lemma DeleteStartsQuiet(s: Store, nodeID: string)
    ensures !IsVerify(BeginDelete(s, nodeID, None))
  {
    hide MayDelete, DeleteAccount;
  }

  lemma {:induction false} RunVerifyInv(w: World, actions: seq<Action>)
    requires VerifyInv(w)
    ensures VerifyInv(Run(w, actions))
    decreases |actions|
  {
    hide VerifyInv, Step;
    if actions != [] {
      StepVerifyInv(w, actions[0]);
      RunVerifyInv(Step(w, actions[0]), actions[1..]);
    }
  }

  /** In every interleaving: when a verification fails while the configuration is verified, the
      configuration stays exactly as it is, in memory and on disk. */
  lemma FailedVerifyKeepsVerified(actions: seq<Action>, i: nat, a: Answer)
    requires var w := Run(Init(), actions);
             && i < |w.tasks| && w.tasks[i].Verifying? && Verified(w.store.cfg)
             && (a.Account? ==> a.accountID == "")
    ensures var w := Run(Init(), actions);
            var w' := Step(w, Continue(i, a));
            w'.store == w.store && w'.tasks[i] == VerifyEnding
  {
    hide Run, Init, Verified, GoTrim, Saved;
    StartVerifyInv();
    RunVerifyInv(Init(), actions);
  }

  lemma StartVerifyInv()
    ensures VerifyInv(Init())
  {
  }

  // ---------------------------------------------------------------- zone and account

  /** A set custom domain names a zone that was listed as active under the configured account. */
  predicate ZoneOk(log: Log, c: Config) {
    c.custom.Some? ==>
      && Verified(c)
      && (GoTrim(c.accountID), Zone(c.custom.value.zoneID, c.custom.value.zoneName)) in log.listed
  }

  predicate StoreZones(log: Log, s: Store) {
    ZoneOk(log, s.cfg) && ZoneOk(log, s.disk.cfg)
  }

  /** The account a set has listed its zones under is still the one configured. */
  predicate SetTaskOk(log: Log, s: Store, task: Task) {
    match task
    case SetMatching(_, _, account) => Verified(s.cfg) && account == GoTrim(s.cfg.accountID)
    case SetReady(zone, _, account) =>
      Verified(s.cfg) && account == GoTrim(s.cfg.accountID) && (account, zone) in log.listed
    case _ => true
  }

  predicate ZoneInv(w: World) {
    StoreZones(w.log, w.store) && forall t | t in w.tasks :: SetTaskOk(w.log, w.store, t)
  }

  /** A set between reading the account and committing its zone. */
  predicate Choosing(task: Task) {
    task.SetMatching? || task.SetReady?
  }

  /** This step replaces the account: a verification that commits another one, a failed one that
      wipes the configuration, or the end of a Clear. */
  predicate ReplacesAccount(w: World, i: nat, a: Answer)
    requires i < |w.tasks|
  {
    GoTrim(TaskStep(w.store, w.log, i, w.tasks[i], a).store.cfg.accountID) != GoTrim(w.store.cfg.accountID)
  }

  /** The step replaces the account while some set is choosing its zone, or lets a set read the
      account when none is verified. */
  predicate Disturbs(w: World, action: Action) {
    && action.Continue? && action.index < |w.tasks|
    && ((ReplacesAccount(w, action.index, action.answer) && exists t | t in w.tasks :: Choosing(t))
        || (w.tasks[action.index].SetListing? && !Verified(w.store.cfg)))
  }

  predicate RunsUndisturbed(w: World, actions: seq<Action>)
    decreases |actions|
  {
    actions == [] || (!Disturbs(w, actions[0]) && RunsUndisturbed(Step(w, actions[0]), actions[1..]))
  }

  /** One step of an operation or probe, for its own task. */
  predicate ZonesKept(c: Change) {
    && StoreZones(c.log, c.store) && SetTaskOk(c.log, c.store, c.task)
    && forall t | t in c.spawned :: !Choosing(t)
  }

  lemma VerifyZones(s: Store, log: Log, task: Task, a: Answer)
    requires IsVerify(task) && StoreZones(log, s)
    ensures ZonesKept(VerifyStep(s, log, task, a))
  {
    hide GoTrim, Saved;
    TrimTwice(s.cfg.accountID);
  }

  lemma TrimTwice(s: string)
    ensures GoTrim(GoTrim(s)) == GoTrim(s)
  {
    TrimIdempotent(s, GoSpace);
  }

  lemma DeployZones(s: Store, log: Log, i: nat, task: Task, a: Answer)
    requires IsDeploy(task) && StoreZones(log, s)
    ensures ZonesKept(DeployStep(s, log, i, task, a))
  {
    hide HostForScript, IsSecret, AfterEnabling, Saved, GoTrim, Verified;
  }

  lemma DeleteZones(s: Store, log: Log, task: Task, a: Answer)
    requires IsDelete(task) && StoreZones(log, s)
    ensures ZonesKept(DeleteStep(s, log, task, a))
  {
    hide MayDelete, DeleteAccount, Saved, GoTrim;
  }

  lemma {:induction false} FoundIsListed(zones: seq<Zone>, id: string)
    ensures var f := FindZone(zones, id); f.Some? ==> f.value in zones && f.value.id == id
    ensures FindZone(zones, id).None? <==> forall z | z in zones :: z.id != id
  {
    if zones != [] {
      FoundIsListed(zones[1..], id);
    }
  }

  lemma SetZones(s: Store, log: Log, task: Task, a: Answer)
    requires IsSetTask(task) && StoreZones(log, s) && SetTaskOk(log, s, task)
    requires task.SetListing? ==> Verified(s.cfg)
    ensures ZonesKept(SetStep(s, log, task, a))
  {
    hide GoTrim, Saved;
    if task.SetMatching? && a.Zones? {
      FoundIsListed(a.zones, task.zoneID);
    }
  }

  lemma ProbeZones(s: Store, log: Log, i: nat, task: Task, a: Answer)
    requires IsProbe(task) && StoreZones(log, s)
    ensures ZonesKept(ProbeStep(s, log, i, task, a))
  {
    hide ProbeStep, GoTrim;
    ProbeQuiet(s, log, i, task, a);
    ProbeStaysProbe(s, log, i, task, a);
  }

  lemma ProbeStaysProbe(s: Store, log: Log, i: nat, task: Task, a: Answer)
    requires IsProbe(task)
    ensures var c := ProbeStep(s, log, i, task, a); c.spawned == [] && (c.task == Over || IsProbe(c.task))
  {
    hide PathSecretFor, Expects, Saved, Mark, See;
  }

  lemma OwnZones(s: Store, log: Log, i: nat, task: Task, a: Answer)
    requires StoreZones(log, s) && SetTaskOk(log, s, task)
    requires task.SetListing? ==> Verified(s.cfg)
    ensures ZonesKept(TaskStep(s, log, i, task, a))
    ensures log.listed <= TaskStep(s, log, i, task, a).log.listed
  {
    hide StoreZones, SetTaskOk, VerifyStep, DeployStep, DeleteStep, SetStep, ProbeStep, TaskStep, ZonesKept;
    TaskStepUnfolds(s, log, i, task, a);
    ListedGrows(s, log, i, task, a);
    if IsVerify(task) {
      VerifyZones(s, log, task, a);
    } else if IsDeploy(task) {
      DeployZones(s, log, i, task, a);
    } else if IsDelete(task) {
      DeleteZones(s, log, task, a);
    } else if IsSetTask(task) {
      SetZones(s, log, task, a);
    } else if IsProbe(task) {
      ProbeZones(s, log, i, task, a);
    } else {
      NothingKept(s, log);
    }
  }

  lemma NothingKept(s: Store, log: Log)
    requires StoreZones(log, s)
    ensures ZonesKept(Change(s, log, Over, []))
  {
  }

  lemma ListedGrows(s: Store, log: Log, i: nat, task: Task, a: Answer)
    ensures log.listed <= TaskStep(s, log, i, task, a).log.listed
  {
    hide VerifyCommit, FailVerify, HostForScript, IsSecret, AfterEnabling, MayDelete, DeleteAccount, GoTrim, Saved,
      FindZone, PathSecretFor, Expects, Mark;
  }

  /** Other operations notice nothing while the account stays. */
  lemma OtherSetTask(log: Log, s: Store, m: Log, s': Store, t: Task)
    requires SetTaskOk(log, s, t) && log.listed <= m.listed
    requires GoTrim(s'.cfg.accountID) == GoTrim(s.cfg.accountID) || !Choosing(t)
    ensures SetTaskOk(m, s', t)
  {
    hide GoTrim;
  }

  lemma ContinueZones(w: World, i: nat, a: Answer)
    requires ZoneInv(w) && i < |w.tasks| && !Disturbs(w, Continue(i, a))
    ensures ZoneInv(Step(w, Continue(i, a)))
  {
    hide TaskStep, StoreZones, SetTaskOk, Choosing, Verified, GoTrim;
    var c := TaskStep(w.store, w.log, i, w.tasks[i], a);
    var w' := Step(w, Continue(i, a));
    assert w.tasks[i] in w.tasks;
    OwnZones(w.store, w.log, i, w.tasks[i], a);
    forall t | t in w'.tasks ensures SetTaskOk(w'.log, w'.store, t) {
      if t in w.tasks {
        OtherSetTask(w.log, w.store, w'.log, w'.store, t);
      } else if t in c.spawned {
        NotChoosing(w'.log, w'.store, t);
      }
    }
  }

  lemma NotChoosing(log: Log, s: Store, t: Task)
    requires !Choosing(t)
    ensures SetTaskOk(log, s, t)
  {
  }

  lemma StartZones(w: World, s: Store, task: Task)
    requires ZoneInv(w) && s.cfg == w.store.cfg && s.disk == w.store.disk && !Choosing(task)
    ensures ZoneInv(Spawn(w, s, task))
  {
    hide SetTaskOk;
    forall t | t in w.tasks + [task] ensures SetTaskOk(w.log, s, t) {
      if t in w.tasks {
        OtherSetTask(w.log, w.store, w.log, s, t);
      } else {
        NotChoosing(w.log, s, task);
      }
    }
  }

  lemma StepZones(w: World, action: Action)
    requires ZoneInv(w) && !Disturbs(w, action)
    ensures ZoneInv(Step(w, action))
  {
    hide StoreZones, SetTaskOk, MayDeploy, BeginDelete, GoTrim, ValidSubdomain, TaskStep, Resumed, ClearDomain,
      Disturbs;
    var s := w.store;
    match action
    case Continue(i, a) => if i < |w.tasks| { ContinueZones(w, i, a); }
    case Restart(order) => RestartZones(w, order);
    case StartVerify(token) =>
      if !s.verifying { StartZones(w, s.(verifying := true), Verifying(token, Verified(s.cfg))); }
    case StartDeploy(node, script, backend, host, port, template) =>
      var task := Deploying(node, script, backend, s.cfg.accountID, s.cfg.workersSubdomain);
      if MayDeploy(s, host, port, template) { StartZones(w, s.(deploying := true), task); }
    case StartDelete(node) =>
      DeleteIsDelete(s, node, None);
      StartZones(w, s, BeginDelete(s, node, None));
    case StartClear(ids) => StartZones(w, s, Clearing(ids));
    case StartSet(zone, sub) => StartZones(w, s, SetProbing(GoTrim(zone), GoTrim(sub)));
    case DropDomain(saved) => DropZones(w, saved);
  }

  lemma DeleteIsDelete(s: Store, nodeID: string, rest: Option<seq<string>>)
    ensures var t := BeginDelete(s, nodeID, rest); t == Over || IsDelete(t)
  {
    hide MayDelete, DeleteAccount;
  }

  lemma DropZones(w: World, saved: bool)
    requires ZoneInv(w)
    ensures ZoneInv(Step(w, DropDomain(saved)))
  {
    hide SetTaskOk, GoTrim;
    var s' := ClearDomain(w.store, saved);
    forall t | t in w.tasks ensures SetTaskOk(w.log, s', t) {
      OtherSetTask(w.log, w.store, w.log, s', t);
    }
  }

  lemma RestartZones(w: World, order: seq<string>)
    requires ZoneInv(w)
    ensures ZoneInv(Step(w, Restart(order)))
  {
    hide Resumed, IsProbe, GoTrim, Verified, SetTaskOk;
    var w' := Step(w, Restart(order));
    RestartedKinds(w, order);
    forall t | t in w'.tasks ensures SetTaskOk(w'.log, w'.store, t) {
      ProbesDoNotChoose(t);
      NotChoosing(w'.log, w'.store, t);
    }
  }

  lemma ProbesDoNotChoose(t: Task)
    ensures t == Over || IsProbe(t) ==> !Choosing(t)
  {
  }

  /** After a restart only probes are left. */
  lemma RestartedKinds(w: World, order: seq<string>)
    ensures forall t | t in Step(w, Restart(order)).tasks :: t == Over || IsProbe(t)
  {
    hide Resumed, IsProbe;
    var d := w.store.disk.deployments;
    ResumedKinds(d, order);
    var after, more := Step(w, Restart(order)).tasks, Resumed(d, order);
    forall t | t in after ensures t == Over || IsProbe(t) {
      var j :| 0 <= j < |after| && after[j] == t;
      if j >= |w.tasks| {
        assert t == more[j - |w.tasks|] && t in more;
      }
    }
  }

  lemma {:induction false} RunZones(w: World, actions: seq<Action>)
    requires ZoneInv(w) && RunsUndisturbed(w, actions)
    ensures ZoneInv(Run(w, actions))
    decreases |actions|
  {
    hide ZoneInv, Step, Disturbs;
    if actions != [] {
      StepZones(w, actions[0]);
      RunZones(Step(w, actions[0]), actions[1..]);
    }
  }

  lemma StartZoneInv()
    ensures ZoneInv(Init())
  {
  }

  /** In every interleaving in which no account is replaced while a set is choosing its zone, and no
      set reads the account while none is verified: a set custom domain names a zone that was listed
      as active under the account that is verified now. */
  lemma CustomDomainUnlessReplaced(actions: seq<Action>)
    requires RunsUndisturbed(Init(), actions)
    ensures var w := Run(Init(), actions);
            w.store.cfg.custom.Some? ==>
              && Verified(w.store.cfg)
              && (GoTrim(w.store.cfg.accountID),
                  Zone(w.store.cfg.custom.value.zoneID, w.store.cfg.custom.value.zoneName)) in w.log.listed
  {
    hide RunsUndisturbed, Run, Init, GoTrim;
    StartZoneInv();
    RunZones(Init(), actions);
  }

  // ---------------------------------------------------------------- which step breaks it

  /** A zone ready to be committed was listed under the account noted with it. */
  predicate Chosen(log: Log, task: Task) {
    task.SetReady? ==> (task.account, task.zone) in log.listed
  }

  predicate AllChosen(w: World) {
    forall t | t in w.tasks :: Chosen(w.log, t)
  }

  lemma TaskChosen(s: Store, log: Log, i: nat, task: Task, a: Answer)
    requires Chosen(log, task)
    ensures var c := TaskStep(s, log, i, task, a);
            Chosen(c.log, c.task) && forall t | t in c.spawned :: !t.SetReady?
  {
    hide VerifyCommit, FailVerify, HostForScript, IsSecret, AfterEnabling, MayDelete, DeleteAccount, GoTrim, Saved,
      FindZone, PathSecretFor, Expects, Mark;
    if task.SetMatching? && a.Zones? {
      FoundIsListed(a.zones, task.zoneID);
    }
  }

  lemma StepChosen(w: World, action: Action)
    requires AllChosen(w)
    ensures AllChosen(Step(w, action))
  {
    hide TaskStep, MayDeploy, BeginDelete, GoTrim, ValidSubdomain, Resumed, Verified, IsProbe;
    match action
    case Continue(i, a) =>
      if i < |w.tasks| {
        assert w.tasks[i] in w.tasks;
        TaskChosen(w.store, w.log, i, w.tasks[i], a);
        ListedGrows(w.store, w.log, i, w.tasks[i], a);
        var c, w' := TaskStep(w.store, w.log, i, w.tasks[i], a), Step(w, action);
        forall t | t in w'.tasks ensures Chosen(w'.log, t) {
          assert t in w.tasks || t == c.task || t in c.spawned;
        }
      }
    case Restart(order) =>
      RestartedKinds(w, order);
      forall t | t in Step(w, action).tasks ensures Chosen(w.log, t) {
        ProbesDoNotChoose(t);
      }
    case StartDelete(node) => DeleteIsDelete(w.store, node, None);
    case _ =>
  }

  lemma {:induction false} RunChosen(w: World, actions: seq<Action>)
    requires AllChosen(w)
    ensures AllChosen(Run(w, actions))
    decreases |actions|
  {
    hide AllChosen, Step;
    if actions != [] {
      StepChosen(w, actions[0]);
      RunChosen(Step(w, actions[0]), actions[1..]);
    }
  }

  /** No zone belongs to two accounts. */
  predicate OneOwner(log: Log) {
    forall p, q | p in log.listed && q in log.listed && p.1 == q.1 :: p.0 == q.0
  }

  /** The step commits a set whose zone was listed under another account than the one verified. */
  predicate CommitsStrayZone(w: World, next: Action) {
    && next.Continue? && next.index < |w.tasks| && w.tasks[next.index].SetReady?
    && !(Verified(w.store.cfg) && GoTrim(w.store.cfg.accountID) == w.tasks[next.index].account)
  }

  /** Every step of a task but a set's commit keeps stored zones right. */
  lemma StoreZonesKept(s: Store, log: Log, i: nat, task: Task, a: Answer)
    requires StoreZones(log, s) && !task.SetReady?
    ensures var c := TaskStep(s, log, i, task, a); StoreZones(c.log, c.store)
  {
    hide StoreZones, SetTaskOk, VerifyStep, DeployStep, DeleteStep, SetStep, ProbeStep, TaskStep;
    TaskStepUnfolds(s, log, i, task, a);
    if IsVerify(task) {
      VerifyZones(s, log, task, a);
    } else if IsDeploy(task) {
      DeployZones(s, log, i, task, a);
    } else if IsDelete(task) {
      DeleteZones(s, log, task, a);
    } else if IsSetTask(task) {
      ChoosingKeepsStore(s, log, task, a);
    } else if IsProbe(task) {
      ProbeZones(s, log, i, task, a);
    }
  }

  lemma ChoosingKeepsStore(s: Store, log: Log, task: Task, a: Answer)
    requires IsSetTask(task) && !task.SetReady? && StoreZones(log, s)
    ensures var c := SetStep(s, log, task, a); StoreZones(c.log, c.store)
  {
    hide GoTrim, Saved, FindZone;
  }

  lemma SetCommitRightIff(log: Log, s: Store, task: Task, saved: bool)
    requires task.SetReady? && StoreZones(log, s) && OneOwner(log) && (task.account, task.zone) in log.listed
    ensures StoreZones(log, SetCommit(s, task.zone, task.subdomain, saved))
            <==> Verified(s.cfg) && GoTrim(s.cfg.accountID) == task.account
  {
    hide GoTrim;
    var now := GoTrim(s.cfg.accountID);
    assert (now, task.zone) in log.listed ==> (now, task.zone).0 == (task.account, task.zone).0;
  }

  /** In every interleaving, when zones belong to one account each: a step makes a custom domain that
      matched its account stop matching exactly when it commits a set whose zone was listed under
      another account than the one verified at that moment. */
  lemma ZoneBreaksIff(actions: seq<Action>, next: Action)
    requires var w := Run(Init(), actions); StoreZones(w.log, w.store) && OneOwner(w.log)
    ensures var w := Run(Init(), actions);
            var w' := Step(w, next);
            !StoreZones(w'.log, w'.store) <==> CommitsStrayZone(w, next)
  {
    var w := Run(Init(), actions);
    assert AllChosen(Init());
    RunChosen(Init(), actions);
    hide Run, Init, StoreZones, OneOwner, MayDeploy, BeginDelete, GoTrim, ValidSubdomain, TaskStep, Resumed,
      ClearDomain, Verified;
    match next
    case Continue(i, a) =>
      if i < |w.tasks| {
        var task := w.tasks[i];
        assert task in w.tasks;
        if task.SetReady? {
          SetReadyStep(w.store, w.log, i, task, a);
          SetCommitRightIff(w.log, w.store, task, Saved(a));
        } else {
          StoreZonesKept(w.store, w.log, i, task, a);
        }
      }
    case Restart(order) => LoadedZones(w.log, w.store);
    case DropDomain(saved) => DroppedZones(w.log, w.store, saved);
    case _ => FlagsKeepZones(w.log, w.store);
  }

  lemma SetReadyStep(s: Store, log: Log, i: nat, task: Task, a: Answer)
    requires task.SetReady?
    ensures TaskStep(s, log, i, task, a) == Change(SetCommit(s, task.zone, task.subdomain, Saved(a)), log, Over, [])
  {
    hide Saved;
  }

  lemma LoadedZones(log: Log, s: Store)
    requires StoreZones(log, s)
    ensures StoreZones(log, Load(s.disk))
  {
    hide GoTrim;
  }

  lemma DroppedZones(log: Log, s: Store, saved: bool)
    requires StoreZones(log, s)
    ensures StoreZones(log, ClearDomain(s, saved))
  {
    hide GoTrim;
  }

  lemma FlagsKeepZones(log: Log, s: Store)
    requires StoreZones(log, s)
    ensures forall b: bool :: StoreZones(log, s.(verifying := b)) && StoreZones(log, s.(deploying := b))
  {
  }

  // ---------------------------------------------------------------- operations one at a time

  /** An operation under way; probes run beside operations and do not count. */
  predicate Busy(task: Task) {
    task != Over && !IsProbe(task)
  }

  predicate NoneBusy(tasks: seq<Task>) {
    forall i | 0 <= i < |tasks| :: !Busy(tasks[i])
  }

  /** A new operation starts only when no other is under way. */
  predicate InTurn(w: World, action: Action) {
    action.Continue? || action.Restart? || NoneBusy(w.tasks)
  }

  predicate RunsInTurn(w: World, actions: seq<Action>)
    decreases |actions|
  {
    actions == [] || (InTurn(w, actions[0]) && RunsInTurn(Step(w, actions[0]), actions[1..]))
  }

  /** At most one operation is under way, and a set that has yet to read the account will find one
      verified. */
  predicate Solo(w: World) {
    && (forall i, j | 0 <= i < |w.tasks| && 0 <= j < |w.tasks| && Busy(w.tasks[i]) && Busy(w.tasks[j]) :: i == j)
    && (forall t | t in w.tasks && Listing(t) :: Verified(w.store.cfg))
  }

  predicate Listing(task: Task) {
    task.SetProbing? || task.SetListing?
  }

  lemma SoloUndisturbed(w: World, action: Action)
    requires Solo(w)
    ensures !Disturbs(w, action)
  {
    hide TaskStep, GoTrim, Verified;
    if action.Continue? && action.index < |w.tasks| {
      var i, a := action.index, action.answer;
      var task := w.tasks[i];
      assert task in w.tasks && (task.SetListing? ==> Listing(task));
      if exists t :: t in w.tasks && Choosing(t) {
        var t :| t in w.tasks && Choosing(t);
        var j :| 0 <= j < |w.tasks| && w.tasks[j] == t;
        KeepsAccount(w.store, w.log, i, task, a);
      }
    }
  }

  /** Only verifications and Clear touch the account. */
  lemma KeepsAccount(s: Store, log: Log, i: nat, task: Task, a: Answer)
    requires !IsVerify(task) && !IsDelete(task)
    ensures TaskStep(s, log, i, task, a).store.cfg.accountID == s.cfg.accountID
    ensures Listing(TaskStep(s, log, i, task, a).task) ==> Listing(task)
  {
    hide HostForScript, IsSecret, AfterEnabling, FindZone, GoTrim, Saved, PathSecretFor, Expects;
  }

  lemma StepSolo(w: World, action: Action)
    requires Solo(w) && InTurn(w, action)
    ensures Solo(Step(w, action))
  {
    hide TaskStep, MayDeploy, BeginDelete, GoTrim, ValidSubdomain, Resumed, Verified, IsProbe;
    match action
    case Continue(i, a) => if i < |w.tasks| { ContinueSolo(w, i, a); }
    case Restart(order) =>
      RestartedKinds(w, order);
      var after := Step(w, Restart(order)).tasks;
      assert forall j | 0 <= j < |after| :: after[j] in after;
      ProbesDoNotList(after);
    case StartDelete(node) => DeleteDoesNotList(w.store, node);
    case DropDomain(saved) => DroppedAccount(w.store, saved);
    case _ =>
  }

  lemma ProbesDoNotList(tasks: seq<Task>)
    requires forall t | t in tasks :: t == Over || IsProbe(t)
    ensures forall t | t in tasks :: !Listing(t) && !Busy(t)
  {
  }

  lemma DeleteDoesNotList(s: Store, nodeID: string)
    ensures !Listing(BeginDelete(s, nodeID, None))
  {
    hide MayDelete, DeleteAccount;
  }

  lemma SpawnsOnlyProbes(s: Store, log: Log, i: nat, task: Task, a: Answer)
    ensures forall t | t in TaskStep(s, log, i, task, a).spawned :: IsProbe(t)
    ensures !Busy(task) ==> !Busy(TaskStep(s, log, i, task, a).task)
    ensures IsVerify(task) || IsDelete(task) ==> !Listing(TaskStep(s, log, i, task, a).task)
  {
    hide VerifyCommit, FailVerify, HostForScript, IsSecret, AfterEnabling, MayDelete, DeleteAccount, GoTrim, Saved,
      FindZone, PathSecretFor, Expects, Mark;
  }

  lemma ContinueSolo(w: World, i: nat, a: Answer)
    requires Solo(w) && i < |w.tasks|
    ensures Solo(Step(w, Continue(i, a)))
  {
    hide TaskStep, GoTrim, IsProbe;
    var c, w' := TaskStep(w.store, w.log, i, w.tasks[i], a), Step(w, Continue(i, a));
    SpawnsOnlyProbes(w.store, w.log, i, w.tasks[i], a);
    ProbesDoNotList(c.spawned);
    assert w.tasks[i] in w.tasks;
    assert forall j | |w.tasks| <= j < |w'.tasks| ::
        w'.tasks[j] == c.spawned[j - |w.tasks|] && w'.tasks[j] in c.spawned;
    if IsVerify(w.tasks[i]) || IsDelete(w.tasks[i]) {
      BusyKinds(w.tasks[i]);
      forall t | t in w'.tasks ensures !Listing(t) {
        var j :| 0 <= j < |w'.tasks| && w'.tasks[j] == t;
        BusyKinds(t);
      }
    } else {
      KeepsAccount(w.store, w.log, i, w.tasks[i], a);
      SameVerified(w.store.cfg, c.store.cfg);
    }
  }

  lemma BusyKinds(task: Task)
    ensures IsVerify(task) || IsDelete(task) || Listing(task) ==> Busy(task)
  {
  }

  lemma SameVerified(c: Config, d: Config)
    requires c.accountID == d.accountID
    ensures Verified(c) == Verified(d)
  {
  }

  lemma {:induction false} TurnsUndisturbed(w: World, actions: seq<Action>)
    requires Solo(w) && RunsInTurn(w, actions)
    ensures RunsUndisturbed(w, actions)
    decreases |actions|
  {
    hide Solo, Step, Disturbs, InTurn;
    if actions != [] {
      SoloUndisturbed(w, actions[0]);
      StepSolo(w, actions[0]);
      TurnsUndisturbed(Step(w, actions[0]), actions[1..]);
    }
  }

  /** In particular with operations one at a time, probes and restarts beside them. */
  lemma CustomDomainFollowsAccount(actions: seq<Action>)
    requires RunsInTurn(Init(), actions)
    ensures var w := Run(Init(), actions);
            w.store.cfg.custom.Some? ==>
              && Verified(w.store.cfg)
              && (GoTrim(w.store.cfg.accountID),
                  Zone(w.store.cfg.custom.value.zoneID, w.store.cfg.custom.value.zoneName)) in w.log.listed
  {
    assert Solo(Init());
    TurnsUndisturbed(Init(), actions);
    CustomDomainUnlessReplaced(actions);
  }
}
