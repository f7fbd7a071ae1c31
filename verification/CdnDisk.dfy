/** What is on disk: while every save succeeds, a restart loses nothing. */
module CdnDisk {
  import opened CdnNames
  import opened CdnSafety
  import opened CdnStore
  import opened CdnSystem
  import opened Text

  predicate Synced(s: Store) {
    s.disk.cfg == s.cfg && s.disk.deployments == s.deployments
  }

  predicate Unchanged(s: Store, s': Store) {
    s'.cfg == s.cfg && s'.deployments == s.deployments
  }

  /** The answer says that whatever the step saves is written. */
  predicate Written(task: Task, a: Answer) {
    (a.Persisted? && a.saved && a.alsoSaved) || (task.Verifying? && a.Account? && a.saved)
  }

  /** The step leaves the configuration and the records alone, or its saves succeed. */
  predicate SavesSucceed(w: World, action: Action) {
    match action
    case Continue(i, a) =>
      (i < |w.tasks| && Written(w.tasks[i], a)) || Unchanged(w.store, Step(w, action).store)
    case DropDomain(saved) => saved
    case _ => true
  }

  predicate AllSavesSucceed(w: World, actions: seq<Action>)
    decreases |actions|
  {
    actions == [] || (SavesSucceed(w, actions[0]) && AllSavesSucceed(Step(w, actions[0]), actions[1..]))
  }

  /** A step that is written, or changes nothing, keeps the disk in step with memory. */
  predicate StaysSynced(s: Store, task: Task, a: Answer, s': Store) {
    Written(task, a) || Unchanged(s, s') ==> Synced(s')
  }

  lemma TaskSynced(s: Store, log: Log, i: nat, task: Task, a: Answer)
    requires Synced(s)
    ensures StaysSynced(s, task, a, TaskStep(s, log, i, task, a).store)
  {
    hide VerifyStep, DeployStep, DeleteStep, SetStep, ProbeStep, TaskStep;
    TaskStepUnfolds(s, log, i, task, a);
    if task.Verifying? || task.VerifyEnding? {
      VerifySynced(s, log, task, a);
    } else if IsDeploy(task) {
      DeploySynced(s, log, i, task, a);
    } else if IsDelete(task) {
      DeleteSynced(s, log, task, a);
    } else if IsSetTask(task) {
      SetSynced(s, log, task, a);
    } else if IsProbe(task) {
      ProbeSynced(s, log, i, task, a);
    }
  }

  lemma VerifySynced(s: Store, log: Log, task: Task, a: Answer)
    requires (task.Verifying? || task.VerifyEnding?) && Synced(s)
    ensures StaysSynced(s, task, a, VerifyStep(s, log, task, a).store)
  {
    hide GoTrim;
  }

  lemma DeploySynced(s: Store, log: Log, i: nat, task: Task, a: Answer)
    requires IsDeploy(task) && Synced(s)
    ensures StaysSynced(s, task, a, DeployStep(s, log, i, task, a).store)
  {
    hide HostForScript, IsSecret, AfterEnabling;
  }

  lemma DeleteSynced(s: Store, log: Log, task: Task, a: Answer)
    requires IsDelete(task) && Synced(s)
    ensures StaysSynced(s, task, a, DeleteStep(s, log, task, a).store)
  {
    hide BeginDelete, Next;
  }

  lemma SetSynced(s: Store, log: Log, task: Task, a: Answer)
    requires IsSetTask(task) && Synced(s)
    ensures StaysSynced(s, task, a, SetStep(s, log, task, a).store)
  {
    hide FindZone, GoTrim;
  }

  lemma ProbeSynced(s: Store, log: Log, i: nat, task: Task, a: Answer)
    requires IsProbe(task) && Synced(s)
    ensures StaysSynced(s, task, a, ProbeStep(s, log, i, task, a).store)
  {
    hide PathSecretFor, See;
  }

  lemma StepSynced(w: World, action: Action)
    requires Synced(w.store) && SavesSucceed(w, action)
    ensures Synced(Step(w, action).store)
  {
    hide TaskStep, MayDeploy, BeginDelete, GoTrim, ValidSubdomain, Resumed;
    if action.Continue? && action.index < |w.tasks| {
      TaskSynced(w.store, w.log, action.index, w.tasks[action.index], action.answer);
    }
  }

  lemma {:induction false} RunSynced(w: World, actions: seq<Action>)
    requires Synced(w.store) && AllSavesSucceed(w, actions)
    ensures Synced(Run(w, actions).store)
    decreases |actions|
  {
    hide Synced, Step, SavesSucceed;
    if actions != [] {
      StepSynced(w, actions[0]);
      RunSynced(Step(w, actions[0]), actions[1..]);
    }
  }

  /** In every interleaving in which the saves succeed, a restart finds the configuration and the
      records just as they were in memory. */
  lemma RestartLosesNothing(actions: seq<Action>, order: seq<string>)
    requires AllSavesSucceed(Init(), actions)
    ensures var s, s' := Run(Init(), actions).store, Run(Init(), actions + [Restart(order)]).store;
            s'.cfg == s.cfg && s'.deployments == s.deployments
  {
    hide Run, Resumed;
    RunSynced(Init(), actions);
    RunLast(Init(), actions, Restart(order));
  }
}
