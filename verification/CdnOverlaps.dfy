/** Operations that overlap on one node: which deployment's record a delete removes. */
module CdnOverlaps {
  import opened CdnNames
  import opened CdnSafety
  import opened CdnStore
  import opened CdnSystem
  import opened Text

  /** A deployment that has yet to commit its record. */
  predicate Uncommitted(task: Task) {
    task.Deploying? || task.DeployEnabling? || task.DeployReading? || task.DeployBinding? || task.DeployReady?
  }

  /** The record a deployment carries bears the deployment's own number. */
  predicate Numbered(i: nat, task: Task) {
    match task
    case DeployEnabling(r, _) => r.deployedAt == i
    case DeployReading(r) => r.deployedAt == i
    case DeployBinding(r, _) => r.deployedAt == i
    case DeployReady(r) => r.deployedAt == i
    case _ => true
  }

  /** A deployment that will not commit again. */
  predicate Past(tasks: seq<Task>, k: nat) {
    k < |tasks| && !Uncommitted(tasks[k])
  }

  predicate AllPast(tasks: seq<Task>, d: map<string, Record>) {
    forall n | n in d :: Past(tasks, d[n].deployedAt)
  }

  predicate StampInv(w: World) {
    && (forall i: nat | i < |w.tasks| :: Numbered(i, w.tasks[i]))
    && AllPast(w.tasks, w.store.deployments) && AllPast(w.tasks, w.store.disk.deployments)
  }

  // ---------------------------------------------------------------- steps of one task

  lemma TaskNumbers(s: Store, log: Log, i: nat, task: Task, a: Answer)
    requires Numbered(i, task)
    ensures var c := TaskStep(s, log, i, task, a);
            && Numbered(i, c.task) && (Uncommitted(c.task) ==> Uncommitted(task))
            && (forall t | t in c.spawned :: t.Probing?)
            && (task.DeployReady? ==> !Uncommitted(c.task))
            && (task == Over ==> c.task == Over)
  {
    hide VerifyCommit, FailVerify, HostForScript, IsSecret, MayDelete, DeleteAccount, GoTrim, Saved, FindZone,
      PathSecretFor, Expects, Mark;
  }

  /** The deployment whose record stands for a node after a step: the one committing, or as before. */
  predicate StampKept(s: Store, task: Task, s': Store, n: string) {
    && (if task.DeployReady? && task.record.nodeID == n
        then n in s'.deployments && s'.deployments[n] == task.record
        else n in s'.deployments ==> n in s.deployments && s'.deployments[n].deployedAt == s.deployments[n].deployedAt)
    && (s'.disk.deployments == s.disk.deployments || s'.disk.deployments == s'.deployments)
  }

  lemma TaskStamps(s: Store, log: Log, i: nat, task: Task, a: Answer, n: string)
    ensures StampKept(s, task, TaskStep(s, log, i, task, a).store, n)
  {
    hide VerifyStep, DeployStep, DeleteStep, SetStep, ProbeStep, TaskStep, StampKept;
    TaskStepUnfolds(s, log, i, task, a);
    if task.Verifying? || task.VerifyEnding? {
      VerifyStamps(s, log, task, a, n);
    } else if IsDeploy(task) {
      DeployStamps(s, log, i, task, a, n);
    } else if IsDelete(task) {
      DeleteStamps(s, log, task, a, n);
    } else if IsSetTask(task) {
      SetStamps(s, log, task, a, n);
    } else if IsProbe(task) {
      ProbeStamps(s, log, i, task, a, n);
    } else {
      SameStamps(s, task, n);
    }
  }

  lemma SameStamps(s: Store, task: Task, n: string)
    requires !task.DeployReady?
    ensures StampKept(s, task, s, n)
  {
  }

  lemma VerifyStamps(s: Store, log: Log, task: Task, a: Answer, n: string)
    requires task.Verifying? || task.VerifyEnding?
    ensures StampKept(s, task, VerifyStep(s, log, task, a).store, n)
  {
    hide GoTrim, Saved;
  }

  lemma DeployStamps(s: Store, log: Log, i: nat, task: Task, a: Answer, n: string)
    requires IsDeploy(task)
    ensures StampKept(s, task, DeployStep(s, log, i, task, a).store, n)
  {
    hide HostForScript, IsSecret, AfterEnabling, Saved;
  }

  lemma DeleteStamps(s: Store, log: Log, task: Task, a: Answer, n: string)
    requires IsDelete(task)
    ensures StampKept(s, task, DeleteStep(s, log, task, a).store, n)
  {
    hide BeginDelete, Next, Saved;
  }

  lemma SetStamps(s: Store, log: Log, task: Task, a: Answer, n: string)
    requires IsSetTask(task)
    ensures StampKept(s, task, SetStep(s, log, task, a).store, n)
  {
    hide FindZone, GoTrim, Saved;
  }

  lemma ProbeStamps(s: Store, log: Log, i: nat, task: Task, a: Answer, n: string)
    requires IsProbe(task)
    ensures StampKept(s, task, ProbeStep(s, log, i, task, a).store, n)
  {
    hide PathSecretFor, Expects, Saved, See, Mark, StampKept;
    var b := Saved(a);
    SameStamps(s, task, n);
    MarkStamps(s, task, task.host, Pending, b, n);
    MarkStamps(s, task, task.host, Active, b, n);
    MarkStamps(s, task, task.host, Failed, b, n);
  }

  lemma MarkStamps(s: Store, task: Task, host: string, status: HostStatus, saved: bool, n: string)
    requires IsProbe(task)
    ensures StampKept(s, task, Mark(s, task.nodeID, host, status, saved), n)
  {
  }

  lemma PastStays(tasks: seq<Task>, i: nat, t: Task, more: seq<Task>, k: nat)
    requires Past(tasks, k) && i < |tasks| && (Uncommitted(t) ==> Uncommitted(tasks[i]))
    ensures Past(tasks[i := t] + more, k)
  {
    hide Uncommitted;
  }

  lemma ContinueStamps(w: World, i: nat, a: Answer)
    requires StampInv(w) && i < |w.tasks|
    ensures StampInv(Step(w, Continue(i, a)))
  {
    hide TaskStep, Uncommitted, Past, Numbered;
    var task := w.tasks[i];
    var c, w' := TaskStep(w.store, w.log, i, task, a), Step(w, Continue(i, a));
    TaskNumbers(w.store, w.log, i, task, a);
    forall j: nat | j < |w'.tasks| ensures Numbered(j, w'.tasks[j]) {
      if j >= |w.tasks| {
        assert w'.tasks[j] == c.spawned[j - |w.tasks|] && w'.tasks[j] in c.spawned;
        ProbesAreNumbered(j, w'.tasks[j]);
      }
    }
    forall n | n in c.store.deployments ensures Past(w'.tasks, c.store.deployments[n].deployedAt) {
      TaskStamps(w.store, w.log, i, task, a, n);
      if task.DeployReady? && task.record.nodeID == n {
        OwnStamp(w.tasks, i, c.task, c.spawned);
      } else {
        PastStays(w.tasks, i, c.task, c.spawned, w.store.deployments[n].deployedAt);
      }
    }
    forall n | n in c.store.disk.deployments ensures Past(w'.tasks, c.store.disk.deployments[n].deployedAt) {
      TaskStamps(w.store, w.log, i, task, a, n);
      if c.store.disk.deployments == w.store.disk.deployments {
        PastStays(w.tasks, i, c.task, c.spawned, w.store.disk.deployments[n].deployedAt);
      }
    }
  }

  lemma ProbesAreNumbered(j: nat, t: Task)
    ensures t.Probing? || t == Over || t.Resuming? ==> Numbered(j, t) && !Uncommitted(t)
  {
  }

  lemma OwnStamp(tasks: seq<Task>, i: nat, t: Task, more: seq<Task>)
    requires i < |tasks| && tasks[i].DeployReady? && Numbered(i, tasks[i]) && !Uncommitted(t)
    ensures Past(tasks[i := t] + more, tasks[i].record.deployedAt)
  {
  }

  lemma AddedStamps(w: World, s: Store, t: Task)
    requires StampInv(w) && s.deployments == w.store.deployments && s.disk == w.store.disk
    requires Numbered(|w.tasks|, t)
    ensures StampInv(Spawn(w, s, t))
  {
    hide Uncommitted, Numbered;
  }

  lemma StartedNumbered(j: nat, t: Task, s: Store, n: string)
    ensures t.Verifying? || t.Deploying? || t.Clearing? || t.SetProbing? ==> Numbered(j, t)
    ensures Numbered(j, BeginDelete(s, n, None))
  {
    hide MayDelete, DeleteAccount;
  }

  lemma {:induction false} ResumedProbes(d: map<string, Record>, order: seq<string>)
    ensures forall t | t in Resumed(d, order) :: t.Probing? || t.Resuming?
  {
    if order != [] {
      ResumedProbes(d, order[1..]);
    }
  }

  lemma RestartStamps(w: World, order: seq<string>)
    requires StampInv(w)
    ensures StampInv(Step(w, Restart(order)))
  {
    hide Resumed, Numbered, Uncommitted;
    var d, w' := w.store.disk.deployments, Step(w, Restart(order));
    var more := Resumed(d, order);
    ResumedProbes(d, order);
    forall j: nat | j < |w'.tasks| ensures Numbered(j, w'.tasks[j]) && !Uncommitted(w'.tasks[j]) {
      if j >= |w.tasks| {
        assert w'.tasks[j] == more[j - |w.tasks|] && w'.tasks[j] in more;
      }
      ProbesAreNumbered(j, w'.tasks[j]);
    }
  }

  lemma StepStamps(w: World, action: Action)
    requires StampInv(w)
    ensures StampInv(Step(w, action))
  {
    hide StampInv, MayDeploy, BeginDelete, GoTrim, ValidSubdomain, TaskStep, Resumed, Numbered;
    var s, k := w.store, |w.tasks|;
    match action
    case Continue(i, a) => if i < k { ContinueStamps(w, i, a); }
    case Restart(order) => RestartStamps(w, order);
    case StartVerify(token) =>
      var t := Verifying(token, Verified(s.cfg));
      StartedNumbered(k, t, s, "");
      AddedStamps(w, s.(verifying := true), t);
    case StartDeploy(node, script, backend, host, port, template) =>
      var t := Deploying(node, script, backend, s.cfg.accountID, s.cfg.workersSubdomain);
      StartedNumbered(k, t, s, "");
      AddedStamps(w, s.(deploying := true), t);
    case StartDelete(node) =>
      StartedNumbered(k, Over, s, node);
      AddedStamps(w, s, BeginDelete(s, node, None));
    case StartClear(ids) =>
      StartedNumbered(k, Clearing(ids), s, "");
      AddedStamps(w, s, Clearing(ids));
    case StartSet(zone, sub) =>
      StartedNumbered(k, SetProbing(GoTrim(zone), GoTrim(sub)), s, "");
      AddedStamps(w, s, SetProbing(GoTrim(zone), GoTrim(sub)));
    case DropDomain(saved) => DroppedStamps(w, saved);
  }

  lemma DroppedStamps(w: World, saved: bool)
    requires StampInv(w)
    ensures StampInv(Step(w, DropDomain(saved)))
  {
    hide Numbered, Past;
  }

  lemma {:induction false} RunStamps(w: World, actions: seq<Action>)
    requires StampInv(w)
    ensures StampInv(Run(w, actions))
    decreases |actions|
  {
    hide StampInv, Step;
    if actions != [] {
      StepStamps(w, actions[0]);
      RunStamps(Step(w, actions[0]), actions[1..]);
    }
  }

  lemma InitStamps()
    ensures StampInv(Init())
  {
  }

  // ---------------------------------------------------------------- between two moments

  /** The step commits a deployment of this node. */
  predicate Commits(w: World, action: Action, n: string) {
    action.Continue? && action.index < |w.tasks| && w.tasks[action.index].DeployReady?
    && w.tasks[action.index].record.nodeID == n
  }

  predicate CommitsIn(w: World, actions: seq<Action>, n: string)
    decreases |actions|
  {
    actions != [] && (Commits(w, actions[0], n) || CommitsIn(Step(w, actions[0]), actions[1..], n))
  }

  /** The node's record, if there is one, is that of deployment k. */
  predicate Holds(w: World, n: string, k: nat) {
    n in w.store.deployments ==> w.store.deployments[n].deployedAt == k
  }

  predicate HoldsOther(w: World, n: string, k: nat) {
    n in w.store.deployments ==> w.store.deployments[n].deployedAt != k
  }

  lemma StepHolds(w: World, action: Action, n: string, k: nat)
    requires StampInv(w) && Past(w.tasks, k) && !action.Restart?
    ensures Past(Step(w, action).tasks, k)
    ensures Commits(w, action, n) ==> HoldsOther(Step(w, action), n, k)
    ensures !Commits(w, action, n) && Holds(w, n, k) ==> Holds(Step(w, action), n, k)
    ensures HoldsOther(w, n, k) ==> HoldsOther(Step(w, action), n, k)
  {
    hide TaskStep, MayDeploy, BeginDelete, GoTrim, ValidSubdomain, Resumed, Numbered, Uncommitted;
    if action.Continue? && action.index < |w.tasks| {
      var i, a := action.index, action.answer;
      var task := w.tasks[i];
      assert Numbered(i, task);
      TaskNumbers(w.store, w.log, i, task, a);
      TaskStamps(w.store, w.log, i, task, a, n);
      var c := TaskStep(w.store, w.log, i, task, a);
      PastStays(w.tasks, i, c.task, c.spawned, k);
      ReadyIsUncommitted(i, task);
    }
  }

  lemma ReadyIsUncommitted(i: nat, task: Task)
    requires Numbered(i, task)
    ensures task.DeployReady? ==> Uncommitted(task) && task.record.deployedAt == i
  {
  }

  /** What is over stays over. */
  lemma StepOver(w: World, action: Action, i: nat)
    requires i < |w.tasks|
    ensures i < |Step(w, action).tasks|
    ensures w.tasks[i] == Over || action.Restart? ==> Step(w, action).tasks[i] == Over
  {
    hide TaskStep, MayDeploy, BeginDelete, GoTrim, ValidSubdomain, Resumed;
    if action.Continue? && action.index == i {
      OverDoesNothing(w.store, w.log, i, action.answer);
    }
  }

  lemma OverDoesNothing(s: Store, log: Log, i: nat, a: Answer)
    ensures TaskStep(s, log, i, Over, a).task == Over
  {
  }

  lemma {:induction false} RunOver(w: World, actions: seq<Action>, i: nat)
    requires i < |w.tasks|
    ensures i < |Run(w, actions).tasks|
    ensures w.tasks[i] == Over ==> Run(w, actions).tasks[i] == Over
    decreases |actions|
  {
    hide Step;
    if actions != [] {
      StepOver(w, actions[0], i);
      RunOver(Step(w, actions[0]), actions[1..], i);
    }
  }

  lemma {:induction false} BetweenHolds(w: World, actions: seq<Action>, i: nat, n: string, k: nat)
    requires StampInv(w) && Past(w.tasks, k) && i < |w.tasks|
    requires i < |Run(w, actions).tasks| && Run(w, actions).tasks[i] != Over
    ensures HoldsOther(w, n, k) ==> HoldsOther(Run(w, actions), n, k)
    ensures Holds(w, n, k) && !CommitsIn(w, actions, n) ==> Holds(Run(w, actions), n, k)
    ensures CommitsIn(w, actions, n) ==> HoldsOther(Run(w, actions), n, k)
    decreases |actions|
  {
    hide StampInv, Step, Commits, Holds, HoldsOther, Past;
    if actions != [] {
      var w1 := Step(w, actions[0]);
      StepOver(w, actions[0], i);
      RunOver(w1, actions[1..], i);
      StepStamps(w, actions[0]);
      StepHolds(w, actions[0], n, k);
      BetweenHolds(w1, actions[1..], i, n, k);
    }
  }

  predicate Deleting(task: Task, n: string, k: nat) {
    (task.DeleteDetaching? || task.DeleteRemoving? || task.DeleteReady?) && task.nodeID == n && task.of == k
  }

  /** A delete notes the deployment whose record it finds. */
  lemma DeleteNotes(s: Store, n: string, rest: Option<seq<string>>)
    requires MayDelete(s, n)
    ensures Deleting(BeginDelete(s, n, rest), n, s.deployments[n].deployedAt)
  {
  }

  /** In every interleaving: the commit of a delete removes the record of another deployment than the
      one the delete found exactly when a deployment of that node has committed in between. */
  lemma DeleteDropsOtherIff(before: seq<Action>, i: nat, n: string, k: nat, between: seq<Action>, a: Answer)
    requires var w := Run(Init(), before);
             && i < |w.tasks| && Deleting(w.tasks[i], n, k)
             && n in w.store.deployments && w.store.deployments[n].deployedAt == k
    requires var w2 := Run(Run(Init(), before), between);
             && i < |w2.tasks| && w2.tasks[i].DeleteReady? && Deleting(w2.tasks[i], n, k)
             && n in w2.store.deployments
    ensures var w := Run(Init(), before);
            var w2 := Run(w, between);
            && Step(w2, Continue(i, a)).store.deployments == w2.store.deployments - {n}
            && (w2.store.deployments[n].deployedAt != k <==> CommitsIn(w, between, n))
  {
    hide Run, Init, StampInv, CommitsIn;
    InitStamps();
    RunStamps(Init(), before);
    var w := Run(Init(), before);
    StampIsPast(w, n);
    BetweenHolds(w, between, i, n, k);
  }

  lemma StampIsPast(w: World, n: string)
    requires StampInv(w) && n in w.store.deployments
    ensures Past(w.tasks, w.store.deployments[n].deployedAt)
  {
  }
}
