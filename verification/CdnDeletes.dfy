/** What removes a record: the answer a remote delete got, in every interleaving. */
module CdnDeletes {
  import opened CdnNames
  import opened CdnOverlaps
  import opened CdnSafety
  import opened CdnStore
  import opened CdnSystem
  import opened Text

  // ---------------------------------------------------------------- what happened before

  /** The node has the record of this deployment, with this account and script. */
  predicate Has(w: World, n: string, of: nat, account: string, script: string) {
    && n in w.store.deployments && w.store.deployments[n].deployedAt == of
    && w.store.deployments[n].accountID == account && w.store.deployments[n].scriptName == script
  }

  /** At some moment of the run the node had that record. */
  predicate Found(actions: seq<Action>, n: string, of: nat, account: string, script: string) {
    exists j | 0 <= j <= |actions| :: Has(Run(Init(), actions[..j]), n, of, account, script)
  }

  /** Action k is the success of task i's remote delete, sent for the script of that record under
      the account of that record. */
  predicate GrantAt(actions: seq<Action>, k: nat, i: nat, n: string, of: nat)
    requires k < |actions|
  {
    var w := Run(Init(), actions[..k]);
    && actions[k] == Continue(i, Granted)
    && i < |w.tasks| && w.tasks[i].DeleteRemoving? && w.tasks[i].nodeID == n && w.tasks[i].of == of
    && Found(actions[..k], n, of, w.tasks[i].accountID, w.tasks[i].scriptName)
  }

  predicate WasGranted(actions: seq<Action>, i: nat, n: string, of: nat) {
    exists k | 0 <= k < |actions| :: GrantAt(actions, k, i, n, of)
  }

  lemma FoundLater(actions: seq<Action>, next: Action, n: string, of: nat, account: string, script: string)
    requires Found(actions, n, of, account, script)
    ensures Found(actions + [next], n, of, account, script)
  {
    hide Run, Has;
    var j :| 0 <= j <= |actions| && Has(Run(Init(), actions[..j]), n, of, account, script);
    assert (actions + [next])[..j] == actions[..j];
  }

  lemma GrantedLater(actions: seq<Action>, next: Action, i: nat, n: string, of: nat)
    requires WasGranted(actions, i, n, of)
    ensures WasGranted(actions + [next], i, n, of)
  {
    hide Run, Found;
    var k :| 0 <= k < |actions| && GrantAt(actions, k, i, n, of);
    assert (actions + [next])[..k] == actions[..k] && (actions + [next])[k] == actions[k];
    assert GrantAt(actions + [next], k, i, n, of);
  }

  // ---------------------------------------------------------------- how a delete advances

  lemma DeleteAdvances(s: Store, log: Log, i: nat, task: Task, a: Answer)
    ensures var c := TaskStep(s, log, i, task, a);
            && (c.task.DeleteDetaching? ==>
                  task.Clearing? && task.ids != [] && MayDelete(s, task.ids[0])
                  && c.task == BeginDelete(s, task.ids[0], Some(task.ids[1..])))
            && (c.task.DeleteRemoving? ==>
                  task.DeleteDetaching? && c.task.nodeID == task.nodeID && c.task.of == task.of
                  && c.task.accountID == task.accountID && c.task.scriptName == task.scriptName)
            && (c.task.DeleteReady? ==>
                  task.DeleteRemoving? && a == Granted && c.task.nodeID == task.nodeID && c.task.of == task.of)
            && (forall t | t in c.spawned :: t.Probing?)
  {
    hide VerifyCommit, FailVerify, HostForScript, IsSecret, MayDelete, DeleteAccount, GoTrim, Saved, FindZone,
      PathSecretFor, Expects, Mark;
  }

  /** What is known of a delete under way: the record it is for was there, and before its commit the
      remote delete succeeded. */
  predicate DeleteOk(actions: seq<Action>, i: nat, task: Task) {
    match task
    case DeleteDetaching(n, of, account, script, _, _) => Found(actions, n, of, account, script)
    case DeleteRemoving(n, of, account, script, _) => Found(actions, n, of, account, script)
    case DeleteReady(n, of, _) => WasGranted(actions, i, n, of)
    case _ => true
  }

  predicate DeletesOk(actions: seq<Action>) {
    forall i: nat | i < |Run(Init(), actions).tasks| :: DeleteOk(actions, i, Run(Init(), actions).tasks[i])
  }

  lemma StaysOk(actions: seq<Action>, next: Action, i: nat, task: Task)
    requires DeleteOk(actions, i, task)
    ensures DeleteOk(actions + [next], i, task)
  {
    hide Found, WasGranted;
    match task
    case DeleteDetaching(n, of, account, script, _, _) => FoundLater(actions, next, n, of, account, script);
    case DeleteRemoving(n, of, account, script, _) => FoundLater(actions, next, n, of, account, script);
    case DeleteReady(n, of, _) => GrantedLater(actions, next, i, n, of);
    case _ =>
  }

  /** A delete that begins aims at the record it finds. */
  lemma BegunOk(actions: seq<Action>, next: Action, i: nat, n: string, rest: Option<seq<string>>)
    ensures DeleteOk(actions + [next], i, BeginDelete(Run(Init(), actions).store, n, rest))
  {
    hide Run, MayDelete, Found, WasGranted;
    var w := Run(Init(), actions);
    if MayDelete(w.store, n) {
      DeleteUsesPinnedAccount(actions, n, rest);
      FoundNow(actions, n);
      var r := w.store.deployments[n];
      FoundLater(actions, next, n, r.deployedAt, r.accountID, r.scriptName);
    }
  }

  lemma FoundNow(actions: seq<Action>, n: string)
    requires MayDelete(Run(Init(), actions).store, n)
    ensures n in Run(Init(), actions).store.deployments
    ensures var r := Run(Init(), actions).store.deployments[n];
            Found(actions, n, r.deployedAt, r.accountID, r.scriptName)
  {
    hide Run, GoTrim;
    assert actions[..|actions|] == actions;
    var r := Run(Init(), actions).store.deployments[n];
    assert Has(Run(Init(), actions[..|actions|]), n, r.deployedAt, r.accountID, r.scriptName);
  }

  lemma GrantedNow(actions: seq<Action>, i: nat)
    requires i < |Run(Init(), actions).tasks| && DeleteOk(actions, i, Run(Init(), actions).tasks[i])
    requires Run(Init(), actions).tasks[i].DeleteRemoving?
    ensures var task := Run(Init(), actions).tasks[i];
            WasGranted(actions + [Continue(i, Granted)], i, task.nodeID, task.of)
  {
    hide Run, Found;
    var k, longer := |actions|, actions + [Continue(i, Granted)];
    assert longer[..k] == actions && longer[k] == Continue(i, Granted);
    var task := Run(Init(), actions).tasks[i];
    assert GrantAt(longer, k, i, task.nodeID, task.of);
  }

  lemma ContinuesOk(actions: seq<Action>, i: nat, a: Answer)
    requires DeletesOk(actions) && i < |Run(Init(), actions).tasks|
    ensures var w := Run(Init(), actions);
            DeleteOk(actions + [Continue(i, a)], i, TaskStep(w.store, w.log, i, w.tasks[i], a).task)
  {
    hide Run, TaskStep, Found, WasGranted, BeginDelete, MayDelete;
    var w, next := Run(Init(), actions), Continue(i, a);
    var task := w.tasks[i];
    DeleteAdvances(w.store, w.log, i, task, a);
    var now := TaskStep(w.store, w.log, i, task, a).task;
    assert DeleteOk(actions, i, task);
    match now
    case DeleteDetaching(_, _, _, _, _, _) => BegunOk(actions, next, i, task.ids[0], Some(task.ids[1..]));
    case DeleteRemoving(n, of, account, script, _) => FoundLater(actions, next, n, of, account, script);
    case DeleteReady(_, _, _) => GrantedNow(actions, i);
    case _ =>
  }

  lemma StepDeletes(actions: seq<Action>, next: Action)
    requires DeletesOk(actions)
    ensures DeletesOk(actions + [next])
  {
    hide Run, DeleteOk, TaskStep, MayDeploy, BeginDelete, GoTrim, ValidSubdomain, Resumed;
    var w := Run(Init(), actions);
    var w' := Step(w, next);
    RunLast(Init(), actions, next);
    forall i: nat | i < |w'.tasks| ensures DeleteOk(actions + [next], i, w'.tasks[i]) {
      if i < |w.tasks| && w'.tasks[i] == w.tasks[i] {
        StaysOk(actions, next, i, w.tasks[i]);
      } else {
        match next
        case Continue(k, a) =>
          if k == i && i < |w.tasks| {
            ContinuesOk(actions, i, a);
          } else {
            DeleteAdvances(w.store, w.log, k, w.tasks[k], a);
            var c := TaskStep(w.store, w.log, k, w.tasks[k], a);
            assert w'.tasks[i] == c.spawned[i - |w.tasks|] && w'.tasks[i] in c.spawned;
            NoDelete(actions + [next], i, w'.tasks[i]);
          }
        case Restart(order) =>
          ResumedProbes(w.store.disk.deployments, order);
          if i >= |w.tasks| {
            assert w'.tasks[i] in Resumed(w.store.disk.deployments, order);
          }
          NoDelete(actions + [next], i, w'.tasks[i]);
        case StartDelete(n) => BegunOk(actions, next, i, n, None);
        case DropDomain(_) =>
        case _ => NoDelete(actions + [next], i, w'.tasks[i]);
      }
    }
  }

  lemma NoDelete(actions: seq<Action>, i: nat, task: Task)
    requires !task.DeleteDetaching? && !task.DeleteRemoving? && !task.DeleteReady?
    ensures DeleteOk(actions, i, task)
  {
  }

  lemma {:induction false} RunDeletes(actions: seq<Action>)
    ensures DeletesOk(actions)
    decreases |actions|
  {
    hide DeletesOk;
    if actions == [] {
      NoDeletesYet();
    } else {
      var n := |actions| - 1;
      RunDeletes(actions[..n]);
      StepDeletes(actions[..n], actions[n]);
      assert actions[..n] + [actions[n]] == actions;
    }
  }

  lemma NoDeletesYet()
    ensures DeletesOk([])
  {
  }

  // ---------------------------------------------------------------- main results

  /** The step after which a record of this node is gone, other than a restart. */
  predicate Removes(w: World, next: Action, n: string) {
    !next.Restart? && n in w.store.deployments && n !in Step(w, next).store.deployments
  }

  lemma RemovalIs(w: World, next: Action, n: string)
    requires Removes(w, next, n)
    ensures next.Continue? && next.index < |w.tasks|
    ensures var task := w.tasks[next.index];
            task == Clearing([]) || (task.DeleteReady? && task.nodeID == n)
  {
    hide TaskStep, MayDeploy, BeginDelete, GoTrim, ValidSubdomain;
    if next.Continue? && next.index < |w.tasks| {
      RemovingStep(w.store, w.log, next.index, w.tasks[next.index], next.answer, n);
    }
  }

  lemma RemovingStep(s: Store, log: Log, i: nat, task: Task, a: Answer, n: string)
    requires n in s.deployments && n !in TaskStep(s, log, i, task, a).store.deployments
    ensures task == Clearing([]) || (task.DeleteReady? && task.nodeID == n)
  {
    hide VerifyStep, DeployStep, DeleteStep, SetStep, ProbeStep, TaskStep;
    TaskStepUnfolds(s, log, i, task, a);
    if task.Verifying? || task.VerifyEnding? {
      VerifyRemovesNone(s, log, task, a);
    } else if IsDeploy(task) {
      DeployRemovesNone(s, log, i, task, a);
    } else if IsDelete(task) {
      DeleteRemoves(s, log, task, a, n);
    } else if IsSetTask(task) {
      SetRemovesNone(s, log, task, a);
    } else if IsProbe(task) {
      ProbeRemovesNone(s, log, i, task, a);
    }
  }

  lemma VerifyRemovesNone(s: Store, log: Log, task: Task, a: Answer)
    requires task.Verifying? || task.VerifyEnding?
    ensures VerifyStep(s, log, task, a).store.deployments == s.deployments
  {
    hide GoTrim, Saved;
  }

  lemma DeployRemovesNone(s: Store, log: Log, i: nat, task: Task, a: Answer)
    requires IsDeploy(task)
    ensures forall n | n in s.deployments :: n in DeployStep(s, log, i, task, a).store.deployments
  {
    hide HostForScript, IsSecret, AfterEnabling, Saved;
  }

  lemma DeleteRemoves(s: Store, log: Log, task: Task, a: Answer, n: string)
    requires IsDelete(task) && n in s.deployments && n !in DeleteStep(s, log, task, a).store.deployments
    ensures task == Clearing([]) || (task.DeleteReady? && task.nodeID == n)
  {
    hide BeginDelete, Next, Saved;
  }

  lemma SetRemovesNone(s: Store, log: Log, task: Task, a: Answer)
    requires IsSetTask(task)
    ensures SetStep(s, log, task, a).store.deployments == s.deployments
  {
    hide FindZone, GoTrim, Saved;
  }

  lemma ProbeRemovesNone(s: Store, log: Log, i: nat, task: Task, a: Answer)
    requires IsProbe(task)
    ensures forall n | n in s.deployments :: n in ProbeStep(s, log, i, task, a).store.deployments
  {
    hide PathSecretFor, Saved, See;
  }

  /** In every interleaving, only two steps besides a restart remove a node's record: the end of a
      Clear, and the commit of a delete of that node; and before that commit Cloudflare has granted
      that same delete, sent for the script of the record the delete found, under its account. */
  lemma RemovalFollowsGrant(actions: seq<Action>, next: Action, n: string)
    requires Removes(Run(Init(), actions), next, n)
    ensures var w := Run(Init(), actions);
            && next.Continue? && next.index < |w.tasks|
            && var task := w.tasks[next.index];
               task == Clearing([])
               || (task.DeleteReady? && task.nodeID == n && WasGranted(actions, next.index, n, task.of))
  {
    hide Run, Removes, WasGranted;
    var w := Run(Init(), actions);
    RemovalIs(w, next, n);
    RunDeletes(actions);
    assert DeleteOk(actions, next.index, w.tasks[next.index]);
  }

  /** The other half, in any state: only a granted remote delete goes on to the commit, which removes
      the record. Any other answer leaves memory and disk as they were and ends that delete; a Clear
      goes on with its next node. */
  lemma RefusedDeleteKeepsRecord(w: World, i: nat, a: Answer)
    requires i < |w.tasks| && w.tasks[i].DeleteRemoving?
    ensures var task, w' := w.tasks[i], Step(w, Continue(i, a));
            && w'.store == w.store
            && w'.log.deletes == w.log.deletes + {(task.accountID, task.scriptName)}
            && w'.tasks
               == w.tasks[i := if a == Granted then DeleteReady(task.nodeID, task.of, task.rest)
                               else if task.rest.Some? then Clearing(task.rest.value) else Over]
            && (a == Granted ==>
                  forall b :: task.nodeID !in Step(w', Continue(i, b)).store.deployments)
  {
  }
}
