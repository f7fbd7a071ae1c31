/** Who writes "active", and what a blank secret lets through. */
module CdnWrites {
  import opened CdnSafety
  import opened CdnStore
  import opened CdnSystem
  import opened Text

  predicate IsActive(d: map<string, Record>, nodeID: string) {
    nodeID in d && d[nodeID].status == Active
  }

  /** A probe about to mark its node's present record, which has the host it was started for. */
  predicate Winner(d: map<string, Record>, task: Task, nodeID: string) {
    && task.Probing? && task.stage == Winning && task.nodeID == nodeID
    && nodeID in d && d[nodeID].customHost == task.host
  }

  lemma ActiveWrittenByWinner(s: Store, log: Log, i: nat, task: Task, a: Answer, nodeID: string)
    requires TaskOk(log, i, task) && !IsActive(s.deployments, nodeID)
    requires IsActive(TaskStep(s, log, i, task, a).store.deployments, nodeID)
    ensures Winner(s.deployments, task, nodeID) && Won(log, i, task.tries)
    ensures TaskStep(s, log, i, task, a).store.deployments[nodeID] == s.deployments[nodeID].(status := Active)
  {
    hide VerifyStep, DeployStep, DeleteStep, SetStep, ProbeStep, TaskStep, RecordOk, GoTrim, Won, Made;
    TaskStepUnfolds(s, log, i, task, a);
    if IsProbe(task) {
      ProbeWrites(s, log, i, task, a, nodeID);
    } else {
      OthersDoNotActivate(s, log, i, task, a, nodeID);
    }
  }

  lemma ProbeWrites(s: Store, log: Log, i: nat, task: Task, a: Answer, nodeID: string)
    requires IsProbe(task) && !IsActive(s.deployments, nodeID)
    requires IsActive(ProbeStep(s, log, i, task, a).store.deployments, nodeID)
    ensures Winner(s.deployments, task, nodeID)
    ensures ProbeStep(s, log, i, task, a).store.deployments[nodeID] == s.deployments[nodeID].(status := Active)
  {
    hide PathSecretFor, Saved, See;
  }

  lemma OthersDoNotActivate(s: Store, log: Log, i: nat, task: Task, a: Answer, nodeID: string)
    requires !IsProbe(task) && !IsActive(s.deployments, nodeID)
    requires task.DeployReady? ==> task.record.status != Active
    ensures !IsActive(TaskStep(s, log, i, task, a).store.deployments, nodeID)
  {
    hide VerifyStep, DeployStep, DeleteStep, SetStep, TaskStep, IsActive;
    TaskStepUnfolds(s, log, i, task, a);
    if IsDeploy(task) {
      DeployDoesNotActivate(s, log, i, task, a, nodeID);
    } else if task.Verifying? || task.VerifyEnding? {
      VerifyDoesNotActivate(s, log, task, a, nodeID);
    } else if IsDelete(task) {
      DeleteDoesNotActivate(s, log, task, a, nodeID);
    } else if IsSetTask(task) {
      SetDoesNotActivate(s, log, task, a, nodeID);
    }
  }

  lemma DeployDoesNotActivate(s: Store, log: Log, i: nat, task: Task, a: Answer, nodeID: string)
    requires IsDeploy(task) && (task.DeployReady? ==> task.record.status != Active)
    ensures IsActive(DeployStep(s, log, i, task, a).store.deployments, nodeID) ==> IsActive(s.deployments, nodeID)
  {
    hide IsSecret, AfterEnabling, Saved;
  }

  lemma VerifyDoesNotActivate(s: Store, log: Log, task: Task, a: Answer, nodeID: string)
    requires task.Verifying? || task.VerifyEnding?
    ensures IsActive(VerifyStep(s, log, task, a).store.deployments, nodeID) ==> IsActive(s.deployments, nodeID)
  {
    hide GoTrim, Saved;
  }

  lemma DeleteDoesNotActivate(s: Store, log: Log, task: Task, a: Answer, nodeID: string)
    requires IsDelete(task)
    ensures IsActive(DeleteStep(s, log, task, a).store.deployments, nodeID) ==> IsActive(s.deployments, nodeID)
  {
    hide BeginDelete, Next, Saved;
  }

  lemma SetDoesNotActivate(s: Store, log: Log, task: Task, a: Answer, nodeID: string)
    requires IsSetTask(task)
    ensures IsActive(SetStep(s, log, task, a).store.deployments, nodeID) ==> IsActive(s.deployments, nodeID)
  {
    hide FindZone, GoTrim, Saved;
  }

  /** Every step but a restart that turns a record active is a probe of that node, on a present
      record with that probe's host, in a try that reached TLS and then either reached the relay or
      found no secret; and it changes the status alone. */
  lemma ActiveIsWrittenByWinner(actions: seq<Action>, next: Action, nodeID: string)
    requires !next.Restart?
    requires !IsActive(Run(Init(), actions).store.deployments, nodeID)
    requires IsActive(Step(Run(Init(), actions), next).store.deployments, nodeID)
    ensures var w := Run(Init(), actions);
            && next.Continue? && next.index < |w.tasks|
            && Winner(w.store.deployments, w.tasks[next.index], nodeID)
            && Won(w.log, next.index, w.tasks[next.index].tries)
            && Step(w, next).store.deployments[nodeID] == w.store.deployments[nodeID].(status := Active)
  {
    hide Run, Init, TaskStep, MayDeploy, BeginDelete, GoTrim, Won, Winner;
    Reachable(actions);
    var w := Run(Init(), actions);
    if next.Continue? && next.index < |w.tasks| {
      ActiveWrittenByWinner(w.store, w.log, next.index, w.tasks[next.index], next.answer, nodeID);
    }
  }

  // ---------------------------------------------------------------- without a relay answer

  /** After its TLS handshake a probe wins without asking the relay exactly when its record is gone
      or bound to another host at the moment the secret is read. */
  lemma WinsUnaskedIff(actions: seq<Action>, i: nat, a: Answer)
    requires var w := Run(Init(), actions);
             i < |w.tasks| && w.tasks[i].Probing? && w.tasks[i].stage == TlsOk
    ensures var w := Run(Init(), actions);
            var now := Step(w, Continue(i, a)).tasks[i];
            && now.Probing? && (now.stage == Winning || now.stage.HasSecret?)
            && (now.stage == Winning <==> !Expects(w.store, w.tasks[i].nodeID, w.tasks[i].host))
  {
    hide Run, Init, PathSecretFor, Expects;
    Reachable(actions);
    var w := Run(Init(), actions);
    BlankMeansGone(w.log, w.store, w.tasks[i].nodeID, w.tasks[i].host);
  }

  /** A winning probe leaves its record active exactly when the record has the probe's host. */
  lemma MarksIff(w: World, i: nat, a: Answer)
    requires i < |w.tasks| && w.tasks[i].Probing? && w.tasks[i].stage == Winning
    ensures var task, s' := w.tasks[i], Step(w, Continue(i, a)).store;
            Expects(s', task.nodeID, task.host) && IsActive(s'.deployments, task.nodeID)
            <==> Expects(w.store, task.nodeID, task.host)
  {
  }

  /** Over any interleaving: a probe that has reached TLS goes on to mark its record active without
      ever asking the relay exactly when the record does not own the host when the secret is read
      and owns it again when the mark is made. */
  lemma ActiveUnaskedIff(actions: seq<Action>, i: nat, a: Answer, between: seq<Action>, b: Answer)
    requires var w := Run(Init(), actions);
             i < |w.tasks| && w.tasks[i].Probing? && w.tasks[i].stage == TlsOk
    requires var w1 := Step(Run(Init(), actions), Continue(i, a));
             i < |Run(w1, between).tasks| && Run(w1, between).tasks[i] == w1.tasks[i]
    ensures var w := Run(Init(), actions);
            var w1 := Step(w, Continue(i, a));
            var w2 := Run(w1, between);
            var s3 := Step(w2, Continue(i, b)).store;
            var n, h := w.tasks[i].nodeID, w.tasks[i].host;
            w1.tasks[i].stage == Winning && Expects(s3, n, h) && IsActive(s3.deployments, n)
            <==> !Expects(w.store, n, h) && Expects(w2.store, n, h)
  {
    hide Run, Init, Expects, IsActive;
    WinsUnaskedIff(actions, i, a);
    var w := Run(Init(), actions);
    var w1 := Step(w, Continue(i, a));
    var w2 := Run(w1, between);
    SameProbe(w, i, a);
    if w1.tasks[i].stage == Winning {
      MarksIff(w2, i, b);
    }
  }

  lemma SameProbe(w: World, i: nat, a: Answer)
    requires i < |w.tasks| && w.tasks[i].Probing? && w.tasks[i].stage == TlsOk
    ensures var now := Step(w, Continue(i, a)).tasks[i];
            now.Probing? && now.nodeID == w.tasks[i].nodeID && now.host == w.tasks[i].host
  {
    hide PathSecretFor, Expects;
  }
}
