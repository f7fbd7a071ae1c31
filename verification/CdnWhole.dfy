/** Each CDN operation from beginning to end when nothing else runs in between, for all answers it
    can get. */
module CdnWhole {
  import opened CdnAccounts
  import opened CdnNames
  import opened CdnStore
  import opened CdnSystem
  import opened Text

  // ---------------------------------------------------------------- one task alone

  function Continues(i: nat, answers: seq<Answer>): seq<Action> {
    if answers == [] then [] else [Continue(i, answers[0])] + Continues(i, answers[1..])
  }

  /** What a task does by itself, given the answers to its steps. */
  function Alone(s: Store, log: Log, i: nat, task: Task, answers: seq<Answer>): Change
    decreases |answers|
  {
    if answers == [] then Change(s, log, task, [])
    else
      var c := TaskStep(s, log, i, task, answers[0]);
      var d := Alone(c.store, c.log, i, c.task, answers[1..]);
      d.(spawned := c.spawned + d.spawned)
  }

  lemma {:induction false} AloneRuns(w: World, i: nat, answers: seq<Answer>)
    requires i < |w.tasks|
    ensures var c := Alone(w.store, w.log, i, w.tasks[i], answers);
            Run(w, Continues(i, answers)) == World(c.store, c.log, w.tasks[i := c.task] + c.spawned)
    decreases |answers|
  {
    hide TaskStep;
    if answers == [] {
      assert w.tasks[i := w.tasks[i]] + [] == w.tasks;
    } else {
      var c := TaskStep(w.store, w.log, i, w.tasks[i], answers[0]);
      var w1 := Step(w, Continue(i, answers[0]));
      assert w1.tasks[i] == c.task;
      AloneRuns(w1, i, answers[1..]);
      assert Continues(i, answers)[1..] == Continues(i, answers[1..]);
      var d := Alone(w1.store, w1.log, i, c.task, answers[1..]);
      assert (w.tasks[i := c.task] + c.spawned)[i := d.task] + d.spawned
             == w.tasks[i := d.task] + (c.spawned + d.spawned);
    }
  }

  /** An operation begun and run to its end. */
  function Whole(w: World, first: Action, answers: seq<Answer>): World {
    Run(w, [first] + Continues(|w.tasks|, answers))
  }

  lemma WholeIs(w: World, first: Action, s: Store, task: Task, answers: seq<Answer>)
    requires Step(w, first) == World(s, w.log, w.tasks + [task])
    ensures var c := Alone(s, w.log, |w.tasks|, task, answers);
            Whole(w, first, answers) == World(c.store, c.log, w.tasks + [c.task] + c.spawned)
  {
    hide Step, Alone, Continues;
    var w1 := World(s, w.log, w.tasks + [task]);
    assert ([first] + Continues(|w.tasks|, answers))[1..] == Continues(|w.tasks|, answers);
    AloneRuns(w1, |w.tasks|, answers);
    var c := Alone(s, w.log, |w.tasks|, task, answers);
    assert (w.tasks + [task])[|w.tasks| := c.task] == w.tasks + [c.task];
  }

  lemma AloneStep(s: Store, log: Log, i: nat, task: Task, a: Answer, rest: seq<Answer>)
    ensures var c := TaskStep(s, log, i, task, a);
            var d := Alone(c.store, c.log, i, c.task, rest);
            Alone(s, log, i, task, [a] + rest) == d.(spawned := c.spawned + d.spawned)
  {
    hide TaskStep;
    assert ([a] + rest)[1..] == rest;
  }

  /** A task that is over stays over and does nothing. */
  lemma {:induction false} AloneOver(s: Store, log: Log, i: nat, answers: seq<Answer>)
    ensures Alone(s, log, i, Over, answers) == Change(s, log, Over, [])
    decreases |answers|
  {
    if answers != [] {
      AloneOver(s, log, i, answers[1..]);
    }
  }

  lemma AloneNone(s: Store, log: Log, i: nat, task: Task)
    ensures Alone(s, log, i, task, []) == Change(s, log, task, [])
  {
  }

  // ---------------------------------------------------------------- verification

  /** A verification that succeeds stores the account found and keeps the custom domain exactly when
      the trimmed earlier account is the same; one that fails wipes the configuration exactly when
      none was verified, and an empty token changes nothing. Deployments stay; the disk follows
      memory when the save succeeds. */
  lemma VerifyWhole(w: World, token: string, a: Answer, b: Answer)
    requires !w.store.verifying
    ensures var w', s := Whole(w, StartVerify(token), [a, b]), w.store;
            && w'.tasks == w.tasks + [Over] && w'.log == w.log
            && !w'.store.verifying && w'.store.deploying == s.deploying
            && w'.store.deployments == s.deployments && w'.store.disk.deployments == s.disk.deployments
            && var failed := !(a.Account? && a.accountID != "");
               var kept := GoTrim(token) == "" || (failed && GoTrim(s.cfg.accountID) != "");
               && (kept ==> w'.store.cfg == s.cfg && w'.store.disk == s.disk)
               && (!kept && failed ==> w'.store.cfg == Config("", "", "", "", None))
               && (!kept && !failed ==>
                     w'.store.cfg == Config(GoTrim(token), a.accountID, a.email, a.workersSubdomain,
                                            if GoTrim(s.cfg.accountID) == a.accountID then s.cfg.custom else None))
               && (!kept ==>
                     w'.store.disk.cfg
                     == if (a.Account? || a.Persisted?) && a.saved then w'.store.cfg else s.disk.cfg)
  {
    hide GoTrim, Alone, Whole;
    var s, i := w.store.(verifying := true), |w.tasks|;
    var task := Verifying(token, Verified(w.store.cfg));
    WholeIs(w, StartVerify(token), s, task, [a, b]);
    AloneStep(s, w.log, i, task, a, [b]);
    var c := TaskStep(s, w.log, i, task, a);
    assert c.task == VerifyEnding;
    AloneStep(c.store, c.log, i, VerifyEnding, b, []);
    AloneNone(c.store.(verifying := false), c.log, i, Over);
    assert [a] + [b] == [a, b] && [b] + [] == [b];
    assert w.tasks + [Over] + [] == w.tasks + [Over];
  }

  // ---------------------------------------------------------------- deletes

  /** A delete does nothing without a record or a verified account. Otherwise it detaches the bound
      host, if there is one, deletes the script, both under the account of the record, and drops the
      record exactly when that delete is granted. */
  lemma DeleteWhole(w: World, n: string, a: Answer, b: Answer, c: Answer)
    ensures var w', s := Whole(w, StartDelete(n), [a, b, c]), w.store;
            && w'.tasks == w.tasks + [Over]
            && (n !in s.deployments || GoTrim(s.cfg.accountID) == "" ==> w'.store == s && w'.log == w.log)
            && (n in s.deployments && GoTrim(s.cfg.accountID) != "" ==>
                  var r := s.deployments[n];
                  var account := if r.accountID == "" then s.cfg.accountID else r.accountID;
                  && w'.log.detaches
                     == w.log.detaches + (if r.customDomainID == "" then {} else {(account, r.customDomainID)})
                  && w'.log.deletes == w.log.deletes + {(account, r.scriptName)}
                  && w'.log.live == w.log.live - (if b == Granted then {(account, r.scriptName)} else {})
                  && w'.store
                     == if b != Granted then s
                        else
                          var left := s.deployments - {n};
                          s.(deployments := left,
                             disk := if c.Persisted? && c.saved then s.disk.(deployments := left) else s.disk))
  {
    hide GoTrim, Alone, Whole, TaskStep, Saved;
    var s, i := w.store, |w.tasks|;
    var t1 := BeginDelete(s, n, None);
    WholeIs(w, StartDelete(n), s, t1, [a, b, c]);
    assert w.tasks + [Over] + [] == w.tasks + [Over];
    if !MayDelete(s, n) {
      AloneOver(s, w.log, i, [a, b, c]);
    } else {
      assert [a] + ([b] + [c]) == [a, b, c] && [c] + [] == [c];
      DeleteSteps(s, w.log, i, t1, a, b, c);
      AloneStep(s, w.log, i, t1, a, [b] + [c]);
      var c1 := TaskStep(s, w.log, i, t1, a);
      AloneStep(s, c1.log, i, c1.task, b, [c]);
      var c2 := TaskStep(s, c1.log, i, c1.task, b);
      AloneOver(s, c2.log, i, [c]);
      AloneStep(s, c2.log, i, c2.task, c, []);
      AloneNone(DeleteCommit(s, n, Saved(c)), c2.log, i, Over);
      SavedIs(c);
    }
  }

  lemma SavedIs(a: Answer)
    ensures Saved(a) <==> a.Persisted? && a.saved
  {
  }

  /** The detaching, the deleting and the commit. */
  lemma DeleteSteps(s: Store, log: Log, i: nat, task: Task, a: Answer, b: Answer, c: Answer)
    requires task.DeleteDetaching?
    ensures var account, script := task.accountID, task.scriptName;
            var bound := if task.domainID == "" then {} else {(account, task.domainID)};
            var detached := log.(detaches := log.detaches + bound);
            var removing := DeleteRemoving(task.nodeID, task.of, account, script, task.rest);
            var gone := if b == Granted then {(account, script)} else {};
            var deleted := detached.(deletes := log.deletes + {(account, script)}, live := log.live - gone);
            var ready := DeleteReady(task.nodeID, task.of, task.rest);
            && TaskStep(s, log, i, task, a) == Change(s, detached, removing, [])
            && TaskStep(s, detached, i, removing, b)
               == Change(s, deleted, if b == Granted then ready else Next(task.rest), [])
            && TaskStep(s, deleted, i, ready, c)
               == Change(DeleteCommit(s, task.nodeID, Saved(c)), deleted, Next(task.rest), [])
  {
    hide Saved, DeleteCommit;
  }

  // ---------------------------------------------------------------- deploys

  /** Nothing but white space. */
  predicate Blank(s: string) {
    forall c | c in s :: GoSpace(c)
  }

  lemma BlankIff(s: string)
    ensures GoTrim(s) == "" <==> Blank(s)
  {
    TrimNothing(s, GoSpace);
  }

  /** A deploy begins exactly when none is under way, an account is verified, a workers.dev subdomain
      or a complete custom domain is there, the backend has a host and a positive port, and the
      binary has the script; otherwise nothing changes. */
  lemma DeployStartsIff(
    w: World, node: string, script: string, backend: string, host: string, port: int, template: bool)
    ensures var w', cfg := Step(w, StartDeploy(node, script, backend, host, port, template)), w.store.cfg;
            var starts := && !w.store.deploying && !Blank(cfg.accountID) && port > 0 && !Blank(host) && template
                          && (!Blank(cfg.workersSubdomain)
                              || match cfg.custom
                                 case None => false
                                 case Some(d) => !Blank(d.zoneID) && !Blank(d.zoneName) && !Blank(d.subdomain));
            && (starts ==> |w'.tasks| == |w.tasks| + 1 && w'.store == w.store.(deploying := true))
            && (!starts ==> w' == w)
  {
    hide GoTrim, Blank;
    var cfg := w.store.cfg;
    BlankIff(cfg.accountID);
    BlankIff(host);
    BlankIff(cfg.workersSubdomain);
    if cfg.custom.Some? {
      BlankIff(cfg.custom.value.zoneID);
      BlankIff(cfg.custom.value.zoneName);
      BlankIff(cfg.custom.value.subdomain);
    }
  }

  /** The host a deploy asks Cloudflare to bind; empty for none. */
  function WantedHost(cfg: Config, script: string): string {
    match cfg.custom case None => "" case Some(d) => HostForScript(d, script)
  }

  /** The record a deploy leaves: the secret uploaded, the workers.dev host when the account has a
      subdomain, and the bound host as Cloudflare names it, pending, when the binding succeeded. */
  function RecordOf(
    cfg: Config, k: nat, node: string, script: string, backend: string, secret: string, binding: Answer): Record
  {
    var r := Record(node, script,
                    if cfg.workersSubdomain == "" then "" else script + "." + cfg.workersSubdomain + ".workers.dev",
                    backend, k, "", "", NoHost, cfg.accountID, secret);
    var wanted := WantedHost(cfg, script);
    if wanted == "" || !binding.Bound? || binding.id == "" then r
    else
      r.(customHost := if binding.hostname == "" then wanted else binding.hostname, customDomainID := binding.id,
         status := Pending)
  }

  /** A deploy leaves a record exactly when the upload succeeds and, for an account with a
      workers.dev subdomain, enabling it does too. It replaces the node's record and no other, starts
      one probe exactly when a host was bound, and otherwise leaves everything as it was but for what
      has been uploaded. */
  lemma DeployWhole(
    w: World, node: string, script: string, backend: string, host: string, port: int,
    a: Answer, b: Answer, c: Answer, d: Answer, e: Answer, f: Answer)
    requires MayDeploy(w.store, host, port, true)
    ensures var w' := Whole(w, StartDeploy(node, script, backend, host, port, true), [a, b, c, d, e, f]);
            var s, cfg := w.store, w.store.cfg;
            var uploaded := a.Secret? && IsSecret(a.pathSecret);
            var done := uploaded && (cfg.workersSubdomain == "" || b == Granted);
            && w'.log.uploads == w.log.uploads + (if uploaded then {(cfg.accountID, script)} else {})
            && w'.log.deletes == w.log.deletes && w'.log.detaches == w.log.detaches
            && (!done ==> w'.store == s && w'.tasks == w.tasks + [Over] && w'.log.attaches == w.log.attaches)
            && (done ==>
                  var r := RecordOf(cfg, |w.tasks|, node, script, backend, a.pathSecret, d);
                  var after := s.deployments[node := r];
                  && w'.store
                     == s.(deployments := after,
                           disk := if e.Persisted? && e.saved then s.disk.(deployments := after) else s.disk)
                  && w'.tasks
                     == w.tasks + [Over]
                        + (if r.status == Pending then [Probing(node, r.customHost, 0, Sleeping)] else [])
                  && w'.log.attaches
                     == w.log.attaches
                        + (if r.status == Pending
                           then {Binding(cfg.accountID, r.customDomainID, r.customHost, script)} else {}))
  {
    hide GoTrim, Alone, Whole, HostForScript, IsSecret, IsSet, TaskStep, WantedHost;
    var s, i, cfg := w.store.(deploying := true), |w.tasks|, w.store.cfg;
    var t1 := Deploying(node, script, backend, cfg.accountID, cfg.workersSubdomain);
    WholeIs(w, StartDeploy(node, script, backend, host, port, true), s, t1, [a, b, c, d, e, f]);
    assert [a] + ([b] + ([c] + ([d] + ([e] + [f])))) == [a, b, c, d, e, f];
    assert w.store == s.(deploying := false);
    assert w.tasks + [Over] + [] == w.tasks + [Over];
    AloneStep(s, w.log, i, t1, a, [b] + ([c] + ([d] + ([e] + [f]))));
    UploadSteps(s, w.log, i, t1, a, b);
    var c1 := TaskStep(s, w.log, i, t1, a);
    if a.Secret? && IsSecret(a.pathSecret) {
      AloneStep(s, c1.log, i, c1.task, b, [c] + ([d] + ([e] + [f])));
      var c2 := TaskStep(s, c1.log, i, c1.task, b);
      if cfg.workersSubdomain == "" || b == Granted {
        AfterUpload(s, c2.log, i, c2.task.record, c, d, e, f);
      } else {
        DeployEnds(s, c2.log, i, c, [d] + ([e] + [f]));
      }
    } else {
      DeployEnds(s, c1.log, i, b, [c] + ([d] + ([e] + [f])));
    }
  }

  /** The upload, and the enabling of the workers.dev subdomain. */
  lemma UploadSteps(s: Store, log: Log, i: nat, task: Task, a: Answer, b: Answer)
    requires task.Deploying?
    ensures var uploaded := a.Secret? && IsSecret(a.pathSecret);
            var here := {(task.accountID, task.scriptName)};
            var up := log.(uploads := log.uploads + here, live := log.live + here);
            && (!uploaded ==> TaskStep(s, log, i, task, a) == Change(s, log, DeployEnding, []))
            && (uploaded ==>
                  var r := Record(task.nodeID, task.scriptName, "", task.backend, i, "", "", NoHost, task.accountID,
                                  a.pathSecret);
                  var enabling, sub := DeployEnabling(r, task.workersSubdomain), task.workersSubdomain;
                  && TaskStep(s, log, i, task, a) == Change(s, up, enabling, [])
                  && TaskStep(s, up, i, enabling, b)
                     == Change(s, up,
                               if sub == "" then DeployReading(r)
                               else if b == Granted
                               then DeployReading(r.(workerHost := task.scriptName + "." + sub + ".workers.dev"))
                               else DeployEnding, []))
  {
    hide IsSecret;
  }

  /** The end of a deploy that failed. */
  lemma DeployEnds(s: Store, log: Log, i: nat, a: Answer, rest: seq<Answer>)
    ensures Alone(s, log, i, DeployEnding, [a] + rest) == Change(s.(deploying := false), log, Over, [])
  {
    AloneStep(s, log, i, DeployEnding, a, rest);
    AloneOver(s.(deploying := false), log, i, rest);
  }

  /** From the reading of the custom domain on. */
  lemma AfterUpload(s: Store, log: Log, i: nat, r: Record, c: Answer, d: Answer, e: Answer, f: Answer)
    requires r.status == NoHost
    ensures var done := Alone(s, log, i, DeployReading(r), [c] + ([d] + ([e] + [f])));
            var wanted := WantedHost(s.cfg, r.scriptName);
            var bound := wanted != "" && d.Bound? && d.id != "";
            var host := if d.Bound? && d.hostname != "" then d.hostname else wanted;
            var r' := if bound then r.(customHost := host, customDomainID := d.id, status := Pending) else r;
            done == Change(DeployCommit(s, r.nodeID, r', Saved(e)).(deploying := false),
                           if !bound then log
                           else log.(attaches := log.attaches + {Binding(r.accountID, d.id, host, r.scriptName)}),
                           Over, if bound then [Probing(r.nodeID, host, 0, Sleeping)] else [])
  {
    hide GoTrim, Alone, HostForScript, IsSecret, IsSet, Saved;
    AloneStep(s, log, i, DeployReading(r), c, [d] + ([e] + [f]));
    var t2 := DeployBinding(r, s.cfg.custom);
    AloneStep(s, log, i, t2, d, [e] + [f]);
    var c2 := TaskStep(s, log, i, t2, d);
    AloneStep(s, c2.log, i, c2.task, e, [f]);
    var s3 := DeployCommit(s, r.nodeID, c2.task.record, Saved(e));
    assert [f] + [] == [f];
    DeployEnds(s3, c2.log, i, f, []);
  }

  // ---------------------------------------------------------------- the custom domain

  /** A set begins exactly with a zone id, a legal subdomain and a verified account. It stores the
      zone of that id, under the name Cloudflare lists it by, exactly when the scope check is granted
      and such a zone is listed. */
  lemma SetWhole(w: World, zone: string, sub: string, a: Answer, b: Answer, c: Answer, d: Answer)
    ensures var w', s := Whole(w, StartSet(zone, sub), [a, b, c, d]), w.store;
            var id, subdomain := GoTrim(zone), GoTrim(sub);
            var starts := id != "" && ValidSubdomain(subdomain) && GoTrim(s.cfg.accountID) != "";
            && (!starts ==> Step(w, StartSet(zone, sub)) == w)
            && (starts ==>
                  && w'.tasks == w.tasks + [Over]
                  && (a == Granted && c.Zones? && (exists z :: z in c.zones && z.id == id) ==>
                        exists z :: && z in c.zones && z.id == id
                                    && var cfg := s.cfg.(custom := Some(CustomDomain(id, z.name, subdomain)));
                                       w'.store
                                       == s.(cfg := cfg,
                                             disk := if d.Persisted? && d.saved then s.disk.(cfg := cfg) else s.disk))
                  && (!(a == Granted && c.Zones? && (exists z :: z in c.zones && z.id == id)) ==> w'.store == s))
  {
    hide GoTrim, Alone, Whole, ValidSubdomain, FindZone, TaskStep;
    var s, id, subdomain := w.store, GoTrim(zone), GoTrim(sub);
    if id != "" && ValidSubdomain(subdomain) && GoTrim(s.cfg.accountID) != "" {
      WholeIs(w, StartSet(zone, sub), s, SetProbing(id, subdomain), [a, b, c, d]);
      assert w.tasks + [Over] + [] == w.tasks + [Over];
      SetAlone(s, w.log, |w.tasks|, id, subdomain, a, b, c, d);
      if c.Zones? { FoundIsListed(c.zones, id); }
    }
  }

  lemma SetAlone(s: Store, log: Log, i: nat, id: string, subdomain: string, a: Answer, b: Answer, c: Answer, d: Answer)
    ensures var done := Alone(s, log, i, SetProbing(id, subdomain), [a, b, c, d]);
            && done.task == Over && done.spawned == []
            && done.store
               == if a == Granted && c.Zones? && FindZone(c.zones, id).Some?
                  then SetCommit(s, FindZone(c.zones, id).value, subdomain, Saved(d)) else s
  {
    hide GoTrim, Alone, FindZone, SetCommit;
    assert [a] + ([b] + ([c] + [d])) == [a, b, c, d] && [d] + [] == [d];
    AloneStep(s, log, i, SetProbing(id, subdomain), a, [b] + ([c] + [d]));
    if a == Granted {
      AloneStep(s, log, i, SetListing(id, subdomain), b, [c] + [d]);
      var t3 := SetMatching(id, subdomain, GoTrim(s.cfg.accountID));
      AloneStep(s, log, i, t3, c, [d]);
      var c3 := TaskStep(s, log, i, t3, c);
      if c3.task.SetReady? {
        AloneStep(s, c3.log, i, c3.task, d, []);
        AloneNone(SetCommit(s, c3.task.zone, subdomain, Saved(d)), c3.log, i, Over);
      } else {
        AloneOver(s, c3.log, i, [d]);
      }
    } else {
      AloneOver(s, log, i, [b] + ([c] + [d]));
    }
  }

  /** Dropping the domain drops it from the configuration, on disk when the save succeeds, and
      touches nothing else. */
  lemma DropWhole(w: World, saved: bool)
    ensures var s, cfg := w.store, w.store.cfg.(custom := None);
            Step(w, DropDomain(saved))
            == w.(store := s.(cfg := cfg, disk := if saved then s.disk.(cfg := cfg) else s.disk))
  {
  }

  // ---------------------------------------------------------------- clearing everything

  /** Where the script of each of these nodes is. */
  function Scripts(s: Store, ids: seq<string>): set<(string, string)>
    requires forall id | id in ids :: id in s.deployments
  {
    if ids == [] then {}
    else {(DeleteAccount(s, ids[0]), s.deployments[ids[0]].scriptName)} + Scripts(s, ids[1..])
  }

  /** The answers to one delete of a Clear: it begins, detaches, deletes and, when that was granted,
      drops the record without saving. */
  function DeleteAnswers(granted: bool): seq<Answer> {
    if granted then [Refused] + ([Refused] + ([Granted] + [Refused])) else [Refused] + ([Refused] + [Refused])
  }

  function ClearAnswers(ids: seq<string>, granted: string -> bool, last: Answer): seq<Answer> {
    if ids == [] then [last] else DeleteAnswers(granted(ids[0])) + ClearAnswers(ids[1..], granted, last)
  }

  lemma {:induction false} AloneConcat(s: Store, log: Log, i: nat, task: Task, a: seq<Answer>, b: seq<Answer>)
    ensures var c := Alone(s, log, i, task, a);
            var d := Alone(c.store, c.log, i, c.task, b);
            Alone(s, log, i, task, a + b) == d.(spawned := c.spawned + d.spawned)
    decreases |a|
  {
    hide TaskStep;
    if a == [] {
      assert a + b == b;
      var d := Alone(s, log, i, task, b);
      assert [] + d.spawned == d.spawned;
    } else {
      var c := TaskStep(s, log, i, task, a[0]);
      AloneConcat(c.store, c.log, i, c.task, a[1..], b);
      assert (a + b)[1..] == a[1..] + b;
      var x, y := Alone(c.store, c.log, i, c.task, a[1..]), Alone(s, log, i, task, a + b);
      var d := Alone(x.store, x.log, i, x.task, b);
      assert c.spawned + (x.spawned + d.spawned) == c.spawned + x.spawned + d.spawned;
    }
  }

  lemma ClearOne(s: Store, log: Log, i: nat, id: string, rest: seq<string>, granted: bool)
    requires MayDelete(s, id)
    ensures var c := Alone(s, log, i, Clearing([id] + rest), DeleteAnswers(granted));
            && c.task == Clearing(rest) && c.spawned == []
            && c.store == (if granted then DeleteCommit(s, id, false) else s)
            && c.log.deletes == log.deletes + {(DeleteAccount(s, id), s.deployments[id].scriptName)}
  {
    hide GoTrim, Alone;
    assert ([id] + rest)[1..] == rest && [Refused] + [] == [Refused];
    var t1 := BeginDelete(s, id, Some(rest));
    var more: seq<Answer> := if granted then [Refused] else [];
    var last := if granted then Granted else Refused;
    assert DeleteAnswers(granted) == [Refused] + ([Refused] + ([last] + more));
    AloneStep(s, log, i, Clearing([id] + rest), Refused, [Refused] + ([last] + more));
    AloneStep(s, log, i, t1, Refused, [last] + more);
    var c1 := TaskStep(s, log, i, t1, Refused);
    AloneStep(s, c1.log, i, c1.task, last, more);
    var c2 := TaskStep(s, c1.log, i, c1.task, last);
    if granted {
      AloneStep(s, c2.log, i, c2.task, Refused, []);
      AloneNone(DeleteCommit(s, id, false), c2.log, i, Clearing(rest));
    } else {
      AloneNone(s, c2.log, i, Clearing(rest));
    }
  }

  predicate Distinct(ids: seq<string>) {
    forall j, k | 0 <= j < k < |ids| :: ids[j] != ids[k]
  }

  lemma {:induction false} SameScripts(s: Store, s': Store, ids: seq<string>)
    requires forall id | id in ids :: id in s.deployments && id in s'.deployments
    requires forall id | id in ids :: s'.deployments[id] == s.deployments[id]
    requires s'.cfg == s.cfg
    ensures Scripts(s', ids) == Scripts(s, ids)
  {
    if ids != [] {
      SameScripts(s, s', ids[1..]);
    }
  }

  lemma ClearEnds(s: Store, log: Log, i: nat, last: Answer)
    ensures TaskStep(s, log, i, Clearing([]), last)
            == Change(ClearCommit(s, Saved(last), last.Persisted? && last.alsoSaved), log, Over, [])
  {
  }

  lemma {:induction false} ClearAlone(
    s: Store, log: Log, i: nat, ids: seq<string>, granted: string -> bool, last: Answer)
    requires Verified(s.cfg) && Distinct(ids) && forall id | id in ids :: id in s.deployments
    ensures var c := Alone(s, log, i, Clearing(ids), ClearAnswers(ids, granted, last));
            && c.task == Over && c.spawned == [] && c.log.deletes == log.deletes + Scripts(s, ids)
            && c.store == ClearCommit(s, Saved(last), last.Persisted? && last.alsoSaved)
    decreases |ids|
  {
    hide Alone, Verified, DeleteAccount, Saved, TaskStep, DeleteAnswers;
    if ids == [] {
      ClearEnds(s, log, i, last);
      AloneStep(s, log, i, Clearing([]), last, []);
      AloneNone(ClearCommit(s, Saved(last), last.Persisted? && last.alsoSaved), log, i, Over);
      assert [last] + [] == [last];
    } else {
      var id, rest := ids[0], ids[1..];
      var ok := granted(id);
      assert ids == [id] + rest && id !in rest;
      ClearOne(s, log, i, id, rest, ok);
      var c := Alone(s, log, i, Clearing(ids), DeleteAnswers(ok));
      AloneConcat(s, log, i, Clearing(ids), DeleteAnswers(ok), ClearAnswers(rest, granted, last));
      ClearAlone(c.store, c.log, i, rest, granted, last);
      SameScripts(s, c.store, rest);
      assert ClearAnswers(ids, granted, last) == DeleteAnswers(ok) + ClearAnswers(rest, granted, last);
    }
  }

  /** A Clear takes the ids of all records, in some order. */
  lemma ClearStartsIff(w: World, ids: seq<string>)
    ensures Step(w, StartClear(ids))
            == if forall id :: id in ids <==> id in w.store.deployments
               then w.(tasks := w.tasks + [Clearing(ids)]) else w
  {
  }

  /** A Clear sends one delete for the script of every record, to the account of that record, and
      whatever the answers are it ends with an empty configuration and no records. The records are
      saved only after the configuration was. */
  lemma ClearWhole(w: World, ids: seq<string>, granted: string -> bool, last: Answer)
    requires GoTrim(w.store.cfg.accountID) != "" && Distinct(ids)
    requires forall id :: id in ids <==> id in w.store.deployments
    ensures var w', s := Whole(w, StartClear(ids), ClearAnswers(ids, granted, last)), w.store;
            var saved := last.Persisted? && last.saved;
            && w'.tasks == w.tasks + [Over]
            && w'.log.deletes == w.log.deletes + Scripts(s, ids)
            && w'.store.cfg == Config("", "", "", "", None) && w'.store.deployments == map[]
            && w'.store.disk
               == Disk(if saved then Config("", "", "", "", None) else s.disk.cfg,
                       if saved && last.alsoSaved then map[] else s.disk.deployments)
  {
    hide GoTrim, Alone, Whole, ClearAnswers, Scripts;
    WholeIs(w, StartClear(ids), w.store, Clearing(ids), ClearAnswers(ids, granted, last));
    ClearAlone(w.store, w.log, |w.tasks|, ids, granted, last);
    assert w.tasks + [Over] + [] == w.tasks + [Over];
  }

  // ---------------------------------------------------------------- restarts

  /** The probe a stored record calls for. */
  predicate IsResumedFor(d: map<string, Record>, n: string, t: Task)
    requires n in d
  {
    && d[n].customHost != ""
    && ((d[n].status == Pending && t == Probing(n, d[n].customHost, 0, Sleeping))
        || (d[n].status == Failed && t == Resuming(n, d[n].customHost)))
  }

  lemma {:induction false} ResumedIs(d: map<string, Record>, order: seq<string>, t: Task)
    ensures t in Resumed(d, order) <==> exists n :: n in order && n in d && IsResumedFor(d, n, t)
  {
    if order != [] {
      ResumedIs(d, order[1..], t);
      assert forall n | n in order :: n == order[0] || n in order[1..];
      assert order[0] in order;
    }
  }

  /** A restart loads what is on disk, ends everything under way, and starts a probe exactly for each
      stored record that has a host and is pending or failed. */
  lemma RestartWhole(w: World, order: seq<string>, n: string)
    requires forall id :: id in order <==> id in w.store.disk.deployments
    ensures var w', d, k := Step(w, Restart(order)), w.store.disk.deployments, |w.tasks|;
            && w'.store == Store(w.store.disk.cfg, d, false, false, w.store.disk) && w'.log == w.log
            && |w'.tasks| >= k && (forall i | 0 <= i < k :: w'.tasks[i] == Over)
            && (forall t | t in w'.tasks[k..] ::
                  IsProbe(t) && t.nodeID in d && t.host == d[t.nodeID].customHost && (t.Probing? ==> t.tries == 0))
            && ((exists t :: t in w'.tasks[k..] && IsProbe(t) && t.nodeID == n)
                <==> n in d && d[n].customHost != "" && (d[n].status == Pending || d[n].status == Failed))
  {
    hide Resumed;
    var d, more := w.store.disk.deployments, Resumed(w.store.disk.deployments, order);
    var w' := Step(w, Restart(order));
    assert w'.tasks[|w.tasks|..] == more;
    forall t ensures t in more <==> exists id :: id in d && IsResumedFor(d, id, t) {
      ResumedIs(d, order, t);
    }
    if n in d && d[n].customHost != "" && (d[n].status == Pending || d[n].status == Failed) {
      var t := if d[n].status == Pending then Probing(n, d[n].customHost, 0, Sleeping)
               else Resuming(n, d[n].customHost);
      assert IsResumedFor(d, n, t);
    }
  }

  /** A record that had failed is pending again before its probe begins, if it still has the host. */
  lemma ResumingMarksPending(w: World, i: nat, a: Answer)
    requires i < |w.tasks| && w.tasks[i].Resuming?
    ensures var t, w' := w.tasks[i], Step(w, Continue(i, a));
            && w'.tasks == w.tasks[i := Probing(t.nodeID, t.host, 0, Sleeping)]
            && w'.store.deployments
               == if t.nodeID in w.store.deployments && w.store.deployments[t.nodeID].customHost == t.host
                  then w.store.deployments[t.nodeID := w.store.deployments[t.nodeID].(status := Pending)]
                  else w.store.deployments
  {
    var t := w.tasks[i];
    if Expects(w.store, t.nodeID, t.host) {
      var r := w.store.deployments[t.nodeID];
      assert r.status == Pending ==> w.store.deployments[t.nodeID := r.(status := Pending)] == w.store.deployments;
    }
  }
}
