/** Runs from the empty store that show what overlapping operations and late probes can do. */
module CdnExamples {
  import opened CdnAccounts
  import opened CdnNames
  import opened CdnStore
  import opened CdnSystem
  import opened CdnWrites
  import opened Text

  // ---------------------------------------------------------------- composing runs

  /** A run goes on with a step of the task that stands between these others. */
  lemma Then(w: World, done: seq<Action>, s: Store, log: Log, before: seq<Task>, task: Task, after: seq<Task>,
             a: Answer, c: Change)
    requires Run(w, done) == World(s, log, before + [task] + after) && TaskStep(s, log, |before|, task, a) == c
    ensures Run(w, done + [Continue(|before|, a)])
            == World(c.store, c.log, before + [c.task] + (after + c.spawned))
  {
    hide TaskStep, Run;
    RunConcat(w, done, [Continue(|before|, a)]);
    RunOne(World(s, log, before + [task] + after), Continue(|before|, a));
    assert (before + [task] + after)[|before| := c.task] + c.spawned == before + [c.task] + (after + c.spawned);
  }

  /** The same when nothing stands after the task and nothing is spawned. */
  lemma ThenLast(w: World, done: seq<Action>, s: Store, log: Log, before: seq<Task>, task: Task, a: Answer,
                 s': Store, log': Log, task': Task)
    requires Run(w, done) == World(s, log, before + [task])
    requires TaskStep(s, log, |before|, task, a) == Change(s', log', task', [])
    ensures Run(w, done + [Continue(|before|, a)]) == World(s', log', before + [task'])
  {
    hide TaskStep, Run, Step;
    NothingAfter(before, task);
    NothingAfter(before, task');
    Then(w, done, s, log, before, task, [], a, Change(s', log', task', []));
  }

  lemma NothingAfter(before: seq<Task>, task: Task)
    ensures before + [task] + [] == before + [task] && before + [task] + ([] + []) == before + [task]
  {
  }

  lemma Begin(w: World, first: Action, s: Store, task: Task)
    requires Step(w, first) == World(s, w.log, w.tasks + [task])
    ensures Run(w, [first]) == World(s, w.log, w.tasks + [task])
  {
    RunOne(w, first);
    hide *;
  }

  // ---------------------------------------------------------------- the operations, undisturbed

  const TOKEN := "t"
  const ZONE := Zone("z", "z.io")
  const SUBDOMAIN := "r"
  const SCRIPT := "abcdef"
  const SECRET := "0123456789abcdef0123456789abcdef"
  const HOST := "r-abcdef.z.io"

  lemma Literals()
    ensures GoTrim(TOKEN) == TOKEN && GoTrim(ZONE.id) == ZONE.id && GoTrim(SUBDOMAIN) == SUBDOMAIN
    ensures GoTrim(ZONE.name) == ZONE.name && GoTrim("b") == "b" && GoTrim("a") == "a" && GoTrim("n") == "n"
    ensures ValidSubdomain(SUBDOMAIN) && IsSecret(SECRET) && GoTrim("") == ""
    ensures ShortSuffix(SCRIPT) == SCRIPT
    ensures SECRET != "" && TOKEN != "" && HOST != ""
  {
    assert SCRIPT[0..] == SCRIPT;
    TightIsTrimmed(TOKEN, GoSpace);
    TightIsTrimmed(ZONE.id, GoSpace);
    TightIsTrimmed(ZONE.name, GoSpace);
    TightIsTrimmed(SUBDOMAIN, GoSpace);
    TightIsTrimmed("b", GoSpace);
    TightIsTrimmed("a", GoSpace);
    TightIsTrimmed("n", GoSpace);
  }

  function Verify(k: nat, account: string): seq<Action> {
    [StartVerify(TOKEN)] + [Continue(k, Account(account, "", "", true))] + [Continue(k, Granted)]
  }

  lemma VerifyRuns(w: World, account: string)
    requires !w.store.verifying && account != ""
    ensures Run(w, Verify(|w.tasks|, account))
            == World(VerifyCommit(w.store, TOKEN, account, "", "", true), w.log, w.tasks + [Over])
  {
    hide *;
    var k, s, prior := |w.tasks|, w.store, Verified(w.store.cfg);
    var s1 := s.(verifying := true);
    var s2 := VerifyCommit(s1, TOKEN, account, "", "", true);
    VerifySteps(w, account, s1, s2);
    Begin(w, StartVerify(TOKEN), s1, Verifying(TOKEN, prior));
    ThenLast(w, [StartVerify(TOKEN)], s1, w.log, w.tasks, Verifying(TOKEN, prior), Account(account, "", "", true),
             s2, w.log, VerifyEnding);
    ThenLast(w, [StartVerify(TOKEN)] + [Continue(k, Account(account, "", "", true))], s2, w.log, w.tasks, VerifyEnding,
             Granted, VerifyCommit(s, TOKEN, account, "", "", true), w.log, Over);
    VerifyUnfolds(k, account);
  }

  lemma VerifyUnfolds(k: nat, account: string)
    ensures Verify(k, account)
            == [StartVerify(TOKEN)] + [Continue(k, Account(account, "", "", true))] + [Continue(k, Granted)]
  {
  }

  lemma VerifySteps(w: World, account: string, s1: Store, s2: Store)
    requires !w.store.verifying && account != "" && s1 == w.store.(verifying := true)
    requires s2 == VerifyCommit(s1, TOKEN, account, "", "", true)
    ensures var k, prior := |w.tasks|, Verified(w.store.cfg);
            && Step(w, StartVerify(TOKEN)) == World(s1, w.log, w.tasks + [Verifying(TOKEN, prior)])
            && TaskStep(s1, w.log, k, Verifying(TOKEN, prior), Account(account, "", "", true))
               == Change(s2, w.log, VerifyEnding, [])
            && TaskStep(s2, w.log, k, VerifyEnding, Granted)
               == Change(VerifyCommit(w.store, TOKEN, account, "", "", true), w.log, Over, [])
  {
    Literals();
    hide GoTrim;
  }

  // SetCustomDomain, up to its commit

  function Choose(k: nat): seq<Action> {
    [StartSet(ZONE.id, SUBDOMAIN)] + [Continue(k, Granted)] + [Continue(k, Granted)] + [Continue(k, Zones([ZONE]))]
  }

  function Listed(log: Log, account: string): Log {
    log.(listed := log.listed + {(account, ZONE)})
  }

  lemma ChooseRuns(w: World, account: string)
    requires Verified(w.store.cfg) && GoTrim(w.store.cfg.accountID) == account
    ensures Run(w, Choose(|w.tasks|))
            == World(w.store, Listed(w.log, account), w.tasks + [SetReady(ZONE, SUBDOMAIN, account)])
  {
    hide *;
    var k, s, log := |w.tasks|, w.store, w.log;
    var t1, t2 := SetProbing(ZONE.id, SUBDOMAIN), SetListing(ZONE.id, SUBDOMAIN);
    var t3, t4 := SetMatching(ZONE.id, SUBDOMAIN, account), SetReady(ZONE, SUBDOMAIN, account);
    ChooseSteps(w, account);
    var d1 := [StartSet(ZONE.id, SUBDOMAIN)];
    Begin(w, StartSet(ZONE.id, SUBDOMAIN), s, t1);
    ThenLast(w, d1, s, log, w.tasks, t1, Granted, s, log, t2);
    ThenLast(w, d1 + [Continue(k, Granted)], s, log, w.tasks, t2, Granted, s, log, t3);
    ThenLast(w, d1 + [Continue(k, Granted)] + [Continue(k, Granted)], s, log, w.tasks, t3, Zones([ZONE]),
             s, Listed(log, account), t4);
    ChooseUnfolds(k);
  }

  lemma ChooseUnfolds(k: nat)
    ensures Choose(k)
            == [StartSet(ZONE.id, SUBDOMAIN)] + [Continue(k, Granted)] + [Continue(k, Granted)]
               + [Continue(k, Zones([ZONE]))]
  {
  }

  lemma ChooseSteps(w: World, account: string)
    requires Verified(w.store.cfg) && GoTrim(w.store.cfg.accountID) == account
    ensures var k, s, log := |w.tasks|, w.store, w.log;
            && Step(w, StartSet(ZONE.id, SUBDOMAIN)) == World(s, w.log, w.tasks + [SetProbing(ZONE.id, SUBDOMAIN)])
            && TaskStep(s, log, k, SetProbing(ZONE.id, SUBDOMAIN), Granted)
               == Change(s, log, SetListing(ZONE.id, SUBDOMAIN), [])
            && TaskStep(s, log, k, SetListing(ZONE.id, SUBDOMAIN), Granted)
               == Change(s, log, SetMatching(ZONE.id, SUBDOMAIN, account), [])
            && TaskStep(s, log, k, SetMatching(ZONE.id, SUBDOMAIN, account), Zones([ZONE]))
               == Change(s, Listed(log, account), SetReady(ZONE, SUBDOMAIN, account), [])
  {
    Literals();
    hide GoTrim, ValidSubdomain;
    assert (set z | z in [ZONE] :: (account, z)) == {(account, ZONE)};
  }

  lemma CommitChoice(w: World, done: seq<Action>, s: Store, log: Log, before: seq<Task>, after: seq<Task>)
    requires Run(w, done) == World(s, log, before + [SetReady(ZONE, SUBDOMAIN, "a")] + after)
    ensures Run(w, done + [Continue(|before|, Persisted(true, true))])
            == World(SetCommit(s, ZONE, SUBDOMAIN, true), log, before + [Over] + (after + []))
  {
    hide *;
    var c := Change(SetCommit(s, ZONE, SUBDOMAIN, true), log, Over, []);
    CommitChoiceStep(s, log, |before|);
    Then(w, done, s, log, before, SetReady(ZONE, SUBDOMAIN, "a"), after, Persisted(true, true), c);
  }

  lemma CommitChoiceStep(s: Store, log: Log, k: nat)
    ensures TaskStep(s, log, k, SetReady(ZONE, SUBDOMAIN, "a"), Persisted(true, true))
            == Change(SetCommit(s, ZONE, SUBDOMAIN, true), log, Over, [])
  {
  }

  // ---------------------------------------------------------------- a set overtaken by a verification

  /** The step of ZoneBreaksIff is reached: a set lists its zone under one account,
      a verification commits another, and the set commits. The custom domain then names a zone the
      configured account never listed. */
  lemma SetOvertakenByVerify() returns (actions: seq<Action>)
    ensures var w := Run(Init(), actions);
            && w.store.cfg.accountID == "b" && w.store.cfg.custom == Some(CustomDomain(ZONE.id, ZONE.name, SUBDOMAIN))
            && w.log.listed == {("a", ZONE)} && !ZoneOk(w.log, w.store.cfg)
    ensures !RunsUndisturbed(Init(), actions)
  {
    var w0 := Init();
    actions := Verify(0, "a") + Choose(1) + Verify(2, "b") + [Continue(1, Persisted(true, true))];
    Literals();
    hide *;
    InitFacts();
    VerifyRuns(w0, "a");
    var s1 := VerifyCommit(w0.store, TOKEN, "a", "", "", true);
    var w1 := World(s1, w0.log, w0.tasks + [Over]);
    CommitFacts(w0.store, "a");
    RunConcat(w0, Verify(0, "a"), Choose(1));
    assert |w1.tasks| == 1;
    ChooseRuns(w1, "a");
    var w2 := World(s1, Listed(w0.log, "a"), w1.tasks + [SetReady(ZONE, SUBDOMAIN, "a")]);
    RunConcat(w0, Verify(0, "a") + Choose(1), Verify(2, "b"));
    assert |w2.tasks| == 2;
    VerifyRuns(w2, "b");
    var s3 := VerifyCommit(s1, TOKEN, "b", "", "", true);
    CommitFacts(s1, "b");
    CommitChoice(w0, Verify(0, "a") + Choose(1) + Verify(2, "b"), s3, w2.log, w1.tasks, [Over]);
    WrongZone(s3, w2.log);
    if RunsUndisturbed(w0, actions) {
      CustomDomainUnlessReplaced(actions);
      ZoneOkUnfolds(Run(w0, actions).log, Run(w0, actions).store.cfg);
    }
  }

  lemma InitFacts()
    ensures Init() == World(Load(Disk(EMPTY, map[])), Log({}, {}, {}, {}, {}, {}, {}, {}), [])
    ensures !Init().store.verifying && !Init().store.deploying
  {
  }

  lemma CommitFacts(s: Store, account: string)
    requires account == "a" || account == "b"
    ensures var s' := VerifyCommit(s, TOKEN, account, "", "", true);
            && s'.cfg.accountID == account && Verified(s'.cfg) && GoTrim(s'.cfg.accountID) == account
            && s'.cfg.workersSubdomain == "" && s'.cfg.token == TOKEN
            && s'.deployments == s.deployments && s'.verifying == s.verifying && s'.deploying == s.deploying
  {
    Literals();
    hide GoTrim;
  }

  lemma WrongZone(s: Store, log: Log)
    requires s.cfg.accountID == "b" && log.listed == {("a", ZONE)}
    ensures var c := SetCommit(s, ZONE, SUBDOMAIN, true).cfg;
            && c.accountID == "b" && c.custom == Some(CustomDomain(ZONE.id, ZONE.name, SUBDOMAIN)) && !ZoneOk(log, c)
  {
    Literals();
    hide GoTrim;
  }

  lemma ZoneOkUnfolds(log: Log, c: Config)
    ensures ZoneOk(log, c)
            <==> (c.custom.Some? ==>
                    && Verified(c)
                    && (GoTrim(c.accountID), Zone(c.custom.value.zoneID, c.custom.value.zoneName)) in log.listed)
  {
    hide Verified, GoTrim;
  }

  // ---------------------------------------------------------------- deploys, deletes and probes

  const NODE := "n"
  const DOMAIN := CustomDomain(ZONE.id, ZONE.name, SUBDOMAIN)

  function DeployAction(): Action {
    StartDeploy(NODE, SCRIPT, "b:1", "b", 1, true)
  }

  /** Upload to binding; the deployment is then ready to commit and its probe asleep. */
  function Deploy(k: nat): seq<Action> {
    [DeployAction()] + [Continue(k, Secret(SECRET))] + [Continue(k, Granted)] + [Continue(k, Granted)]
    + [Continue(k, Bound("d", ""))]
  }

  function Unbound(k: nat, account: string): Record {
    Record(NODE, SCRIPT, "", "b:1", k, "", "", NoHost, account, SECRET)
  }

  function Deployed(k: nat, account: string): Record {
    Unbound(k, account).(customHost := HOST, customDomainID := "d", status := Pending)
  }

  function UploadLog(log: Log, account: string): Log {
    log.(uploads := log.uploads + {(account, SCRIPT)}, live := log.live + {(account, SCRIPT)})
  }

  function DeployLog(log: Log, account: string): Log {
    var up := UploadLog(log, account);
    up.(attaches := up.attaches + {Binding(account, "d", HOST, SCRIPT)})
  }

  const ASLEEP := Probing(NODE, HOST, 0, Sleeping)

  /** A verified account with the domain set and no deploy under way. */
  predicate Deployable(s: Store, account: string) {
    !s.deploying && Verified(s.cfg) && s.cfg.accountID == account && s.cfg.workersSubdomain == ""
    && s.cfg.custom == Some(DOMAIN)
  }

  lemma HostIs()
    ensures HostForScript(DOMAIN, SCRIPT) == HOST && IsSet(DOMAIN)
  {
    Literals();
    hide GoTrim;
    assert SUBDOMAIN + "-" + SCRIPT + "." + ZONE.name == HOST;
  }

  lemma DeployBegins(w: World, account: string)
    requires Deployable(w.store, account)
    ensures Step(w, DeployAction())
            == World(w.store.(deploying := true), w.log, w.tasks + [Deploying(NODE, SCRIPT, "b:1", account, "")])
  {
    Literals();
    HostIs();
    hide GoTrim, HostForScript;
  }

  lemma DeploySteps(s: Store, log: Log, k: nat, account: string)
    requires s.cfg.custom == Some(DOMAIN)
    ensures TaskStep(s, log, k, Deploying(NODE, SCRIPT, "b:1", account, ""), Secret(SECRET))
            == Change(s, UploadLog(log, account), DeployEnabling(Unbound(k, account), ""), [])
    ensures TaskStep(s, log, k, DeployEnabling(Unbound(k, account), ""), Granted)
            == Change(s, log, DeployReading(Unbound(k, account)), [])
    ensures TaskStep(s, log, k, DeployReading(Unbound(k, account)), Granted)
            == Change(s, log, DeployBinding(Unbound(k, account), Some(DOMAIN)), [])
  {
    Literals();
    hide GoTrim, HostForScript, IsSecret;
  }

  lemma DeployBinds(s: Store, log: Log, k: nat, account: string)
    ensures TaskStep(s, UploadLog(log, account), k, DeployBinding(Unbound(k, account), Some(DOMAIN)), Bound("d", ""))
            == Change(s, DeployLog(log, account), DeployReady(Deployed(k, account)), [ASLEEP])
  {
    HostIs();
    hide GoTrim, HostForScript;
  }

  lemma DeployRuns(w: World, account: string)
    requires Deployable(w.store, account)
    ensures var k := |w.tasks|;
            Run(w, Deploy(k))
            == World(w.store.(deploying := true), DeployLog(w.log, account),
                     w.tasks + [DeployReady(Deployed(k, account))] + [ASLEEP])
  {
    DeployBegins(w, account);
    DeployableCustom(w.store, account);
    hide *;
    var k, s, up := |w.tasks|, w.store.(deploying := true), UploadLog(w.log, account);
    var t1, t2 := Deploying(NODE, SCRIPT, "b:1", account, ""), DeployEnabling(Unbound(k, account), "");
    var t3, t4 := DeployReading(Unbound(k, account)), DeployBinding(Unbound(k, account), Some(DOMAIN));
    var d1 := [DeployAction()];
    var d2 := d1 + [Continue(k, Secret(SECRET))];
    var d3 := d2 + [Continue(k, Granted)];
    var d4 := d3 + [Continue(k, Granted)];
    DeploySteps(s, w.log, k, account);
    DeploySteps(s, up, k, account);
    DeployBinds(s, w.log, k, account);
    Begin(w, DeployAction(), s, t1);
    ThenLast(w, d1, s, w.log, w.tasks, t1, Secret(SECRET), s, up, t2);
    ThenLast(w, d2, s, up, w.tasks, t2, Granted, s, up, t3);
    ThenLast(w, d3, s, up, w.tasks, t3, Granted, s, up, t4);
    NothingAfter(w.tasks, t4);
    Then(w, d4, s, up, w.tasks, t4, [], Bound("d", ""),
         Change(s, DeployLog(w.log, account), DeployReady(Deployed(k, account)), [ASLEEP]));
    assert [] + [ASLEEP] == [ASLEEP];
    DeployUnfolds(k);
  }

  lemma DeployableCustom(s: Store, account: string)
    requires Deployable(s, account)
    ensures s.(deploying := true).cfg.custom == Some(DOMAIN)
  {
  }

  lemma DeployUnfolds(k: nat)
    ensures Deploy(k)
            == [DeployAction()] + [Continue(k, Secret(SECRET))] + [Continue(k, Granted)] + [Continue(k, Granted)]
               + [Continue(k, Bound("d", ""))]
  {
  }

  /** The two locked sections that end a deployment. */
  function CommitDeploy(k: nat): seq<Action> {
    [Continue(k, Persisted(true, true))] + [Continue(k, Granted)]
  }

  lemma CommitDeployRuns(w: World, done: seq<Action>, s: Store, log: Log, before: seq<Task>, r: Record,
                         after: seq<Task>)
    requires Run(w, done) == World(s, log, before + [DeployReady(r)] + after)
    ensures Run(w, done + CommitDeploy(|before|))
            == World(DeployCommit(s, r.nodeID, r, true).(deploying := false), log, before + [Over] + after)
  {
    hide *;
    var k := |before|;
    CommitDeploySteps(s, log, k, r);
    var s1 := DeployCommit(s, r.nodeID, r, true);
    Then(w, done, s, log, before, DeployReady(r), after, Persisted(true, true), Change(s1, log, DeployEnding, []));
    assert after + [] == after;
    var d1 := done + [Continue(k, Persisted(true, true))];
    Then(w, d1, s1, log, before, DeployEnding, after, Granted, Change(s1.(deploying := false), log, Over, []));
    assert d1 + [Continue(k, Granted)] == done + ([Continue(k, Persisted(true, true))] + [Continue(k, Granted)]);
    CommitDeployUnfolds(k);
  }

  lemma CommitDeployUnfolds(k: nat)
    ensures CommitDeploy(k) == [Continue(k, Persisted(true, true))] + [Continue(k, Granted)]
  {
  }

  lemma CommitDeploySteps(s: Store, log: Log, k: nat, r: Record)
    ensures TaskStep(s, log, k, DeployReady(r), Persisted(true, true))
            == Change(DeployCommit(s, r.nodeID, r, true), log, DeployEnding, [])
    ensures var s1 := DeployCommit(s, r.nodeID, r, true);
            TaskStep(s1, log, k, DeployEnding, Granted) == Change(s1.(deploying := false), log, Over, [])
  {
  }

  /** A delete up to its commit, the remote delete having succeeded. */
  function Delete(k: nat): seq<Action> {
    [StartDelete(NODE)] + [Continue(k, Granted)] + [Continue(k, Granted)]
  }

  function DeleteLog(log: Log, account: string): Log {
    log.(detaches := log.detaches + {(account, "d")}, deletes := log.deletes + {(account, SCRIPT)},
         live := log.live - {(account, SCRIPT)})
  }

  lemma DeleteRuns(w: World, j: nat, account: string)
    requires Verified(w.store.cfg) && account != ""
    requires NODE in w.store.deployments && w.store.deployments[NODE] == Deployed(j, account)
    ensures Run(w, Delete(|w.tasks|))
            == World(w.store, DeleteLog(w.log, account), w.tasks + [DeleteReady(NODE, j, None)])
  {
    DeleteSteps(w, j, account);
    hide *;
    var k, s, log := |w.tasks|, w.store, w.log;
    var t1, t2 := DeleteDetaching(NODE, j, account, SCRIPT, "d", None), DeleteRemoving(NODE, j, account, SCRIPT, None);
    var log1 := log.(detaches := log.detaches + {(account, "d")});
    Begin(w, StartDelete(NODE), s, t1);
    ThenLast(w, [StartDelete(NODE)], s, log, w.tasks, t1, Granted, s, log1, t2);
    ThenLast(w, [StartDelete(NODE)] + [Continue(k, Granted)], s, log1, w.tasks, t2, Granted, s, DeleteLog(log, account),
             DeleteReady(NODE, j, None));
    DeleteUnfolds(k);
  }

  lemma DeleteUnfolds(k: nat)
    ensures Delete(k) == [StartDelete(NODE)] + [Continue(k, Granted)] + [Continue(k, Granted)]
  {
  }

  lemma DeleteSteps(w: World, j: nat, account: string)
    requires Verified(w.store.cfg) && account != ""
    requires NODE in w.store.deployments && w.store.deployments[NODE] == Deployed(j, account)
    ensures var k, s, log := |w.tasks|, w.store, w.log;
            var t1 := DeleteDetaching(NODE, j, account, SCRIPT, "d", None);
            var t2 := DeleteRemoving(NODE, j, account, SCRIPT, None);
            var log1 := log.(detaches := log.detaches + {(account, "d")});
            && Step(w, StartDelete(NODE)) == World(s, log, w.tasks + [t1])
            && TaskStep(s, log, k, t1, Granted) == Change(s, log1, t2, [])
            && TaskStep(s, log1, k, t2, Granted) == Change(s, DeleteLog(log, account), DeleteReady(NODE, j, None), [])
  {
    hide GoTrim;
  }

  lemma CommitDeleteStep(s: Store, log: Log, k: nat, j: nat)
    ensures TaskStep(s, log, k, DeleteReady(NODE, j, None), Persisted(true, true))
            == Change(DeleteCommit(s, NODE, true), log, Over, [])
  {
  }

  lemma ProbeSteps(s: Store, log: Log, i: nat)
    requires Expects(s, NODE, HOST)
    ensures TaskStep(s, log, i, ASLEEP, Granted) == Change(s, log, Probing(NODE, HOST, 1, Expected), [])
    ensures TaskStep(s, log, i, Probing(NODE, HOST, 1, Expected), Granted)
            == Change(s, See(log, TlsReached(i, 1)), Probing(NODE, HOST, 1, TlsOk), [])
  {
  }

  lemma UnaskedSteps(s: Store, s': Store, log: Log, log': Log, i: nat, r: Record)
    requires NODE !in s.deployments && s'.deployments == s.deployments[NODE := r] && r.customHost == HOST
    requires r.status == Pending
    ensures TaskStep(s, log, i, Probing(NODE, HOST, 1, TlsOk), Refused)
            == Change(s, See(log, NoSecret(i, 1, false)), Probing(NODE, HOST, 1, Winning), [])
    ensures var c := TaskStep(s', log', i, Probing(NODE, HOST, 1, Winning), Refused);
            && c.spawned == [] && c.task == Over && c.log.seen == log'.seen
            && c.store.deployments == s'.deployments[NODE := r.(status := Active)]
  {
  }

  /** Verified, domain set, one node deployed: its probe is asleep and nothing else is under way. */
  predicate Served(w: World) {
    && w.tasks == [Over, Over, Over, ASLEEP] && Deployable(w.store, "a")
    && NODE in w.store.deployments && w.store.deployments[NODE] == Deployed(2, "a")
    && w.log.seen == {} && w.log.live == {("a", SCRIPT)}
  }

  /** Verified, with the domain set. */
  lemma DomainSet() returns (actions: seq<Action>)
    ensures var w := Run(Init(), actions);
            w.tasks == [Over, Over] && Deployable(w.store, "a") && w.log == Listed(Init().log, "a")
  {
    var w0 := Init();
    hide *;
    InitFacts();
    VerifyRuns(w0, "a");
    CommitFacts(w0.store, "a");
    var s1 := VerifyCommit(w0.store, TOKEN, "a", "", "", true);
    var w1 := World(s1, w0.log, w0.tasks + [Over]);
    assert |w1.tasks| == 1;
    RunConcat(w0, Verify(0, "a"), Choose(1));
    ChooseRuns(w1, "a");
    NothingAfter(w1.tasks, SetReady(ZONE, SUBDOMAIN, "a"));
    NothingAfter(w1.tasks, Over);
    CommitChoice(w0, Verify(0, "a") + Choose(1), s1, Listed(w0.log, "a"), w1.tasks, []);
    actions := Verify(0, "a") + Choose(1) + [Continue(1, Persisted(true, true))];
    ChoiceFacts(s1);
  }

  lemma FirstDeployment() returns (actions: seq<Action>)
    ensures Served(Run(Init(), actions))
  {
    var done := DomainSet();
    var w0, w := Init(), Run(Init(), done);
    hide *;
    DeployRuns(w, "a");
    RunConcat(w0, done, Deploy(2));
    CommitDeployRuns(w0, done + Deploy(2), w.store.(deploying := true), DeployLog(w.log, "a"),
                     w.tasks, Deployed(2, "a"), [ASLEEP]);
    actions := done + Deploy(2) + CommitDeploy(2);
    InitFacts();
    FirstFacts(w.store, w0.log);
    assert w.tasks + [Over] + [ASLEEP] == [Over, Over, Over, ASLEEP];
    ServedUnfolds(Run(w0, actions));
  }

  lemma ServedUnfolds(w: World)
    ensures Served(w) <==>
            && w.tasks == [Over, Over, Over, ASLEEP] && Deployable(w.store, "a")
            && NODE in w.store.deployments && w.store.deployments[NODE] == Deployed(2, "a")
            && w.log.seen == {} && w.log.live == {("a", SCRIPT)}
  {
    hide Deployable, Deployed;
  }

  lemma ChoiceFacts(s: Store)
    requires !s.deploying && Verified(s.cfg) && s.cfg.accountID == "a" && s.cfg.workersSubdomain == ""
    ensures Deployable(SetCommit(s, ZONE, SUBDOMAIN, true), "a")
  {
    hide GoTrim;
  }

  lemma FirstFacts(s: Store, log: Log)
    requires Deployable(s, "a") && log == Log({}, {}, {}, {}, {}, {}, {}, {})
    ensures var m := DeployLog(Listed(log, "a"), "a"); m.seen == {} && m.live == {("a", SCRIPT)}
    ensures var r := Deployed(2, "a");
            var s' := DeployCommit(s.(deploying := true), r.nodeID, r, true).(deploying := false);
            Deployable(s', "a") && NODE in s'.deployments && s'.deployments[NODE] == r
  {
    hide GoTrim;
  }

  // ---------------------------------------------------------------- a delete overtaken by a deploy

  /** The other deployment of DeleteDropsOtherIff is real: a delete has removed the script remotely,
      a new deploy uploads it again and commits its record, and then the delete commits. The record
      is gone, its script is live, and nothing is under way that would delete it. */
  lemma DeployOvertakenByDelete() returns (actions: seq<Action>)
    ensures var w := Run(Init(), actions);
            && NODE !in w.store.deployments && ("a", SCRIPT) in w.log.live
            && forall t | t in w.tasks :: t == Over || t.Probing?
  {
    var first := FirstDeployment();
    var w, w0 := Run(Init(), first), Init();
    hide *;
    ServedUnfolds(w);
    DeployableFacts(w.store);
    DeleteRuns(w, 2, "a");
    RunConcat(w0, first, Delete(4));
    var w4 := World(w.store, DeleteLog(w.log, "a"), w.tasks + [DeleteReady(NODE, 2, None)]);
    DeployRuns(w4, "a");
    var d4 := first + Delete(4);
    RunConcat(w0, d4, Deploy(5));
    var s5, log5 := w.store.(deploying := true), DeployLog(w4.log, "a");
    CommitDeployRuns(w0, d4 + Deploy(5), s5, log5, w4.tasks, Deployed(5, "a"), [ASLEEP]);
    var d5 := d4 + Deploy(5) + CommitDeploy(5);
    var r := Deployed(5, "a");
    var s6 := DeployCommit(s5, r.nodeID, r, true).(deploying := false);
    assert w.tasks + [DeleteReady(NODE, 2, None)] + [Over] + [ASLEEP]
           == w.tasks + [DeleteReady(NODE, 2, None)] + [Over, ASLEEP];
    CommitDeleteStep(s6, log5, 4, 2);
    Then(w0, d5, s6, log5, w.tasks, DeleteReady(NODE, 2, None), [Over, ASLEEP], Persisted(true, true),
         Change(DeleteCommit(s6, NODE, true), log5, Over, []));
    actions := d5 + [Continue(4, Persisted(true, true))];
    OrphanFacts(s6, w4.log);
    AsleepProbes();
  }

  lemma DeployableFacts(s: Store)
    requires Deployable(s, "a")
    ensures Verified(s.cfg) && "a" != ""
  {
  }

  lemma OrphanFacts(s: Store, log: Log)
    ensures NODE !in DeleteCommit(s, NODE, true).deployments
    ensures ("a", SCRIPT) in DeployLog(log, "a").live
  {
  }

  lemma AsleepProbes()
    ensures ASLEEP.Probing?
  {
  }

  // ---------------------------------------------------------------- a probe between a delete and a deploy

  /** The other way to "active" is real: a probe reaches TLS, its record is deleted, a new deploy of
      the node gets ready, the probe reads no secret, the deploy commits, and the probe marks the
      fresh record active. No probe has ever reached the relay, and the record has its secret. */
  lemma ActiveWithoutRelay() returns (actions: seq<Action>)
    ensures var w := Run(Init(), actions);
            && IsActive(w.store.deployments, NODE)
            && w.store.deployments[NODE] == Deployed(5, "a").(status := Active)
            && w.log.seen == {TlsReached(3, 1), NoSecret(3, 1, false)}
  {
    var first := FirstDeployment();
    var w, w0 := Run(Init(), first), Init();
    hide *;
    ServedUnfolds(w);
    DeployableFacts(w.store);
    var front, tls := [Over, Over, Over], Probing(NODE, HOST, 1, TlsOk);
    ServedExpects(w.store);
    ProbeSteps(w.store, w.log, 3);
    assert w.tasks == front + [ASLEEP];
    var log1 := See(w.log, TlsReached(3, 1));
    ThenLast(w0, first, w.store, w.log, front, ASLEEP, Granted, w.store, w.log, Probing(NODE, HOST, 1, Expected));
    ThenLast(w0, first + [Continue(3, Granted)], w.store, w.log, front, Probing(NODE, HOST, 1, Expected), Granted,
             w.store, log1, tls);
    var d1 := first + [Continue(3, Granted)] + [Continue(3, Granted)];
    var w1 := World(w.store, log1, front + [tls]);
    DeleteRuns(w1, 2, "a");
    RunConcat(w0, d1, Delete(4));
    var d2 := d1 + Delete(4);
    CommitDeleteStep(w.store, DeleteLog(log1, "a"), 4, 2);
    ThenLast(w0, d2, w.store, DeleteLog(log1, "a"), w1.tasks, DeleteReady(NODE, 2, None), Persisted(true, true),
             DeleteCommit(w.store, NODE, true), DeleteLog(log1, "a"), Over);
    var d3 := d2 + [Continue(4, Persisted(true, true))];
    var s3 := DeleteCommit(w.store, NODE, true);
    var w3 := World(s3, DeleteLog(log1, "a"), w1.tasks + [Over]);
    DeletedFacts(w.store);
    ReadAndMark(d3, w3);
    actions := d3 + Deploy(5) + [Continue(3, Refused)] + CommitDeploy(5) + [Continue(3, Refused)];
    SeenFacts(w.log);
  }

  lemma ServedExpects(s: Store)
    requires NODE in s.deployments && s.deployments[NODE] == Deployed(2, "a")
    ensures Expects(s, NODE, HOST)
  {
  }

  lemma DeletedFacts(s: Store)
    requires Deployable(s, "a")
    ensures var s' := DeleteCommit(s, NODE, true); Deployable(s', "a") && NODE !in s'.deployments
  {
    hide GoTrim;
  }

  lemma SeenFacts(log: Log)
    requires log.seen == {}
    ensures DeleteLog(See(log, TlsReached(3, 1)), "a").seen == {TlsReached(3, 1)}
  {
  }

  /** From the deletion on: deploy, secret read, commit, mark. */
  lemma ReadAndMark(done: seq<Action>, w: World)
    requires Run(Init(), done) == w && Deployable(w.store, "a") && NODE !in w.store.deployments
    requires w.tasks == [Over, Over, Over] + [Probing(NODE, HOST, 1, TlsOk)] + [Over]
    ensures var w' := Run(Init(), done + Deploy(5) + [Continue(3, Refused)] + CommitDeploy(5) + [Continue(3, Refused)]);
            && IsActive(w'.store.deployments, NODE)
            && w'.store.deployments[NODE] == Deployed(5, "a").(status := Active)
            && w'.log.seen == w.log.seen + {NoSecret(3, 1, false)}
  {
    hide *;
    var w0, r, front := Init(), Deployed(5, "a"), [Over, Over, Over];
    var tls, won := Probing(NODE, HOST, 1, TlsOk), Probing(NODE, HOST, 1, Winning);
    DeployRuns(w, "a");
    RunConcat(w0, done, Deploy(5));
    var d1, s1, log1 := done + Deploy(5), w.store.(deploying := true), DeployLog(w.log, "a");
    var rest := [Over] + [DeployReady(r)] + [ASLEEP];
    assert w.tasks + [DeployReady(r)] + [ASLEEP] == front + [tls] + rest;
    var s2 := DeployCommit(s1, r.nodeID, r, true).(deploying := false);
    var log2 := See(log1, NoSecret(3, 1, false));
    FreshFacts(s1, r);
    UnaskedSteps(s1, s2, log1, log2, 3, r);
    Then(w0, d1, s1, log1, front, tls, rest, Refused, Change(s1, log2, won, []));
    var d2, before := d1 + [Continue(3, Refused)], front + [won] + [Over];
    assert front + [won] + (rest + []) == before + [DeployReady(r)] + [ASLEEP];
    assert |before| == 5;
    CommitDeployRuns(w0, d2, s1, log2, before, r, [ASLEEP]);
    var d3 := d2 + CommitDeploy(5);
    assert before + [Over] + [ASLEEP] == front + [won] + ([Over] + [Over] + [ASLEEP]);
    var c := TaskStep(s2, log2, 3, won, Refused);
    Then(w0, d3, s2, log2, front, won, [Over] + [Over] + [ASLEEP], Refused, c);
    ActiveFacts(c.store.deployments, s2.deployments, r, w.log);
  }

  lemma FreshFacts(s: Store, r: Record)
    requires r == Deployed(5, "a")
    ensures r.customHost == HOST && r.status == Pending
    ensures DeployCommit(s, r.nodeID, r, true).(deploying := false).deployments == s.deployments[NODE := r]
  {
  }

  lemma ActiveFacts(d: map<string, Record>, d0: map<string, Record>, r: Record, log: Log)
    requires d == d0[NODE := r.(status := Active)]
    ensures IsActive(d, NODE) && d[NODE] == r.(status := Active)
    ensures See(DeployLog(log, "a"), NoSecret(3, 1, false)).seen == log.seen + {NoSecret(3, 1, false)}
  {
  }
}
