/** The CDN manager's state and the sections of its operations that run under the mutex. */
module CdnStore {
  import opened CdnNames
  import opened Text

  datatype HostStatus = NoHost | Pending | Active | Failed

  /** deployedAt stands for the time stamp: deployments are numbered in the order they begin. */
  datatype Record = Record(
    nodeID: string, scriptName: string, workerHost: string, backend: string, deployedAt: nat, customHost: string,
    customDomainID: string, status: HostStatus, accountID: string, pathSecret: string)

  datatype Config = Config(
    token: string, accountID: string, email: string, workersSubdomain: string, custom: Option<CustomDomain>)

  const EMPTY := Config("", "", "", "", None)

  datatype Disk = Disk(cfg: Config, deployments: map<string, Record>)

  datatype Store = Store(
    cfg: Config, deployments: map<string, Record>, verifying: bool, deploying: bool, disk: Disk)

  datatype Zone = Zone(id: string, name: string)

  predicate Verified(c: Config) {
    GoTrim(c.accountID) != ""
  }

  predicate HasCustom(c: Config) {
    c.custom.Some? && IsSet(c.custom.value)
  }

  function WithConfig(s: Store, c: Config, saved: bool): Store {
    s.(cfg := c, disk := if saved then s.disk.(cfg := c) else s.disk)
  }

  function WithDeployments(s: Store, d: map<string, Record>, saved: bool): Store {
    s.(deployments := d, disk := if saved then s.disk.(deployments := d) else s.disk)
  }

  // ---------------------------------------------------------------- verification

  function VerifyCommit(
    s: Store, token: string, accountID: string, email: string, workersSubdomain: string, saved: bool): Store
  {
    var prior := GoTrim(s.cfg.accountID);
    var kept := if prior != "" && prior == accountID then s.cfg.custom else None;
    WithConfig(s, Config(token, accountID, email, workersSubdomain, kept), saved)
  }

  function FailVerify(s: Store, priorVerified: bool, saved: bool): Store {
    if priorVerified then s else WithConfig(s, EMPTY, saved)
  }

  // ---------------------------------------------------------------- deployments

  /** template says whether the worker script was found in the binary. */
  predicate MayDeploy(s: Store, host: string, port: int, template: bool) {
    && !s.deploying && Verified(s.cfg)
    && (GoTrim(s.cfg.workersSubdomain) != "" || HasCustom(s.cfg))
    && port > 0 && GoTrim(host) != "" && template
  }

  function DeployCommit(s: Store, nodeID: string, r: Record, saved: bool): Store {
    WithDeployments(s, s.deployments[nodeID := r], saved)
  }

  predicate MayDelete(s: Store, nodeID: string) {
    nodeID in s.deployments && Verified(s.cfg)
  }

  /** The account the remote deletes go to. */
  function DeleteAccount(s: Store, nodeID: string): string
    requires nodeID in s.deployments
  {
    var pinned := s.deployments[nodeID].accountID;
    if pinned == "" then s.cfg.accountID else pinned
  }

  function DeleteCommit(s: Store, nodeID: string, saved: bool): Store {
    WithDeployments(s, s.deployments - {nodeID}, saved)
  }

  /** The deployments are only saved after the configuration was. */
  function ClearCommit(s: Store, savedConfig: bool, savedDeployments: bool): Store {
    WithDeployments(WithConfig(s, EMPTY, savedConfig), map[], savedConfig && savedDeployments)
  }

  // ---------------------------------------------------------------- the custom domain

  function SetCommit(s: Store, zone: Zone, subdomain: string, saved: bool): Store {
    WithConfig(s, s.cfg.(custom := Some(CustomDomain(zone.id, zone.name, subdomain))), saved)
  }

  function ClearDomain(s: Store, saved: bool): Store {
    WithConfig(s, s.cfg.(custom := None), saved)
  }

  // ---------------------------------------------------------------- probes

  predicate Expects(s: Store, nodeID: string, host: string) {
    nodeID in s.deployments && s.deployments[nodeID].customHost == host
  }

  function PathSecretFor(s: Store, nodeID: string, host: string): string {
    if Expects(s, nodeID, host) then GoTrim(s.deployments[nodeID].pathSecret) else ""
  }

  function Mark(s: Store, nodeID: string, host: string, status: HostStatus, saved: bool): Store {
    if !Expects(s, nodeID, host) || s.deployments[nodeID].status == status then s
    else WithDeployments(s, s.deployments[nodeID := s.deployments[nodeID].(status := status)], saved)
  }

  function Load(d: Disk): Store {
    Store(d.cfg, d.deployments, false, false, d)
  }

  // ---------------------------------------------------------------- the code

  /** One method per locked section. The `saved` flags say whether writing the file succeeds. */
  class Manager {
    var cfg: Config
    var deployments: map<string, Record>
    var verifying: bool
    var deploying: bool
    ghost var disk: Disk

    constructor (d: Disk)
      ensures Value() == Load(d)
    {
      cfg, deployments, verifying, deploying := d.cfg, d.deployments, false, false;
      disk := d;
    }

    ghost function Value(): Store
      reads this
    {
      Store(cfg, deployments, verifying, deploying, disk)
    }

    method SaveConfigLocked(saved: bool)
      modifies this`disk
      ensures Value() == WithConfig(old(Value()), cfg, saved)
    {
      disk := if saved then disk.(cfg := cfg) else disk;
    }

    method SaveDeploymentsLocked(saved: bool)
      modifies this`disk
      ensures Value() == WithDeployments(old(Value()), deployments, saved)
    {
      disk := if saved then disk.(deployments := deployments) else disk;
    }

    method BeginVerify() returns (busy: bool, priorVerified: bool)
      modifies this`verifying
      ensures Value() == old(Value()).(verifying := true)
      ensures busy == old(verifying) && priorVerified == Verified(cfg)
    {
      priorVerified := GoTrim(cfg.accountID) != "";
      busy := verifying;
      verifying := true;
    }

    method PersistVerified(token: string, accountID: string, email: string, workersSubdomain: string, saved: bool)
      modifies this
      ensures Value() == VerifyCommit(old(Value()), token, accountID, email, workersSubdomain, saved)
    {
      hide GoTrim;
      var priorCustomDomain := cfg.custom;
      var priorAccount := GoTrim(cfg.accountID);
      var preserved := None;
      if priorAccount != "" && priorAccount == accountID {
        preserved := priorCustomDomain;
      }
      cfg := Config(token, accountID, email, workersSubdomain, preserved);
      SaveConfigLocked(saved);
    }

    method RollBackVerify(priorVerified: bool, saved: bool)
      modifies this
      ensures Value() == FailVerify(old(Value()), priorVerified, saved)
    {
      if !priorVerified {
        cfg := EMPTY;
        SaveConfigLocked(saved);
      }
    }

    /** What a deploy carries out of its first locked section; None when it is refused. */
    method BeginDeploy(host: string, port: int, template: bool) returns (taken: Option<Config>)
      modifies this`deploying
      ensures Value() == old(Value()).(deploying := old(deploying) || MayDeploy(old(Value()), host, port, template))
      ensures taken == if MayDeploy(old(Value()), host, port, template) then Some(cfg) else None
    {
      hide GoTrim, IsSet;
      if deploying || GoTrim(cfg.accountID) == "" {
        return None;
      }
      var hasCustomDomain := cfg.custom.Some? && IsSet(cfg.custom.value);
      if GoTrim(cfg.workersSubdomain) == "" && !hasCustomDomain {
        return None;
      }
      if port <= 0 || GoTrim(host) == "" {
        return None;
      }
      if !template {
        return None;
      }
      deploying := true;
      return Some(cfg);
    }

    method CommitDeploy(nodeID: string, r: Record, saved: bool)
      modifies this
      ensures Value() == DeployCommit(old(Value()), nodeID, r, saved)
    {
      deployments := deployments[nodeID := r];
      SaveDeploymentsLocked(saved);
    }

    /** Account, script and binding to delete remotely; None when there is nothing to do. */
    method BeginDelete(nodeID: string) returns (target: Option<(string, string, string)>)
      ensures target.Some? <==> MayDelete(Value(), nodeID)
      ensures target.Some? ==>
                target.value == (DeleteAccount(Value(), nodeID), deployments[nodeID].scriptName,
                                 deployments[nodeID].customDomainID)
    {
      if nodeID !in deployments || GoTrim(cfg.accountID) == "" {
        return None;
      }
      var dep := deployments[nodeID];
      var accountID := dep.accountID;
      if accountID == "" {
        accountID := cfg.accountID;
      }
      return Some((accountID, dep.scriptName, dep.customDomainID));
    }

    method CommitDelete(nodeID: string, saved: bool)
      modifies this
      ensures Value() == DeleteCommit(old(Value()), nodeID, saved)
    {
      deployments := deployments - {nodeID};
      SaveDeploymentsLocked(saved);
    }

    method CommitClear(savedConfig: bool, savedDeployments: bool)
      modifies this
      ensures Value() == ClearCommit(old(Value()), savedConfig, savedDeployments)
    {
      cfg := EMPTY;
      deployments := map[];
      SaveConfigLocked(savedConfig);
      if savedConfig {
        SaveDeploymentsLocked(savedDeployments);
      }
    }

    method CommitCustomDomain(zone: Zone, subdomain: string, saved: bool)
      modifies this
      ensures Value() == SetCommit(old(Value()), zone, subdomain, saved)
    {
      cfg := cfg.(custom := Some(CustomDomain(zone.id, zone.name, subdomain)));
      SaveConfigLocked(saved);
    }

    method ClearCustomDomain(saved: bool)
      modifies this
      ensures Value() == ClearDomain(old(Value()), saved)
    {
      cfg := cfg.(custom := None);
      SaveConfigLocked(saved);
    }

    method DeploymentStillExpectsHost(nodeID: string, host: string) returns (ok: bool)
      ensures ok <==> Expects(Value(), nodeID, host)
    {
      if nodeID !in deployments {
        return false;
      }
      return deployments[nodeID].customHost == host;
    }

    method DeploymentPathSecret(nodeID: string, host: string) returns (secret: string)
      ensures secret == PathSecretFor(Value(), nodeID, host)
    {
      if nodeID !in deployments || deployments[nodeID].customHost != host {
        return "";
      }
      return GoTrim(deployments[nodeID].pathSecret);
    }

    method MarkCustomHostStatus(nodeID: string, host: string, status: HostStatus, saved: bool)
      modifies this
      ensures Value() == Mark(old(Value()), nodeID, host, status, saved)
    {
      if nodeID !in deployments || deployments[nodeID].customHost != host {
        return;
      }
      if deployments[nodeID].status == status {
        return;
      }
      deployments := deployments[nodeID := deployments[nodeID].(status := status)];
      SaveDeploymentsLocked(saved);
    }
  }
}
