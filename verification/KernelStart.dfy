/** The bounded retry loop that starts the kernel, with its repairs of the profile. */
module KernelStart {
  import opened KernelPorts
  import opened KernelProfile
  import opened KernelSubscriptions
  import opened Text

  const MAX: nat := 5

  /** What the outside world does during each attempt: the error text of writing, running or the
      start callback (None when all three succeed), the answers a port reassignment gets, and the
      subscription files present. `lower` is toLowerCase. */
  datatype World = World(
    attempts: nat -> Option<string>, lower: string -> string, envs: nat -> Env, files: nat -> (string -> bool))

  datatype State = State(
    inbounds: seq<Inbound>, experimental: Experimental, outbounds: Option<seq<Outbound>>,
    portsAdjusted: bool, pruned: bool)

  predicate Includes(s: string, part: string) {
    exists i | 0 <= i <= |s| :: HasPrefix(s[i..], part)
  }

  predicate CacheError(text: string) {
    Includes(text, "initialize cache-file") || Includes(text, "cache-file")
  }

  predicate PortConflict(text: string) {
    Includes(text, "address already in use") || Includes(text, "bind: address already in use")
  }

  predicate MissingSubscription(text: string) {
    && (Includes(text, "no such file or directory")
        || Includes(text, "the system cannot find the file specified")
        || Includes(text, "the system cannot find the path specified"))
    && Includes(text, "data/subscribes/cloud-")
  }

  datatype Verdict = RetryCache | RetryPorts | RetryPruned | GiveUp | RepairThrew

  predicate Retries(v: Verdict) {
    v == RetryCache || v == RetryPorts || v == RetryPruned
  }

  function Reassigned(w: World, s: State, attempt: nat): Work {
    Reassign(w.envs(attempt), s.inbounds, s.experimental)
  }

  /** What the catch block decides after an attempt failed. */
  function Decide(w: World, s: State, attempt: nat, error: string): Verdict {
    var text := w.lower(error);
    if attempt >= MAX then GiveUp
    else if CacheError(text) then RetryCache
    else if PortConflict(text) && Reassigned(w, s, attempt).failed then RepairThrew
    else if PortConflict(text) && Reassigned(w, s, attempt).changes != map[] then RetryPorts
    else if MissingSubscription(text) && Removed(s.outbounds, w.files(attempt)) != [] then RetryPruned
    else GiveUp
  }

  /** The profile after the catch block. A reassignment that allocates nothing may still have added
      inbounds, and one that throws keeps what it wrote. */
  function Repair(w: World, s: State, attempt: nat, error: string): State {
    var text := w.lower(error);
    if attempt >= MAX || CacheError(text) then s
    else
      var r := Reassigned(w, s, attempt);
      var t := if PortConflict(text) then s.(inbounds := r.inbounds, experimental := r.controller) else s;
      match Decide(w, s, attempt, error)
      case RetryPorts => t.(portsAdjusted := true)
      case RetryPruned => t.(outbounds := Prune(s.outbounds, w.files(attempt)), pruned := true)
      case _ => t
  }

  datatype Result = Started | Rethrown(error: string) | ThrownByRepair | Unreachable

  /** `last` is the attempt the loop ended in; `pruneRetries` counts retries after pruning. */
  datatype Outcome = Outcome(result: Result, state: State, last: nat, pruneRetries: nat)

  function Loop(w: World, s: State, attempt: nat): Outcome
    decreases MAX + 1 - attempt
  {
    if attempt > MAX then Outcome(Unreachable, s, attempt, 0)
    else
      match w.attempts(attempt)
      case None => Outcome(Started, s, attempt, 0)
      case Some(error) =>
        var v, t := Decide(w, s, attempt, error), Repair(w, s, attempt, error);
        if v == RepairThrew then Outcome(ThrownByRepair, t, attempt, 0)
        else if !Retries(v) then Outcome(Rethrown(error), t, attempt, 0)
        else
          var rest := Loop(w, t, attempt + 1);
          rest.(pruneRetries := rest.pruneRetries + if v == RetryPruned then 1 else 0)
  }

  function Run(w: World, s: State): Outcome {
    Loop(w, s.(portsAdjusted := false, pruned := false), 1)
  }

  // ---------------------------------------------------------------- attempts

  /** Attempts from..to-1 all failed. */
  predicate AllFailed(w: World, from: nat, to: nat) {
    forall k: nat | from <= k < to :: w.attempts(k).Some?
  }

  /** The loop's state before attempt k, if it gets that far. */
  function StateAt(w: World, s: State, k: nat): State
    requires k >= 1
    decreases k
  {
    if k == 1 then s.(portsAdjusted := false, pruned := false)
    else
      var before := StateAt(w, s, k - 1);
      match w.attempts(k - 1) case None => before case Some(error) => Repair(w, before, k - 1, error)
  }

  lemma {:induction false} LoopEnds(w: World, s: State, attempt: nat)
    requires 1 <= attempt <= MAX
    ensures var o := Loop(w, StateAt(w, s, attempt), attempt);
            && attempt <= o.last <= MAX && AllFailed(w, attempt, o.last)
            && o.result == ResultAt(w, StateAt(w, s, o.last), o.last)
    decreases MAX + 1 - attempt
  {
    hide Loop, Repair, Decide, ResultAt, StateAt;
    var now := StateAt(w, s, attempt);
    LoopUnfolds(w, now, attempt);
    if w.attempts(attempt).Some? {
      var error := w.attempts(attempt).value;
      StateAfter(w, s, attempt);
      NoRetryAtLast(w, now, attempt, error);
      if Retries(Decide(w, now, attempt, error)) {
        LoopEnds(w, s, attempt + 1);
      }
    }
  }

  /** One turn of the loop: it ends here with this result, or goes on from the repaired state. */
  lemma LoopUnfolds(w: World, s: State, attempt: nat)
    requires 1 <= attempt <= MAX
    ensures var o := Loop(w, s, attempt);
            if w.attempts(attempt).Some? && Retries(Decide(w, s, attempt, w.attempts(attempt).value))
            then
              var rest := Loop(w, Repair(w, s, attempt, w.attempts(attempt).value), attempt + 1);
              o.result == rest.result && o.last == rest.last
            else o.result == ResultAt(w, s, attempt) && o.last == attempt
  {
    hide Repair, CacheError, PortConflict, MissingSubscription, Reassigned, Removed;
  }

  lemma StateAfter(w: World, s: State, k: nat)
    requires k >= 1 && w.attempts(k).Some?
    ensures StateAt(w, s, k + 1) == Repair(w, StateAt(w, s, k), k, w.attempts(k).value)
  {
    hide Repair;
  }

  lemma NoRetryAtLast(w: World, s: State, attempt: nat, error: string)
    ensures Retries(Decide(w, s, attempt, error)) ==> attempt < MAX
  {
    hide CacheError, PortConflict, MissingSubscription, Reassigned, Removed;
  }

  /** The reassignment of ports after this attempt throws: it is not the last one, the error speaks
      of an address in use and not of the cache file, and a request for a port is rejected. */
  predicate ReassignmentThrows(w: World, s: State, attempt: nat, error: string) {
    && attempt < MAX && !CacheError(w.lower(error)) && PortConflict(w.lower(error))
    && Reassigned(w, s, attempt).failed
  }

  /** What the loop answers when it ends in an attempt begun in state s. */
  function ResultAt(w: World, s: State, attempt: nat): Result {
    match w.attempts(attempt)
    case None => Started
    case Some(error) => if ReassignmentThrows(w, s, attempt, error) then ThrownByRepair else Rethrown(error)
  }

  /** At most five attempts. The loop returns exactly at the first one that succeeds. Otherwise it
      throws: the error of the last attempt it made, except exactly when the reassignment of ports
      after that attempt throws. It never falls through to its final throw. */
  lemma StartsAtFirstSuccess(w: World, s: State)
    ensures var o := Run(w, s);
            && 1 <= o.last <= 5 && AllFailed(w, 1, o.last)
            && (o.result == Started <==> w.attempts(o.last).None?)
            && (o.result == ThrownByRepair
                <==> && w.attempts(o.last).Some?
                     && ReassignmentThrows(w, StateAt(w, s, o.last), o.last, w.attempts(o.last).value))
            && (o.result != Started && o.result != ThrownByRepair ==> o.result == Rethrown(w.attempts(o.last).value))
  {
    hide Loop, ReassignmentThrows;
    LoopEnds(w, s, 1);
  }

  /** When no request for a port is ever rejected, a start that fails throws the error of its last
      attempt. */
  lemma RethrowsLastError(w: World, s: State)
    requires forall k: nat :: NoneRejected(w.envs(k))
    ensures var o := Run(w, s);
            o.result == match w.attempts(o.last) case None => Started case Some(error) => Rethrown(error)
  {
    hide Loop, CacheError, PortConflict, Reassign, Run, NoneRejected;
    StartsAtFirstSuccess(w, s);
    var o := Run(w, s);
    var at := StateAt(w, s, o.last);
    ReassignFinishes(w.envs(o.last), at.inbounds, at.experimental);
  }

  // ---------------------------------------------------------------- a repair that throws

  const IN_USE := "bind: address already in use"

  /** No text without an f speaks of the cache file. */
  lemma NoCacheError(text: string)
    requires 'f' !in text
    ensures !CacheError(text)
  {
    var a, b := "initialize cache-file", "cache-file";
    forall i | 0 <= i <= |text| ensures !HasPrefix(text[i..], a) && !HasPrefix(text[i..], b) {
      PrefixChars(text[i..], a, 17);
      PrefixChars(text[i..], b, 6);
      assert 'f' !in text[i..];
    }
  }

  lemma PrefixChars(s: string, p: string, k: nat)
    requires k < |p|
    ensures HasPrefix(s, p) ==> p[k] in s
  {
    if HasPrefix(s, p) {
      assert s[..|p|][k] == s[k];
    }
  }

  lemma InUseConflicts()
    ensures PortConflict(IN_USE) && 'f' !in IN_USE
  {
    assert IN_USE[0..] == IN_USE && IN_USE[..|IN_USE|] == IN_USE;
    assert HasPrefix(IN_USE[0..], IN_USE);
  }

  lemma RejectedAtOnce(env: Env, e: Experimental)
    requires env.offers(0).None?
    ensures Reassign(env, [Inbound("m", Mixed, "m", true, Some(Block(None, "")))], e).failed
  {
    var inbounds := [Inbound("m", Mixed, "m", true, Some(Block(None, "")))];
    var w := Start(inbounds, e);
    FirstIs(inbounds, Mixed, 0);
    assert Ensure(inbounds, Mixed) == inbounds;
    assert Settle(env, w, Mixed).failed;
    FailedStays(env, Settle(env, w, Mixed), Http);
    FailedStays(env, Settle(env, w, Mixed), Socks);
    ControllerFailedStays(env, SettleAll(env, w));
  }

  /** The exception is real: the first attempt meets an address in use, the allocator rejects, and
      the error thrown is not the attempt's. */
  lemma RepairThrowsExample(w: World, e: Experimental)
    requires w.attempts(1) == Some(IN_USE) && w.lower(IN_USE) == IN_USE && w.envs(1).offers(0).None?
    ensures Run(w, State([Inbound("m", Mixed, "m", true, Some(Block(None, "")))], e, None, false, false)).result
            == ThrownByRepair
  {
    hide CacheError, PortConflict, MissingSubscription, Reassign;
    InUseConflicts();
    NoCacheError(IN_USE);
    RejectedAtOnce(w.envs(1), e);
  }

  // ---------------------------------------------------------------- pruning

  ghost predicate FilesFixed(w: World) {
    forall k: nat :: w.files(k) == w.files(0)
  }

  lemma RepairOutbounds(w: World, s: State, attempt: nat, error: string)
    ensures var v, t := Decide(w, s, attempt, error), Repair(w, s, attempt, error);
            t.outbounds == (if v == RetryPruned then Prune(s.outbounds, w.files(attempt)) else s.outbounds)
    ensures Decide(w, s, attempt, error) == RetryPruned ==> Removed(s.outbounds, w.files(attempt)) != []
  {
    hide CacheError, PortConflict, MissingSubscription, Reassigned, Prune, Removed;
  }

  lemma {:induction false} NoPruneRetryAfter(w: World, s: State, attempt: nat)
    requires FilesFixed(w) && Removed(s.outbounds, w.files(0)) == []
    ensures Loop(w, s, attempt).pruneRetries == 0
    decreases MAX + 1 - attempt
  {
    hide Decide, Repair, Prune, Removed;
    if attempt <= MAX && w.attempts(attempt).Some? {
      var error := w.attempts(attempt).value;
      RepairOutbounds(w, s, attempt, error);
      if Retries(Decide(w, s, attempt, error)) {
        NoPruneRetryAfter(w, Repair(w, s, attempt, error), attempt + 1);
      }
    }
  }

  lemma {:induction false} PruneRetriesFrom(w: World, s: State, attempt: nat)
    requires FilesFixed(w)
    ensures Loop(w, s, attempt).pruneRetries <= 1
    decreases MAX + 1 - attempt
  {
    hide Decide, Repair, Prune, Removed;
    if attempt <= MAX && w.attempts(attempt).Some? {
      var error := w.attempts(attempt).value;
      var v, t := Decide(w, s, attempt, error), Repair(w, s, attempt, error);
      RepairOutbounds(w, s, attempt, error);
      if v == RetryPruned {
        PruneIdempotent(s.outbounds, w.files(0));
        NoPruneRetryAfter(w, t, attempt + 1);
      } else if Retries(v) {
        PruneRetriesFrom(w, t, attempt + 1);
      }
    }
  }

  /** While the subscription files stay as they are, pruning causes at most one retry. */
  lemma PruningRetriesOnce(w: World, s: State)
    requires FilesFixed(w)
    ensures Run(w, s).pruneRetries <= 1
  {
    PruneRetriesFrom(w, s.(portsAdjusted := false, pruned := false), 1);
  }

  // ---------------------------------------------------------------- what the flags mean

  lemma {:induction false} FlagsGrow(w: World, s: State, attempt: nat)
    ensures var o := Loop(w, s, attempt);
            && (s.pruned ==> o.state.pruned) && (o.state.pruned <==> s.pruned || o.pruneRetries > 0)
            && (o.pruneRetries == 0 ==> o.state.outbounds == s.outbounds)
    decreases MAX + 1 - attempt
  {
    hide CacheError, PortConflict, MissingSubscription, Reassigned, Prune, Removed;
    if attempt <= MAX && w.attempts(attempt).Some? {
      var error := w.attempts(attempt).value;
      if Retries(Decide(w, s, attempt, error)) {
        FlagsGrow(w, Repair(w, s, attempt, error), attempt + 1);
      }
    }
  }

  /** The returned pruning flag says whether the outbounds were edited. */
  lemma PrunedFlagTells(w: World, s: State)
    ensures var o := Run(w, s); o.state.pruned <==> o.pruneRetries > 0
    ensures var o := Run(w, s); !o.state.pruned ==> o.state.outbounds == s.outbounds
    ensures var o := Run(w, s);
            FilesFixed(w) && o.state.pruned ==> o.state.outbounds == Prune(s.outbounds, w.files(0)) != s.outbounds
  {
    var s0 := s.(portsAdjusted := false, pruned := false);
    FlagsGrow(w, s0, 1);
    if FilesFixed(w) {
      PrunedOutbounds(w, s0, 1);
    }
  }

  lemma {:induction false} PrunedOutbounds(w: World, s: State, attempt: nat)
    requires FilesFixed(w)
    ensures var o := Loop(w, s, attempt);
            o.pruneRetries > 0 ==> o.state.outbounds == Prune(s.outbounds, w.files(0)) != s.outbounds
    decreases MAX + 1 - attempt
  {
    hide Decide, Repair, Prune, Removed;
    if attempt <= MAX && w.attempts(attempt).Some? {
      var error := w.attempts(attempt).value;
      var v, t := Decide(w, s, attempt, error), Repair(w, s, attempt, error);
      RepairOutbounds(w, s, attempt, error);
      if v == RetryPruned {
        PruneChangesIff(s.outbounds, w.files(0));
        PruneIdempotent(s.outbounds, w.files(0));
        NoPruneRetryAfter(w, t, attempt + 1);
        FlagsGrow(w, t, attempt + 1);
      } else if Retries(v) {
        PrunedOutbounds(w, t, attempt + 1);
      }
    }
  }

  // ---------------------------------------------------------------- the code

  class Runner {
    const w: World
    const target: Profile
    var portsAdjusted: bool
    var pruned: bool
    ghost var pruneRetries: nat

    constructor (w: World, target: Profile)
      ensures this.w == w && this.target == target && !portsAdjusted && !pruned && pruneRetries == 0
    {
      this.w, this.target := w, target;
      portsAdjusted, pruned, pruneRetries := false, false, 0;
    }

    ghost function Value(): State
      reads this, target
    {
      State(target.inbounds, target.experimental, target.outbounds, portsAdjusted, pruned)
    }

    /** The catch block after a failed attempt. */
    method Recover(attempt: nat, error: string) returns (v: Verdict)
      requires attempt <= MAX
      modifies this`portsAdjusted, this`pruned, target
      ensures v == Decide(w, old(Value()), attempt, error)
      ensures Value() == Repair(w, old(Value()), attempt, error)
    {
      hide CacheError, PortConflict, MissingSubscription, Reassign, Prune, Removed;
      var text := w.lower(error);
      if CacheError(text) && attempt < MAX {
        return RetryCache;
      }
      if PortConflict(text) && attempt < MAX {
        var op := new Reassignment(w.envs(attempt), target);
        var ports := op.ReassignKernelProfilePorts();
        if ports.None? {
          return RepairThrew;
        }
        if ports.value != map[] {
          portsAdjusted := true;
          return RetryPorts;
        }
      }
      if MissingSubscription(text) && attempt < MAX {
        PruneChangesIff(target.outbounds, w.files(attempt));
        var changed, removed := PruneMissingKernelCloudSubscriptions(target, w.files(attempt));
        if changed {
          pruned := true;
          return RetryPruned;
        }
      }
      return GiveUp;
    }

    method RunKernelStartAttempts() returns (result: Result, last: nat)
      requires !portsAdjusted && !pruned && pruneRetries == 0
      modifies this, target
      ensures var o := Run(w, old(Value()));
              result == o.result && last == o.last && Value() == o.state && pruneRetries == o.pruneRetries
    {
      hide Decide, Repair;
      last := 1;
      while last <= MAX
        invariant 1 <= last <= MAX + 1
        invariant var o, rest := Run(w, old(Value())), Loop(w, Value(), last);
                  o == rest.(pruneRetries := rest.pruneRetries + pruneRetries)
      {
        if w.attempts(last).None? {
          return Started, last;
        }
        var error := w.attempts(last).value;
        var v := Recover(last, error);
        if v == RepairThrew {
          return ThrownByRepair, last;
        }
        if !Retries(v) {
          return Rethrown(error), last;
        }
        if v == RetryPruned {
          pruneRetries := pruneRetries + 1;
        }
        last := last + 1;
      }
      return Unreachable, last;
    }
  }
}
