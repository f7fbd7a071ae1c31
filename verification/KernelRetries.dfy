/** When a failed start is tried again, and what has been repaired by then. */
module KernelRetries {
  import opened KernelPorts
  import opened KernelProfile
  import opened KernelStart
  import opened KernelSubscriptions
  import opened Text

  // ---------------------------------------------------------------- what an error speaks of

  lemma IncludesIff(s: string, part: string)
    ensures Includes(s, part) <==> exists a: string, b: string :: s == a + part + b
  {
    if Includes(s, part) {
      var i :| 0 <= i <= |s| && HasPrefix(s[i..], part);
      assert s == s[..i] + part + s[i + |part|..];
    }
    if exists a: string, b: string :: s == a + part + b {
      var a: string, b: string :| s == a + part + b;
      assert s[|a|..] == part + b;
      assert HasPrefix(s[|a|..], part);
    }
  }

  /** An error that speaks of the longer text speaks of its end. */
  lemma IncludesEnd(s: string, a: string, b: string)
    ensures Includes(s, a + b) ==> Includes(s, b)
  {
    if Includes(s, a + b) {
      var i :| 0 <= i <= |s| && HasPrefix(s[i..], a + b);
      assert s[i + |a|..] == s[i..][|a|..];
      assert s[i..][..|a + b|][|a|..] == b;
      assert HasPrefix(s[i + |a|..], b);
    }
  }

  lemma CausesAre(text: string)
    ensures CacheError(text) <==> Includes(text, "cache-file")
    ensures PortConflict(text) <==> Includes(text, "address already in use")
  {
    assert "initialize " + "cache-file" == "initialize cache-file";
    assert "bind: " + "address already in use" == "bind: address already in use";
    IncludesEnd(text, "initialize ", "cache-file");
    IncludesEnd(text, "bind: ", "address already in use");
  }

  predicate SpeaksOfSubscription(text: string) {
    && Includes(text, "data/subscribes/cloud-")
    && (Includes(text, "no such file or directory")
        || Includes(text, "the system cannot find the file specified")
        || Includes(text, "the system cannot find the path specified"))
  }

  // ---------------------------------------------------------------- what is repaired

  /** A cloud subscription the outbounds mention and that has no file. */
  predicate LacksFile(outbounds: Option<seq<Outbound>>, exists_: string -> bool, id: string) {
    HasPrefix(id, "cloud-") && !exists_(id) && Mentions(List(outbounds), id)
  }

  /** The error of attempt k, in lower case. */
  function ErrorText(w: World, k: nat): string {
    match w.attempts(k) case None => "" case Some(error) => w.lower(error)
  }

  /** Reassigning ports after attempt k, begun in this state. */
  function Moved(w: World, now: State, k: nat): Work {
    Reassign(w.envs(k), now.inbounds, now.experimental)
  }

  predicate AsksForPorts(w: World, k: nat) {
    !Includes(ErrorText(w, k), "cache-file") && Includes(ErrorText(w, k), "address already in use")
  }

  /** Ports are asked for, and the reassignment finishes with something to report. */
  predicate MovesPorts(w: World, now: State, k: nat) {
    k < 5 && AsksForPorts(w, k) && !Moved(w, now, k).failed && Moved(w, now, k).changes != map[]
  }

  /** The error is about a missing cloud subscription, nothing before it leads to a retry or a throw,
      and some subscription the profile mentions has no file. */
  ghost predicate PrunesEntries(w: World, now: State, k: nat) {
    && k < 5 && !Includes(ErrorText(w, k), "cache-file")
    && (AsksForPorts(w, k) ==> !Moved(w, now, k).failed && Moved(w, now, k).changes == map[])
    && SpeaksOfSubscription(ErrorText(w, k))
    && exists id :: LacksFile(now.outbounds, w.files(k), id)
  }

  /** The inbounds and the controller after attempt k: reassigned if ports were asked for. */
  function Rewired(w: World, now: State, k: nat): State {
    if k < 5 && AsksForPorts(w, k)
    then now.(inbounds := Moved(w, now, k).inbounds, experimental := Moved(w, now, k).controller) else now
  }

  lemma SomethingRemoved(outbounds: Option<seq<Outbound>>, exists_: string -> bool)
    ensures Removed(outbounds, exists_) != [] <==>
            exists id :: LacksFile(outbounds, exists_, id)
  {
    hide Removed, Mentions;
    var removed := Removed(outbounds, exists_);
    if removed != [] {
      assert removed[0] in removed;
      RemovedAre(outbounds, exists_, removed[0]);
      assert LacksFile(outbounds, exists_, removed[0]);
    }
    if exists id :: LacksFile(outbounds, exists_, id) {
      var id :| LacksFile(outbounds, exists_, id);
      RemovedAre(outbounds, exists_, id);
    }
  }

  lemma PrunedIs(outbounds: Option<seq<Outbound>>, exists_: string -> bool)
    requires Removed(outbounds, exists_) != []
    ensures outbounds.Some? && Prune(outbounds, exists_) == Some(WithoutMissing(outbounds.value, exists_))
  {
    hide Removed, Prune, WithoutMissing;
    NoOutboundsNothingRemoved(exists_);
    PruneDropsExactlyMissing(outbounds, exists_);
  }

  lemma DecisionIs(w: World, now: State, k: nat)
    requires w.attempts(k).Some?
    ensures var v := Decide(w, now, k, w.attempts(k).value);
            && (v == RetryCache <==> k < 5 && Includes(ErrorText(w, k), "cache-file"))
            && (v == RetryPorts <==> MovesPorts(w, now, k))
            && (v == RetryPruned <==> PrunesEntries(w, now, k))
  {
    hide Includes, Reassign, Removed, CacheError, PortConflict, LacksFile;
    CausesAre(ErrorText(w, k));
    SomethingRemoved(now.outbounds, w.files(k));
  }

  lemma RepairIs(w: World, now: State, k: nat)
    requires w.attempts(k).Some?
    ensures var t := Repair(w, now, k, w.attempts(k).value);
            && (MovesPorts(w, now, k) ==> t == Rewired(w, now, k).(portsAdjusted := true))
            && (PrunesEntries(w, now, k) ==>
                  && now.outbounds.Some?
                  && t == Rewired(w, now, k).(outbounds := Some(WithoutMissing(now.outbounds.value, w.files(k))),
                                              pruned := true))
            && (!MovesPorts(w, now, k) && !PrunesEntries(w, now, k) ==> t == Rewired(w, now, k))
  {
    hide Includes, Reassign, Removed, CacheError, PortConflict, Decide, Prune, WithoutMissing, LacksFile,
      SpeaksOfSubscription;
    CausesAre(ErrorText(w, k));
    DecisionIs(w, now, k);
    SomethingRemoved(now.outbounds, w.files(k));
    RepairUnfolds(w, now, k);
    if PrunesEntries(w, now, k) {
      PrunedIs(now.outbounds, w.files(k));
    }
  }

  lemma RepairUnfolds(w: World, now: State, k: nat)
    requires w.attempts(k).Some?
    ensures var error := w.attempts(k).value;
            var v, text := Decide(w, now, k, error), ErrorText(w, k);
            Repair(w, now, k, error)
            == if k >= 5 || CacheError(text) then now
               else
                 var t := if PortConflict(text)
                          then now.(inbounds := Moved(w, now, k).inbounds, experimental := Moved(w, now, k).controller)
                          else now;
                 if v == RetryPorts then t.(portsAdjusted := true)
                 else if v == RetryPruned then t.(outbounds := Prune(now.outbounds, w.files(k)), pruned := true)
                 else t
  {
    hide Reassign, CacheError, PortConflict, Decide, Prune;
  }

  // ---------------------------------------------------------------- the attempts made

  /** While the loop gets to attempt k, it goes on from there as the whole run does. */
  lemma {:induction false} RunReaches(w: World, s: State, k: nat)
    requires 1 <= k <= Run(w, s).last
    ensures k <= 5 && Loop(w, StateAt(w, s, k), k).last == Run(w, s).last
    ensures Loop(w, StateAt(w, s, k), k).state == Run(w, s).state
    ensures k > 1 ==> w.attempts(k - 1).Some?
    decreases k
  {
    hide Loop, Repair, Decide;
    if k > 1 {
      RunReaches(w, s, k - 1);
      var now := StateAt(w, s, k - 1);
      LoopGoesOn(w, now, k - 1);
      LoopEnds(w, s, k - 1);
      StateAfterAttempt(w, s, k - 1);
      if k == 6 { LoopEnds(w, s, 1); }
    }
    LoopEnds(w, s, 1);
  }

  lemma StateAfterAttempt(w: World, s: State, k: nat)
    requires k >= 1 && w.attempts(k).Some?
    ensures StateAt(w, s, k + 1) == Repair(w, StateAt(w, s, k), k, w.attempts(k).value)
  {
    StateAfter(w, s, k);
  }

  /** One turn of the loop, with the state it ends in. */
  lemma LoopGoesOn(w: World, now: State, k: nat)
    requires 1 <= k <= 5
    ensures var o := Loop(w, now, k);
            match w.attempts(k)
            case None => o.last == k && o.state == now
            case Some(error) =>
              if Retries(Decide(w, now, k, error))
              then
                var rest := Loop(w, Repair(w, now, k, error), k + 1);
                o.last == rest.last && o.state == rest.state
              else o.last == k && o.state == Repair(w, now, k, error)
  {
    hide Repair, CacheError, PortConflict, MissingSubscription, Reassigned, Removed;
  }

  // ---------------------------------------------------------------- main results

  /** An attempt below the fifth that failed is followed by another exactly when its error speaks of
      the cache file, or of an address in use and the reassignment of ports finishes with a change to
      report, or of a missing cloud subscription when the ports gave no reason and the profile
      mentions a subscription without a file. What the next attempt starts from is then the same
      profile, or the one with the reassigned inbounds and controller, or the one without exactly the
      entries of missing subscriptions, each repair noted in its flag. */
  lemma GoesOnIff(w: World, s: State, k: nat)
    requires 1 <= k <= Run(w, s).last && w.attempts(k).Some?
    ensures var now, next := StateAt(w, s, k), StateAt(w, s, k + 1);
            var cache := k < 5 && Includes(ErrorText(w, k), "cache-file");
            && (Run(w, s).last > k <==> cache || MovesPorts(w, now, k) || PrunesEntries(w, now, k))
            && (cache ==> next == now)
            && (MovesPorts(w, now, k) ==>
                  next == now.(inbounds := Moved(w, now, k).inbounds, experimental := Moved(w, now, k).controller,
                               portsAdjusted := true))
            && (PrunesEntries(w, now, k) ==>
                  && now.outbounds.Some?
                  && next.outbounds == Some(WithoutMissing(now.outbounds.value, w.files(k)))
                  && next == Rewired(w, now, k).(outbounds := next.outbounds, pruned := true))
            && (!MovesPorts(w, now, k) && !PrunesEntries(w, now, k) ==> next == Rewired(w, now, k))
  {
    hide Loop, Repair, Decide, Includes, Reassign, LacksFile, WithoutMissing, StateAt, Run,
      SpeaksOfSubscription;
    RunReaches(w, s, k);
    var now := StateAt(w, s, k);
    LoopGoesOn(w, now, k);
    DecisionIs(w, now, k);
    RepairIs(w, now, k);
    StateAfterAttempt(w, s, k);
    NoRetryAtLast(w, now, k, w.attempts(k).value);
    if Retries(Decide(w, now, k, w.attempts(k).value)) {
      LoopEnds(w, s, k + 1);
    }
  }

  lemma LastIsWithinFive(w: World, s: State)
    ensures 1 <= Run(w, s).last <= 5
  {
    hide Run, ReassignmentThrows;
    StartsAtFirstSuccess(w, s);
  }

  /** The state the start ends in: that of its last attempt if it succeeded, else what is left after
      that attempt's repairs. */
  lemma EndsIn(w: World, s: State)
    ensures var o := Run(w, s);
            && 1 <= o.last <= 5
            && o.state == StateAt(w, s, if w.attempts(o.last).None? then o.last else o.last + 1)
  {
    hide *;
    LastIsWithinFive(w, s);
    var o := Run(w, s);
    RunReaches(w, s, o.last);
    LoopGoesOn(w, StateAt(w, s, o.last), o.last);
    if w.attempts(o.last).Some? {
      StateAfterAttempt(w, s, o.last);
      if Retries(Decide(w, StateAt(w, s, o.last), o.last, w.attempts(o.last).value)) {
        NoRetryAtLast(w, StateAt(w, s, o.last), o.last, w.attempts(o.last).value);
        LoopEnds(w, s, o.last + 1);
      }
    }
  }

  lemma {:induction false} FlagsAt(w: World, s: State, k: nat)
    requires 1 <= k <= Run(w, s).last
    ensures StateAt(w, s, k).portsAdjusted <==> exists j | 1 <= j < k :: MovesPorts(w, StateAt(w, s, j), j)
    ensures StateAt(w, s, k).pruned <==> exists j | 1 <= j < k :: PrunesEntries(w, StateAt(w, s, j), j)
    decreases k
  {
    hide Run, MovesPorts, PrunesEntries, Rewired, Repair, Decide, Reassign;
    if k == 1 {
    } else {
      FlagsAt(w, s, k - 1);
      RunReaches(w, s, k);
      FlagsStep(w, s, k - 1);
    }
  }

  lemma FlagsStep(w: World, s: State, k: nat)
    requires 1 <= k < Run(w, s).last && w.attempts(k).Some?
    ensures var now, next := StateAt(w, s, k), StateAt(w, s, k + 1);
            && (next.portsAdjusted <==> now.portsAdjusted || MovesPorts(w, now, k))
            && (next.pruned <==> now.pruned || PrunesEntries(w, now, k))
  {
    hide Run, StateAt, Includes, Reassign, LacksFile, WithoutMissing;
    GoesOnIff(w, s, k);
  }

  /** What the caller is told at the end: ports were adjusted exactly when some attempt was followed
      by a reassignment that reported a change, and subscriptions were pruned exactly when some
      attempt was followed by a pruning. */
  lemma FlagsTellBranches(w: World, s: State)
    ensures var o := Run(w, s);
            && (o.state.portsAdjusted <==> exists j | 1 <= j < o.last :: MovesPorts(w, StateAt(w, s, j), j))
            && (o.state.pruned <==> exists j | 1 <= j < o.last :: PrunesEntries(w, StateAt(w, s, j), j))
  {
    hide Run, StateAt, Includes, Reassign, LacksFile, WithoutMissing, MovesPorts, PrunesEntries;
    EndsIn(w, s);
    var o := Run(w, s);
    FlagsAt(w, s, o.last);
    if w.attempts(o.last).Some? {
      GoesOnIff(w, s, o.last);
      RewiredFlags(w, StateAt(w, s, o.last), o.last);
    }
  }

  lemma RewiredFlags(w: World, now: State, k: nat)
    ensures Rewired(w, now, k).portsAdjusted == now.portsAdjusted && Rewired(w, now, k).pruned == now.pruned
  {
  }
}
