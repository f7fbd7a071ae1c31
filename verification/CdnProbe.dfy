/** The readiness probe as the loop it is: at most fourteen tries, each with early exits. */
module CdnProbe {
  import opened CdnStore
  import opened CdnSystem
  import opened CdnWhole
  import opened Text

  /** What one try meets: whether the record still expects the host, whether the host resolves and
      answers TLS, the secret on record, and whether the relay answers. */
  datatype View = View(expects: bool, tls: bool, secret: string, relay: bool)

  datatype Try = Gone | Reached | NotYet

  function TryOnce(v: View): Try {
    if !v.expects then Gone
    else if v.tls && (v.secret == "" || v.relay) then Reached
    else NotYet
  }

  /** How a probe ends, and in which try. */
  datatype Verdict = Dropped(try: nat) | MarkActive(try: nat) | MarkFailed

  /** The delays between tries, in seconds. */
  const DELAYS: seq<nat> := [3, 6, 12, 20, 30, 40, 50, 60, 90, 120, 180, 240, 300, 300]

  /** Every try before the k-th, the first being 1, is "not yet". */
  predicate AllNotYet(views: nat -> View, k: nat) {
    forall j: nat | 1 <= j < k :: TryOnce(views(j)) == NotYet
  }

  /** The first try that is not "not yet" decides; after fourteen such tries the probe fails. */
  method ProbeCustomHostReadiness(views: nat -> View) returns (v: Verdict, waited: nat)
    ensures match v
            case Dropped(k) => 1 <= k <= 14 && TryOnce(views(k)) == Gone && AllNotYet(views, k)
            case MarkActive(k) => 1 <= k <= 14 && TryOnce(views(k)) == Reached && AllNotYet(views, k)
            case MarkFailed => AllNotYet(views, 15)
    ensures waited <= 1451
    ensures v == MarkFailed ==> waited == 1451
  {
    hide Sum;
    waited := 0;
    var delays := DELAYS;
    SumAll();
    for i := 0 to 14
      invariant waited == Sum(delays[..i])
      invariant forall j: nat | 1 <= j <= i :: TryOnce(views(j)) == NotYet
    {
      SumStep(delays, i);
      waited := waited + delays[i];
      SumPrefix(delays, i + 1);
      var view := views(i + 1);
      if !view.expects {
        return Dropped(i + 1), waited;
      }
      if !view.tls {
        continue;
      }
      if view.secret == "" {
        return MarkActive(i + 1), waited;
      }
      if view.relay {
        return MarkActive(i + 1), waited;
      }
    }
    return MarkFailed, waited;
  }

  function Sum(xs: seq<nat>): nat {
    if xs == [] then 0 else Sum(xs[..|xs| - 1]) + xs[|xs| - 1]
  }

  lemma SumStep(xs: seq<nat>, i: nat)
    requires i < |xs|
    ensures Sum(xs[..i + 1]) == Sum(xs[..i]) + xs[i]
  {
    assert xs[..i + 1][..i] == xs[..i];
  }

  lemma {:induction false} SumPrefix(xs: seq<nat>, i: nat)
    requires i <= |xs|
    ensures Sum(xs[..i]) <= Sum(xs)
    decreases |xs| - i
  {
    if i < |xs| {
      SumStep(xs, i);
      SumPrefix(xs, i + 1);
    } else {
      assert xs[..i] == xs;
    }
  }

  lemma SumAll()
    ensures Sum(DELAYS) == 1451 && |DELAYS| == 14 && DELAYS[..14] == DELAYS && DELAYS[..0] == [] && Sum([]) == 0
  {
    SumFirst(DELAYS, 14);
  }

  lemma {:induction false} SumFirst(xs: seq<nat>, n: nat)
    requires xs == DELAYS && n <= 14
    ensures Sum(xs[..n]) == [0, 3, 9, 21, 41, 71, 111, 161, 221, 311, 431, 611, 851, 1151, 1451][n]
    ensures xs[..14] == xs
  {
    if n > 0 {
      SumFirst(xs, n - 1);
      SumStep(xs, n - 1);
    }
  }

  /** One try of the loop, taken as separate locked sections and network answers, ends the same way
      when nothing else runs in between. */
  lemma TryIsFourSteps(s: Store, log: Log, i: nat, nodeID: string, host: string, tries: nat, tls: bool, relay: bool)
    requires tries < MAX_TRIES
    ensures var view := View(Expects(s, nodeID, host), tls, PathSecretFor(s, nodeID, host), relay);
            var woken := ProbeStep(s, log, i, Probing(nodeID, host, tries, Sleeping), Refused);
            match TryOnce(view)
            case Gone => woken.task == Over
            case NotYet =>
              ThroughTls(s, woken.log, i, woken.task, tls, relay) == Probing(nodeID, host, tries + 1, Sleeping)
            case Reached =>
              ThroughTls(s, woken.log, i, woken.task, tls, relay) == Probing(nodeID, host, tries + 1, Winning)
  {
    hide PathSecretFor, Expects;
  }

  function AnswerOf(ok: bool): CdnSystem.Answer {
    if ok then Granted else Refused
  }

  /** The TLS answer, the locked read of the secret, and the relay answer. */
  function ThroughTls(s: Store, log: Log, i: nat, task: Task, tls: bool, relay: bool): Task {
    if !IsProbe(task) then task
    else
      var c := ProbeStep(s, log, i, task, AnswerOf(tls));
      if !tls || !IsProbe(c.task) then c.task
      else
        var d := ProbeStep(s, c.log, i, c.task, Refused);
        if IsProbe(d.task) && d.task.Probing? && d.task.stage.HasSecret?
        then ProbeStep(s, d.log, i, d.task, AnswerOf(relay)).task else d.task
  }

  // ---------------------------------------------------------------- a whole probe

  /** What the network answers in one try: the TLS handshake, and the relay if it is asked. */
  datatype Reply = Reply(tls: bool, relay: bool)

  /** The answers to the steps of a probe that finds this secret in every try. */
  function ProbeAnswers(replies: seq<Reply>, secret: string, last: CdnSystem.Answer): seq<CdnSystem.Answer> {
    if replies == [] then [Refused] + [last]
    else
      var r, rest := replies[0], ProbeAnswers(replies[1..], secret, last);
      [Refused] + ([AnswerOf(r.tls)] +
       (if !r.tls then rest
        else [Refused] + (if secret == "" then [last] else [AnswerOf(r.relay)] + if r.relay then [last] else rest)))
  }

  /** Some try reaches TLS and then the relay, or needs no relay. */
  predicate SomeReaches(replies: seq<Reply>, secret: string) {
    exists k | 0 <= k < |replies| :: replies[k].tls && (secret == "" || replies[k].relay)
  }

  lemma ReachesFirst(replies: seq<Reply>, secret: string)
    requires replies != []
    ensures SomeReaches(replies, secret)
            <==> (replies[0].tls && (secret == "" || replies[0].relay)) || SomeReaches(replies[1..], secret)
  {
    if SomeReaches(replies[1..], secret) {
      var k :| 0 <= k < |replies[1..]| && replies[1..][k].tls && (secret == "" || replies[1..][k].relay);
      assert replies[k + 1] == replies[1..][k];
    }
    if SomeReaches(replies, secret) {
      var k :| 0 <= k < |replies| && replies[k].tls && (secret == "" || replies[k].relay);
      assert k > 0 ==> replies[1..][k - 1] == replies[k];
    }
  }

  lemma {:induction false} ProbeAlone(
    s: Store, log: Log, i: nat, n: string, host: string, tries: nat, replies: seq<Reply>, last: CdnSystem.Answer)
    requires Expects(s, n, host) && tries + |replies| == MAX_TRIES
    ensures var secret := PathSecretFor(s, n, host);
            var c := Alone(s, log, i, Probing(n, host, tries, Sleeping), ProbeAnswers(replies, secret, last));
            && c.task == Over && c.spawned == []
            && c.store == Mark(s, n, host, if SomeReaches(replies, secret) then Active else Failed, Saved(last))
    decreases |replies|, 0
  {
    hide Alone, Expects, PathSecretFor, Mark, Saved, SomeReaches, TaskStep, ProbeAnswers, AnswerOf;
    var secret, asleep := PathSecretFor(s, n, host), Probing(n, host, tries, Sleeping);
    assert [last] + [] == [last];
    SleepingSteps(s, log, i, n, host, tries, last);
    AnswersUnfold(replies, secret, last);
    if replies == [] {
      AloneStep(s, log, i, asleep, Refused, [last]);
      AloneStep(s, log, i, Probing(n, host, tries, Losing), last, []);
      AloneNone(Mark(s, n, host, Failed, Saved(last)), log, i, Over);
      NoneReaches(secret);
    } else {
      var r, rest := replies[0], ProbeAnswers(replies[1..], secret, last);
      var woken, tls := Probing(n, host, tries + 1, Expected), Probing(n, host, tries + 1, TlsOk);
      ReachesFirst(replies, secret);
      var tail := if !r.tls then rest
                  else [Refused] + (if secret == "" then [last]
                                    else [AnswerOf(r.relay)] + if r.relay then [last] else rest);
      assert ProbeAnswers(replies, secret, last) == [Refused] + ([AnswerOf(r.tls)] + tail);
      TlsStep(s, log, i, n, host, tries + 1, r.tls);
      AloneStep(s, log, i, asleep, Refused, [AnswerOf(r.tls)] + tail);
      AloneStep(s, log, i, woken, AnswerOf(r.tls), tail);
      if !r.tls {
        ProbeAlone(s, log, i, n, host, tries + 1, replies[1..], last);
      } else {
        TlsAlone(s, See(log, TlsReached(i, tries + 1)), i, n, host, tries + 1, replies[1..], r.relay, last);
      }
    }
  }

  lemma SleepingSteps(s: Store, log: Log, i: nat, n: string, host: string, tries: nat, last: CdnSystem.Answer)
    requires Expects(s, n, host)
    ensures TaskStep(s, log, i, Probing(n, host, tries, Sleeping), Refused)
            == Change(s, log, if tries >= 14 then Probing(n, host, tries, Losing)
                              else Probing(n, host, tries + 1, Expected), [])
    ensures TaskStep(s, log, i, Probing(n, host, tries, Losing), last)
            == Change(Mark(s, n, host, Failed, Saved(last)), log, Over, [])
  {
    hide Expects, Mark, Saved;
  }

  lemma TlsStep(s: Store, log: Log, i: nat, n: string, host: string, tries: nat, tls: bool)
    ensures TaskStep(s, log, i, Probing(n, host, tries, Expected), AnswerOf(tls))
            == if tls then Change(s, See(log, TlsReached(i, tries)), Probing(n, host, tries, TlsOk), [])
               else Change(s, log, Probing(n, host, tries, Sleeping), [])
  {
  }

  lemma AnswersUnfold(replies: seq<Reply>, secret: string, last: CdnSystem.Answer)
    ensures ProbeAnswers(replies, secret, last)
            == if replies == [] then [Refused] + [last]
               else
                 var r, rest := replies[0], ProbeAnswers(replies[1..], secret, last);
                 [Refused] + ([AnswerOf(r.tls)] +
                  (if !r.tls then rest
                   else [Refused] + (if secret == "" then [last]
                                     else [AnswerOf(r.relay)] + if r.relay then [last] else rest)))
  {
  }

  lemma NoneReaches(secret: string)
    ensures !SomeReaches([], secret)
  {
  }

  /** One try from its TLS success on. */
  lemma {:induction false} TlsAlone(
    s: Store, log: Log, i: nat, n: string, host: string, tries: nat, rest: seq<Reply>, relay: bool,
    last: CdnSystem.Answer)
    requires Expects(s, n, host) && tries + |rest| == MAX_TRIES
    ensures var secret := PathSecretFor(s, n, host);
            var more := if secret == "" then [last]
                        else [AnswerOf(relay)] + if relay then [last] else ProbeAnswers(rest, secret, last);
            var c := Alone(s, log, i, Probing(n, host, tries, TlsOk), [Refused] + more);
            && c.task == Over && c.spawned == []
            && var status := if secret == "" || relay || SomeReaches(rest, secret) then Active else Failed;
               c.store == Mark(s, n, host, status, Saved(last))
    decreases |rest|, 1
  {
    hide Alone, Expects, PathSecretFor, Mark, Saved, SomeReaches, ProbeAnswers;
    var secret, tls := PathSecretFor(s, n, host), Probing(n, host, tries, TlsOk);
    var more := if secret == "" then [last]
                else [AnswerOf(relay)] + if relay then [last] else ProbeAnswers(rest, secret, last);
    AloneStep(s, log, i, tls, Refused, more);
    var c := TaskStep(s, log, i, tls, Refused);
    if secret == "" {
      WinnerAlone(s, c.log, i, n, host, tries, last);
    } else {
      AloneStep(s, c.log, i, c.task, AnswerOf(relay), if relay then [last] else ProbeAnswers(rest, secret, last));
      if relay {
        WinnerAlone(s, See(c.log, RelayReached(i, tries)), i, n, host, tries, last);
      } else {
        ProbeAlone(s, c.log, i, n, host, tries, rest, last);
      }
    }
  }

  lemma WinnerAlone(s: Store, log: Log, i: nat, n: string, host: string, tries: nat, last: CdnSystem.Answer)
    ensures var c := Alone(s, log, i, Probing(n, host, tries, Winning), [last]);
            c.task == Over && c.spawned == [] && c.store == Mark(s, n, host, Active, Saved(last))
  {
    hide Alone, Mark, Saved;
    assert [last] + [] == [last];
    AloneStep(s, log, i, Probing(n, host, tries, Winning), last, []);
    var c := TaskStep(s, log, i, Probing(n, host, tries, Winning), last);
    AloneNone(c.store, c.log, i, Over);
  }

  /** A probe whose record stays as it is ends with that record active exactly when one of its
      fourteen tries reaches TLS and, unless there is no secret, the relay; else the record has
      failed. Nothing else changes but the file, when the save succeeds. */
  lemma ProbeWhole(w: World, i: nat, n: string, host: string, replies: seq<Reply>, last: CdnSystem.Answer)
    requires i < |w.tasks| && w.tasks[i] == Probing(n, host, 0, Sleeping) && |replies| == 14
    requires n in w.store.deployments && w.store.deployments[n].customHost == host
    ensures var s, r := w.store, w.store.deployments[n];
            var secret := GoTrim(r.pathSecret);
            var w' := Run(w, Continues(i, ProbeAnswers(replies, secret, last)));
            var ready := exists k | 0 <= k < 14 :: replies[k].tls && (secret == "" || replies[k].relay);
            var after := s.deployments[n := r.(status := if ready then Active else Failed)];
            && w'.tasks == w.tasks[i := Over]
            && w'.store.deployments == after && w'.store.cfg == s.cfg
            && (after != s.deployments ==>
                  w'.store.disk.deployments == if last.Persisted? && last.saved then after else s.disk.deployments)
  {
    hide GoTrim, Alone, ProbeAnswers, Continues;
    var secret := GoTrim(w.store.deployments[n].pathSecret);
    var answers := ProbeAnswers(replies, secret, last);
    AloneRuns(w, i, answers);
    ProbeAlone(w.store, w.log, i, n, host, 0, replies, last);
    assert w.tasks[i := Over] + [] == w.tasks[i := Over];
  }

  /** A probe whose record is gone or has another host leaves everything alone. */
  lemma StaleProbeStops(w: World, i: nat, a: CdnSystem.Answer)
    requires i < |w.tasks| && w.tasks[i].Probing? && w.tasks[i].stage == Sleeping && w.tasks[i].tries < 14
    ensures var t := w.tasks[i];
            t.nodeID !in w.store.deployments || w.store.deployments[t.nodeID].customHost != t.host ==>
              Step(w, Continue(i, a)) == w.(tasks := w.tasks[i := Over])
  {
  }
}
