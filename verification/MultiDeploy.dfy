/** Parallel deployment: one goroutine per option, at most three creating at a time. */
module MultiDeploy {
  import opened Seqs

  const SLOTS := 3

  datatype Outcome = Created(id: string) | Failed(error: string)

  datatype DeployResult = DeployResult(id: string, success: bool, error: string)

  function Report(o: Outcome): DeployResult {
    match o
    case Created(id) => DeployResult(id, true, "")
    case Failed(error) => DeployResult("", false, error)
  }

  const BLANK := DeployResult("", false, "")

  /** Where a goroutine is: before the semaphore, inside CreateInstance, back with an answer, after
      writing its slot, after leaving the semaphore, after wg.Done. */
  datatype Phase = Waiting | Inside | Answered(outcome: Outcome) | Stored | Released | Finished

  datatype Call = Call(index: nat, option: string, answer: Outcome)

  /** The shared state. `calls` records every answer CreateInstance gave. */
  datatype Group = Group(
    options: seq<string>, tasks: seq<Phase>, sem: nat, wg: nat,
    results: seq<DeployResult>, calls: seq<Call>, returned: bool)

  function Blanks(n: nat): (rs: seq<DeployResult>)
    ensures |rs| == n && forall i | 0 <= i < n :: rs[i] == BLANK
  {
    if n == 0 then [] else Blanks(n - 1) + [BLANK]
  }

  function Begin(options: seq<string>): Group {
    Group(options, [], 0, 0, Blanks(|options|), [], false)
  }

  datatype Move = Spawn | Advance(index: nat, answer: Outcome) | Return

  predicate Enabled(g: Group, m: Move) {
    match m
    case Spawn => |g.tasks| < |g.options|
    case Advance(i, o) =>
      i < |g.tasks| && g.tasks[i] != Finished && (g.tasks[i] == Waiting ==> g.sem < SLOTS)
    case Return => |g.tasks| == |g.options| && g.wg == 0 && !g.returned
  }

  predicate Shaped(g: Group) {
    |g.tasks| <= |g.options| == |g.results|
  }

  function Next(phase: Phase, answer: Outcome): Phase {
    match phase
    case Waiting => Inside
    case Inside => Answered(answer)
    case Answered(_) => Stored
    case Stored => Released
    case Released => Finished
    case Finished => Finished
  }

  function Move1(g: Group, i: nat, o: Outcome): (g': Group)
    requires Shaped(g) && i < |g.tasks|
    ensures Shaped(g') && g'.options == g.options
  {
    var phase := g.tasks[i];
    var h := g.(tasks := g.tasks[i := Next(phase, o)]);
    match phase
    case Waiting => h.(sem := g.sem + 1)
    case Inside => h.(calls := g.calls + [Call(i, g.options[i], o)])
    case Answered(answer) => h.(results := g.results[i := Report(answer)])
    case Stored => h.(sem := if g.sem == 0 then 0 else g.sem - 1)
    case Released => h.(wg := if g.wg == 0 then 0 else g.wg - 1)
    case Finished => h
  }

  function Perform(g: Group, m: Move): (g': Group)
    requires Shaped(g) && Enabled(g, m)
    ensures Shaped(g') && g'.options == g.options
  {
    match m
    case Spawn => g.(tasks := g.tasks + [Waiting], wg := g.wg + 1)
    case Advance(i, o) => Move1(g, i, o)
    case Return => g.(returned := true)
  }

  /** A run: each move enabled when it is made. */
  predicate Runs(g: Group, moves: seq<Move>)
    requires Shaped(g)
    decreases |moves|
  {
    moves == [] || (Enabled(g, moves[0]) && Runs(Perform(g, moves[0]), moves[1..]))
  }

  function After(g: Group, moves: seq<Move>): (g': Group)
    requires Shaped(g) && Runs(g, moves)
    ensures Shaped(g') && g'.options == g.options
    decreases |moves|
  {
    if moves == [] then g else After(Perform(g, moves[0]), moves[1..])
  }

  // ---------------------------------------------------------------- the invariant

  function InSlot(): Phase -> bool {
    (p: Phase) => p == Inside || p.Answered? || p == Stored
  }

  function Creating(): Phase -> bool {
    (p: Phase) => p == Inside
  }

  function Open(): Phase -> bool {
    (p: Phase) => p != Finished
  }

  /** The answers CreateInstance gave to the goroutine of option i. */
  function AnswersTo(calls: seq<Call>, i: nat): seq<Outcome> {
    if calls == [] then []
    else
      var c, rest := calls[|calls| - 1], AnswersTo(calls[..|calls| - 1], i);
      if c.index == i then rest + [c.answer] else rest
  }

  /** What the shared state says about option i. */
  predicate SlotRight(g: Group, i: nat)
    requires Shaped(g) && i < |g.options|
  {
    var answers := AnswersTo(g.calls, i);
    if i >= |g.tasks| || g.tasks[i] == Waiting || g.tasks[i] == Inside then answers == [] && g.results[i] == BLANK
    else if g.tasks[i].Answered? then answers == [g.tasks[i].outcome] && g.results[i] == BLANK
    else |answers| == 1 && g.results[i] == Report(answers[0])
  }

  predicate CallsRight(g: Group) {
    forall c | c in g.calls :: c.index < |g.options| && c.option == g.options[c.index]
  }

  predicate SlotsRight(g: Group)
    requires Shaped(g)
  {
    forall i: nat | i < |g.options| :: SlotRight(g, i)
  }

  predicate Counted(g: Group) {
    && g.sem == CountIf(g.tasks, InSlot()) && g.sem <= SLOTS
    && g.wg == CountIf(g.tasks, Open())
    && (g.returned ==> |g.tasks| == |g.options| && g.wg == 0)
  }

  predicate Inv(g: Group)
    requires Shaped(g)
  {
    Counted(g) && CallsRight(g) && SlotsRight(g)
  }

  lemma AnswersAppend(calls: seq<Call>, c: Call, i: nat)
    ensures AnswersTo(calls + [c], i)
            == if c.index == i then AnswersTo(calls, i) + [c.answer] else AnswersTo(calls, i)
  {
    var more := calls + [c];
    assert more[..|more| - 1] == calls;
  }

  lemma AppendTask(tasks: seq<Phase>, p: Phase -> bool)
    ensures CountIf(tasks + [Waiting], p) == CountIf(tasks, p) + if p(Waiting) then 1 else 0
  {
    CountConcat(tasks, [Waiting], p);
    assert [Waiting][1..] == [];
  }

  lemma CountedKept(g: Group, m: Move)
    requires Shaped(g) && Counted(g) && Enabled(g, m)
    ensures Counted(Perform(g, m))
  {
    match m
    case Spawn =>
      AppendTask(g.tasks, InSlot());
      AppendTask(g.tasks, Open());
    case Advance(i, o) =>
      CountUpdate(g.tasks, i, Next(g.tasks[i], o), InSlot());
      CountUpdate(g.tasks, i, Next(g.tasks[i], o), Open());
    case Return =>
  }

  lemma SlotKept(g: Group, m: Move, j: nat)
    requires Shaped(g) && Enabled(g, m) && j < |g.options| && SlotRight(g, j)
    ensures SlotRight(Perform(g, m), j)
  {
    if m.Advance? {
      AnswersAppend(g.calls, Call(m.index, g.options[m.index], m.answer), j);
    }
  }

  lemma InvKept(g: Group, m: Move)
    requires Shaped(g) && Inv(g) && Enabled(g, m)
    ensures Inv(Perform(g, m))
  {
    CountedKept(g, m);
    hide SlotRight, Counted;
    forall j: nat | j < |g.options| ensures SlotRight(Perform(g, m), j) {
      SlotKept(g, m, j);
    }
  }

  lemma {:induction false} InvAfter(g: Group, moves: seq<Move>)
    requires Shaped(g) && Inv(g) && Runs(g, moves)
    ensures Inv(After(g, moves)) && After(g, moves).options == g.options
    decreases |moves|
  {
    hide Inv, Enabled;
    if moves != [] {
      InvKept(g, moves[0]);
      InvAfter(Perform(g, moves[0]), moves[1..]);
    }
  }

  lemma InvAtStart(options: seq<string>)
    ensures Inv(Begin(options))
  {
  }

  // ---------------------------------------------------------------- results

  lemma {:induction false} CreatingWithinSlots(tasks: seq<Phase>)
    ensures CountIf(tasks, Creating()) <= CountIf(tasks, InSlot())
  {
    if tasks != [] {
      CreatingWithinSlots(tasks[1..]);
    }
  }

  /** Never more than three goroutines inside CreateInstance. */
  lemma AtMostThreeCreate(options: seq<string>, moves: seq<Move>)
    requires Runs(Begin(options), moves)
    ensures CountIf(After(Begin(options), moves).tasks, Creating()) <= 3
  {
    InvAtStart(options);
    InvAfter(Begin(options), moves);
    CreatingWithinSlots(After(Begin(options), moves).tasks);
  }

  /** A goroutine that waits may go in exactly when fewer than three are between entering and leaving. */
  lemma WaitingEntersIff(options: seq<string>, moves: seq<Move>, i: nat, o: Outcome)
    requires Runs(Begin(options), moves)
    requires i < |After(Begin(options), moves).tasks| && After(Begin(options), moves).tasks[i] == Waiting
    ensures var g := After(Begin(options), moves);
            Enabled(g, Advance(i, o))
            <==> CountIf(g.tasks, (p: Phase) => p == Inside || p.Answered? || p == Stored) < 3
  {
    InvAtStart(options);
    InvAfter(Begin(options), moves);
    var inside := (p: Phase) => p == Inside || p.Answered? || p == Stored;
    CountSame(After(Begin(options), moves).tasks, InSlot(), inside);
  }

  lemma {:induction false} CountSame(tasks: seq<Phase>, p: Phase -> bool, q: Phase -> bool)
    requires forall x :: p(x) == q(x)
    ensures CountIf(tasks, p) == CountIf(tasks, q)
  {
    if tasks != [] {
      CountSame(tasks[1..], p, q);
    }
  }

  /** Until the call returns, some move is enabled, whatever happened so far. */
  lemma NeverStuck(options: seq<string>, moves: seq<Move>) returns (m: Move)
    requires Runs(Begin(options), moves) && !After(Begin(options), moves).returned
    ensures Enabled(After(Begin(options), moves), m)
  {
    InvAtStart(options);
    InvAfter(Begin(options), moves);
    var g := After(Begin(options), moves);
    CountZero(g.tasks, Open());
    CountZero(g.tasks, InSlot());
    if |g.tasks| < |g.options| {
      m := Spawn;
    } else if g.wg == 0 {
      m := Return;
    } else if g.sem == 0 {
      var i :| 0 <= i < |g.tasks| && Open()(g.tasks[i]);
      m := Advance(i, Failed(""));
    } else {
      var i :| 0 <= i < |g.tasks| && InSlot()(g.tasks[i]);
      m := Advance(i, Failed(""));
    }
  }

  function Rank(p: Phase): nat {
    match p
    case Waiting => 5
    case Inside => 4
    case Answered(_) => 3
    case Stored => 2
    case Released => 1
    case Finished => 0
  }

  function Ranks(tasks: seq<Phase>): nat {
    if tasks == [] then 0 else Rank(tasks[0]) + Ranks(tasks[1..])
  }

  /** How many moves are still possible. */
  function Left(g: Group): nat
    requires Shaped(g)
  {
    6 * (|g.options| - |g.tasks|) + Ranks(g.tasks) + if g.returned then 0 else 1
  }

  lemma {:induction false} RanksUpdate(tasks: seq<Phase>, i: nat, p: Phase)
    requires i < |tasks|
    ensures Ranks(tasks[i := p]) + Rank(tasks[i]) == Ranks(tasks) + Rank(p)
  {
    if i == 0 {
      assert tasks[i := p][1..] == tasks[1..];
    } else {
      assert tasks[i := p][1..] == tasks[1..][i - 1 := p];
      RanksUpdate(tasks[1..], i - 1, p);
    }
  }

  lemma {:induction false} RanksAppend(tasks: seq<Phase>, p: Phase)
    ensures Ranks(tasks + [p]) == Ranks(tasks) + Rank(p)
  {
    if tasks == [] {
      assert [p][1..] == [];
      assert [] + [p] == [p];
    } else {
      assert (tasks + [p])[1..] == tasks[1..] + [p];
      RanksAppend(tasks[1..], p);
    }
  }

  lemma EachMoveCounts(g: Group, m: Move)
    requires Shaped(g) && Enabled(g, m)
    ensures Left(Perform(g, m)) == Left(g) - 1
  {
    match m
    case Spawn => RanksAppend(g.tasks, Waiting);
    case Advance(i, o) => RanksUpdate(g.tasks, i, Next(g.tasks[i], o));
    case Return =>
  }

  lemma {:induction false} MovesCounted(g: Group, moves: seq<Move>)
    requires Shaped(g) && Runs(g, moves)
    ensures |moves| + Left(After(g, moves)) == Left(g)
    decreases |moves|
  {
    hide Enabled, Left;
    if moves != [] {
      EachMoveCounts(g, moves[0]);
      MovesCounted(Perform(g, moves[0]), moves[1..]);
    }
  }

  lemma {:induction false} NothingLeft(tasks: seq<Phase>)
    requires CountIf(tasks, Open()) == 0
    ensures Ranks(tasks) == 0
  {
    if tasks != [] {
      NothingLeft(tasks[1..]);
    }
  }

  /** A run returns after exactly six moves for each option and one for the return itself; with
      NeverStuck, every schedule that keeps going gets there. */
  lemma ReturnsAfterSixMovesEach(options: seq<string>, moves: seq<Move>)
    requires Runs(Begin(options), moves)
    ensures After(Begin(options), moves).returned <==> |moves| == 6 * |options| + 1
    ensures |moves| <= 6 * |options| + 1
  {
    InvAtStart(options);
    InvAfter(Begin(options), moves);
    MovesCounted(Begin(options), moves);
    var g := After(Begin(options), moves);
    if g.returned {
      NothingLeft(g.tasks);
    }
  }

  /** On return, CreateInstance has been called exactly once for each option, with that option, and
      slot i reports the answer given to option i, whatever order the goroutines ran in. */
  lemma SlotsHoldOwnOutcome(options: seq<string>, moves: seq<Move>, i: nat)
    requires Runs(Begin(options), moves) && After(Begin(options), moves).returned && i < |options|
    ensures var g := After(Begin(options), moves);
            && |AnswersTo(g.calls, i)| == 1
            && g.results[i] == (match AnswersTo(g.calls, i)[0]
                                case Created(id) => DeployResult(id, true, "")
                                case Failed(error) => DeployResult("", false, error))
            && (forall c | c in g.calls && c.index == i :: c.option == options[i])
  {
    InvAtStart(options);
    InvAfter(Begin(options), moves);
    var g := After(Begin(options), moves);
    CountZero(g.tasks, Open());
    assert Open()(g.tasks[i]) <==> g.tasks[i] != Finished;
    assert g.tasks[i] in g.tasks;
    assert SlotRight(g, i);
  }

  // ---------------------------------------------------------------- the code

  /** The memory the goroutines share; each method is one of their atomic actions. */
  class Deployment {
    const options: seq<string>
    var sem: nat
    var wg: nat
    var results: array<DeployResult>
    ghost var tasks: seq<Phase>
    ghost var calls: seq<Call>
    ghost var returned: bool

    constructor (options: seq<string>)
      ensures Value() == Begin(options) && fresh(results)
    {
      this.options := options;
      sem, wg := 0, 0;
      results := new DeployResult[|options|](_ => BLANK);
      tasks, calls, returned := [], [], false;
      new;
      assert results[..] == Blanks(|options|);
    }

    ghost function Value(): Group
      reads this, results
    {
      Group(options, tasks, sem, wg, results[..], calls, returned)
    }

    method Spawned()
      requires Shaped(Value()) && Enabled(Value(), Spawn)
      modifies this`wg, this`tasks
      ensures Value() == Perform(old(Value()), Spawn)
    {
      wg := wg + 1;
      tasks := tasks + [Waiting];
    }

    /** sem <- struct{}{}: blocks until a slot is free. */
    method Acquire(idx: nat, ghost o: Outcome)
      requires Shaped(Value()) && Enabled(Value(), Advance(idx, o)) && tasks[idx] == Waiting
      modifies this`sem, this`tasks
      ensures Value() == Perform(old(Value()), Advance(idx, o))
    {
      sem := sem + 1;
      tasks := tasks[idx := Inside];
    }

    /** CreateInstance answers. */
    method Create(idx: nat, o: Outcome)
      requires Shaped(Value()) && Enabled(Value(), Advance(idx, o)) && tasks[idx] == Inside
      modifies this`calls, this`tasks
      ensures Value() == Perform(old(Value()), Advance(idx, o))
    {
      calls := calls + [Call(idx, options[idx], o)];
      tasks := tasks[idx := Answered(o)];
    }

    /** The write to results[idx] with the answer in hand. */
    method Store(idx: nat, o: Outcome)
      requires Shaped(Value()) && Enabled(Value(), Advance(idx, o)) && tasks[idx] == Answered(o)
      modifies results, this`tasks
      ensures Value() == Perform(old(Value()), Advance(idx, o))
    {
      if o.Failed? {
        results[idx] := DeployResult("", false, o.error);
      } else {
        results[idx] := DeployResult(o.id, true, "");
      }
      tasks := tasks[idx := Stored];
    }

    /** The deferred <-sem, run before the deferred wg.Done. */
    method Release(idx: nat, ghost o: Outcome)
      requires Shaped(Value()) && Inv(Value()) && Enabled(Value(), Advance(idx, o)) && tasks[idx] == Stored
      modifies this`sem, this`tasks
      ensures Value() == Perform(old(Value()), Advance(idx, o))
    {
      CountZero(tasks, InSlot());
      assert InSlot()(tasks[idx]);
      sem := sem - 1;
      tasks := tasks[idx := Released];
    }

    method Done(idx: nat, ghost o: Outcome)
      requires Shaped(Value()) && Inv(Value()) && Enabled(Value(), Advance(idx, o)) && tasks[idx] == Released
      modifies this`wg, this`tasks
      ensures Value() == Perform(old(Value()), Advance(idx, o))
    {
      CountZero(tasks, Open());
      assert Open()(tasks[idx]);
      wg := wg - 1;
      tasks := tasks[idx := Finished];
    }
  }
}
