/** What the menu settles to: a second invariant of every step of the tray system. */
module TrayConvergence {
  import opened TrayDecoder
  import opened TrayProtocol
  import opened TrayRebuild
  import opened TraySystem

  /** The sidecar once everything written or about to be written has been read. */
  function Settled(s: Sys): Side {
    Run(s.side, s.pipe + Sends(s.work))
  }

  /** The ids on screen, the sidecar's id table and the handler map agree. */
  predicate IdsAgree(t: Side, handlers: map<string, Handler>) {
    (set id | id in Ids(t.menu)) == t.items.Keys == handlers.Keys
  }

  predicate Converging(s: Sys) {
    s.whole ==>
      && Erase(Settled(s).menu) == s.wanted
      && IdsAgree(Settled(s), Registered(s.handlers, s.work))
  }

  lemma {:induction false} IdsAsSet(n: nat, count: nat)
    ensures (set id | id in IdsFrom(n, count)) == IdSet(n, count)
  {
    hide NextId;
    if count > 0 { IdsAsSet(n, count - 1); }
  }

  lemma RebuildConverges(s: Sys, ms: seq<MenuItem>)
    requires Converging(s) && s.work == []
    ensures Converging(Rebuild(s, ms))
  {
    hide *;
    var s1 := Run(s.side, s.pipe);
    SetsAgree(Run(s1, Sends(UpdateActions(ms, s.idSeq))), Registered(s.handlers, UpdateActions(ms, s.idSeq)));
    RunConcat(s.side, s.pipe, Sends(UpdateActions(ms, s.idSeq)));
    RebuildShowsForest(s1, s.handlers, ms, s.idSeq);
    IdsAsSet(s.idSeq, CountAll(ms));
    RebuildFields(s, ms);
  }

  lemma SetsAgree(t: Side, handlers: map<string, Handler>)
    ensures IdsAgree(t, handlers) <==> (set id | id in Ids(t.menu)) == t.items.Keys == handlers.Keys
  {
  }

  lemma RebuildFields(s: Sys, ms: seq<MenuItem>)
    ensures var acts := UpdateActions(ms, s.idSeq);
            && (Converging(Rebuild(s, ms)) <==>
                (s.whole ==>
                  var t := Run(s.side, s.pipe + Sends(acts));
                  && Erase(t.menu) == VisibleMenu(ms)
                  && IdsAgree(t, Registered(s.handlers, acts))))
  {
  }

  /** Adding the fallback items to any settled menu. */
  lemma {:induction false} FallbacksConverge(t: Side, handlers: map<string, Handler>, fs: seq<Fallback>)
    requires IdsAgree(t, handlers)
    ensures Erase(Run(t, Sends(FallbackActions(fs))).menu) == Erase(t.menu) + FallbackShapes(fs)
    ensures IdsAgree(Run(t, Sends(FallbackActions(fs))), Registered(handlers, FallbackActions(fs)))
    decreases |fs|
  {
    hide *;
    if fs == [] {
      NoFallbacks(t, handlers);
    } else {
      OneMore(t, handlers, fs[0], FallbackShapes(fs[1..]));
      FallbacksConverge(Apply(t, FallbackAdd(fs[0])), handlers[fs[0].id := fs[0].handler], fs[1..]);
      FallbackUnfold(t, handlers, fs);
    }
  }

  function FallbackAdd(f: Fallback): Cmd {
    AddItem(f.id, f.title, f.title, false)
  }

  lemma NoFallbacks(t: Side, handlers: map<string, Handler>)
    ensures Run(t, Sends(FallbackActions([]))) == t && Registered(handlers, FallbackActions([])) == handlers
    ensures Erase(t.menu) + FallbackShapes([]) == Erase(t.menu)
  {
  }

  lemma FallbackUnfold(t: Side, handlers: map<string, Handler>, fs: seq<Fallback>)
    requires fs != []
    ensures Run(t, Sends(FallbackActions(fs))) == Run(Apply(t, FallbackAdd(fs[0])), Sends(FallbackActions(fs[1..])))
    ensures Registered(handlers, FallbackActions(fs))
            == Registered(handlers[fs[0].id := fs[0].handler], FallbackActions(fs[1..]))
    ensures FallbackShapes(fs) == [Labelled(fs[0].title, fs[0].title, false, [])] + FallbackShapes(fs[1..])
  {
    hide Apply;
    var rest := FallbackActions(fs[1..]);
    var add := FallbackAdd(fs[0]);
    var acts := FallbackActions(fs);
    assert acts[1..] == [Send(add)] + rest && acts[1..][1..] == rest;
    assert Sends(acts) == [] + ([add] + Sends(rest)) == [add] + Sends(rest);
    assert ([add] + Sends(rest))[1..] == Sends(rest);
  }

  lemma OneMore(t: Side, handlers: map<string, Handler>, f: Fallback, more: seq<Shape>)
    requires IdsAgree(t, handlers)
    ensures Erase(Apply(t, FallbackAdd(f)).menu) + more
            == Erase(t.menu) + ([Labelled(f.title, f.title, false, [])] + more)
    ensures IdsAgree(Apply(t, FallbackAdd(f)), handlers[f.id := f.handler])
  {
    var e := Node(t.next, f.id, f.title, f.title, false, []);
    EraseConcat(t.menu, [e]);
    assert [e][1..] == [];
    assert Ids([e]) == [e.id];
    assert Erase([e]) == [Labelled(f.title, f.title, false, [])];
  }

  lemma StartConverges(s: Sys, icon: string)
    requires Converging(s) && s.work == []
    ensures Converging(Start(s, icon))
  {
    if s.whole {
      var t := Run(s.side, s.pipe);
      assert s.pipe + Sends([]) == s.pipe;
      assert Settled(s) == t && Registered(s.handlers, s.work) == s.handlers;
      FallbacksConverge(t, s.handlers, FALLBACKS);
      StartUnfold(t, s.handlers, icon);
      RunConcat(s.side, s.pipe, Sends(StartActions(icon)));
    }
  }

  lemma StartUnfold(t: Side, handlers: map<string, Handler>, icon: string)
    ensures Run(t, Sends(StartActions(icon))) == Run(t, Sends(FallbackActions(FALLBACKS)))
    ensures Registered(handlers, StartActions(icon)) == Registered(handlers, FallbackActions(FALLBACKS))
  {
    hide FallbackActions;
    var rest := FallbackActions(FALLBACKS);
    var acts := StartActions(icon);
    assert acts[1..] == rest;
    assert Sends(acts)[1..] == Sends(rest);
  }

  lemma ActSettles(s: Sys)
    requires s.work != []
    ensures Settled(Act(s, false)) == Settled(s)
    ensures Registered(Act(s, false).handlers, Act(s, false).work) == Registered(s.handlers, s.work)
  {
    if s.work[0].Send? {
      assert s.pipe + Sends(s.work) == (s.pipe + [s.work[0].cmd]) + Sends(s.work[1..]);
    } else {
      assert Sends(s.work) == Sends(s.work[1..]);
    }
  }

  lemma ConsumeSettles(s: Sys)
    requires s.pipe != []
    ensures Settled(Consume(s)) == Settled(s)
  {
    assert (s.pipe + Sends(s.work))[1..] == s.pipe[1..] + Sends(s.work);
  }

  lemma DecorateSettles(s: Sys, c: Cmd)
    requires Decoration(c) && s.work == []
    ensures Settled(s.(work := [Send(c)])) == Settled(s)
    ensures Registered(s.handlers, [Send(c)]) == Registered(s.handlers, s.work)
  {
    assert [Send(c)][1..] == [];
    assert Sends([Send(c)]) == [c] + Sends([]) == [c];
    RunConcat(s.side, s.pipe, [c]);
    assert s.pipe + [] == s.pipe && [c][1..] == [];
  }

  lemma StepConverges(s: Sys, l: Label, s': Sys)
    requires Converging(s) && Step(s, l, s')
    ensures Converging(s')
  {
    hide Erase;
    hide Ids;
    hide UpdateActions;
    hide Registered;
    match l
    case LRebuild(ms) => RebuildConverges(s, ms);
    case LStart(icon) => StartConverges(s, icon);
    case LDecorate(c) => DecorateSettles(s, c);
    case LAct(lost) => if s'.whole { ActKeepsWhole(s, lost); ActSettles(s); }
    case LConsume => ConsumeSettles(s);
    case LClick(e) =>
    case LDeliver =>
  }

  lemma ActKeepsWhole(s: Sys, lost: bool)
    requires s.work != [] && Act(s, lost).whole
    ensures s.whole && Act(s, lost) == Act(s, false)
  {
  }
}
