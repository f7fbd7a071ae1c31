/** What a rebuild does to the sidecar: consuming the commands of UpdateTrayMenus yields exactly
    the visible forest, and the two processes end up with the same ids. */
module TrayRebuild {
  import opened TrayDecoder
  import opened TrayProtocol

  // ---------------------------------------------------------------- consuming the top level

  /** The sidecar after new top-level entries es. */
  function AfterTop(s: Side, es: seq<Entry>, n: nat, count: nat): Side {
    Side(s.menu + es, s.items + IdMap(n, count, s.next), s.next + count)
  }

  lemma ConsumeTop(s: Side, m: MenuItem, n: nat)
    requires HandlesWithin(s.menu, 0, s.next)
    ensures Run(s, Sends(Actions(m, "", n)))
            == AfterTop(s, View(m, n, s.next) + Separators(SeparatorsIn(m)), n, Count(m))
  {
    hide NextId;
    hide Run;
    hide Sends;
    if Shown(m) {
      TopItem(s, m, n);
      ItemSends(m, "", n, s);
      ConsumeKids(Apply(s, AddCmd(m, "", NextId(n))), m.children, n, s.next, n + 1);
    } else {
      ConsumePlain(s, m, "", n);
      assert s.items + IdMap(n, 0, s.next) == s.items;
      assert View(m, n, s.next) + Separators(SeparatorsIn(m)) == Separators(SeparatorsIn(m));
    }
  }

  lemma TopItem(s: Side, m: MenuItem, n: nat)
    requires HandlesWithin(s.menu, 0, s.next) && Shown(m)
    ensures var s1 := Apply(s, AddCmd(m, "", NextId(n)));
            && ParentReady(s1, n, s.next, n + 1) && s1.next == s.next + 1
            && AfterKids(s1, s.next, KidsView(m.children, n + 1, s.next + 1), SeparatorsIn(m), n + 1,
                         CountAll(m.children))
               == AfterTop(s, View(m, n, s.next) + Separators(SeparatorsIn(m)), n, Count(m))
  {
    hide NextId;
    hide AppendKids;
    hide KidsView;
    hide Separators;
    hide SeparatorsIn;
    hide IdMap;
    var leaf := NodeOf(m, n, s.next, []);
    var s1 := Apply(s, AddCmd(m, "", NextId(n)));
    assert s1 == Side(s.menu + [leaf], s.items[NextId(n) := s.next], s.next + 1);
    assert HandlesWithin(s1.menu, 0, s.next + 1) by {
      WithinWider(s.menu, 0, s.next, 0, s.next + 1);
      LeafWithin(leaf, s.next + 1);
      WithinConcat(s.menu, [leaf], 0, s.next + 1);
    }
    hide HandlesWithin;
    TopMenu(s.menu, leaf, KidsView(m.children, n + 1, s.next + 1), Separators(SeparatorsIn(m)));
    IdMapPrepend(s.items, n, CountAll(m.children), s.next);
  }

  lemma TopMenu(menu: seq<Entry>, e: Entry, kids: seq<Entry>, q: seq<Entry>)
    requires e.Node? && e.kids == [] && HandlesWithin(menu, 0, e.handle)
    ensures AppendKids(menu + [e], e.handle, kids) + q == menu + ([e.(kids := kids)] + q)
  {
    AppendConcat(menu, [e], e.handle, kids);
    AppendAbsent(menu, 0, e.handle, e.handle, kids);
    FilledLeaf(e, kids);
  }

  lemma {:induction false} ConsumeForest(s: Side, ms: seq<MenuItem>, n: nat)
    requires HandlesWithin(s.menu, 0, s.next)
    ensures Run(s, Sends(ForestActions(ms, "", n))) == AfterTop(s, RootView(ms, n, s.next), n, CountAll(ms))
    decreases ms
  {
    hide *;
    if ms == [] {
      UnfoldNone("", n, s.next);
      AfterNoTop(s, n);
    } else {
      var m, c := ms[0], Count(ms[0]);
      var top := View(m, n, s.next) + Separators(SeparatorsIn(m));
      Unfold(ms, "", n, s.next);
      ConsumeTop(s, m, n);
      TopHandles(s, m, n);
      AfterTopParts(s, top, n, c);
      ConsumeForest(AfterTop(s, top, n, c), ms[1..], n + c);
      AfterTopTwice(s, top, n, c, RootView(ms[1..], n + c, s.next + c), CountAll(ms[1..]));
      RunForest(s, ms, "", n);
    }
  }

  lemma AfterTopParts(s: Side, es: seq<Entry>, n: nat, c: nat)
    ensures AfterTop(s, es, n, c).menu == s.menu + es && AfterTop(s, es, n, c).next == s.next + c
  {
  }

  lemma AfterNoTop(s: Side, n: nat)
    ensures AfterTop(s, [], n, 0) == s
  {
    assert s.items + IdMap(n, 0, s.next) == s.items;
  }

  lemma AfterTopTwice(s: Side, es: seq<Entry>, n: nat, c: nat, es': seq<Entry>, c': nat)
    ensures AfterTop(AfterTop(s, es, n, c), es', n + c, c') == AfterTop(s, es + es', n, c + c')
  {
    hide NextId;
    assert s.menu + es + es' == s.menu + (es + es');
    IdMapConcat(s.items, n, c, c', s.next);
  }

  lemma TopHandles(s: Side, m: MenuItem, n: nat)
    requires HandlesWithin(s.menu, 0, s.next)
    ensures HandlesWithin(s.menu + (View(m, n, s.next) + Separators(SeparatorsIn(m))), 0, s.next + Count(m))
  {
    var hi := s.next + Count(m);
    ViewHandles(m, n, s.next);
    hide View;
    hide HandlesWithin;
    WithinWider(View(m, n, s.next), s.next, hi, 0, hi);
    WithinWider(s.menu, 0, s.next, 0, hi);
    SeparatorsInert(SeparatorsIn(m), 0, []);
    WithinWider(Separators(SeparatorsIn(m)), 0, 0, 0, hi);
    WithinConcat(View(m, n, s.next), Separators(SeparatorsIn(m)), 0, hi);
    WithinConcat(s.menu, View(m, n, s.next) + Separators(SeparatorsIn(m)), 0, hi);
  }

  // ---------------------------------------------------------------- what is on screen

  lemma {:induction false} EraseConcat(a: seq<Entry>, b: seq<Entry>)
    ensures Erase(a + b) == Erase(a) + Erase(b)
    ensures Ids(a + b) == Ids(a) + Ids(b)
  {
    if a == [] {
      assert a + b == b;
    } else {
      assert (a + b)[1..] == a[1..] + b;
      EraseConcat(a[1..], b);
    }
  }

  lemma {:induction false} EraseSeparators(n: nat)
    ensures Erase(Separators(n)) == Lines(n) && Ids(Separators(n)) == []
  {
    if n > 0 {
      assert Separators(n)[1..] == Separators(n - 1);
      EraseSeparators(n - 1);
      assert Lines(n) == [Line] + Lines(n - 1);
    }
  }

  lemma {:induction false} IdsFromConcat(n: nat, a: nat, b: nat)
    ensures IdsFrom(n, a) + IdsFrom(n + a, b) == IdsFrom(n, a + b)
  {
    hide NextId;
    if b > 0 {
      IdsFromConcat(n, a, b - 1);
      assert n + (a + b) - 1 == n + a + b - 1;
    }
  }

  lemma {:induction false} ViewOnScreen(m: MenuItem, n: nat, h: nat)
    ensures Erase(View(m, n, h)) == VisibleKids([m])
    ensures Ids(View(m, n, h)) == IdsFrom(n, Count(m))
    decreases m
  {
    assert VisibleKids([m][1..]) == [];
    if Shown(m) {
      var kids := KidsView(m.children, n + 1, h + 1);
      KidsOnScreen(m.children, n + 1, h + 1);
      assert View(m, n, h)[1..] == [];
      assert Ids(View(m, n, h)) == [NextId(n)] + Ids(kids);
      IdsFromConcat(n, 1, CountAll(m.children));
      assert IdsFrom(n, 1) == [NextId(n)];
    }
  }

  lemma VisibleUnfold(ms: seq<MenuItem>)
    requires ms != []
    ensures VisibleKids(ms) == VisibleKids([ms[0]]) + VisibleKids(ms[1..])
    ensures VisibleMenu(ms) == VisibleKids([ms[0]]) + Lines(SeparatorsIn(ms[0])) + VisibleMenu(ms[1..])
  {
    assert [ms[0]][1..] == [];
    var one := if Shown(ms[0])
               then [Labelled(ms[0].text, ms[0].tooltip, ms[0].checked, VisibleKids(ms[0].children))] else [];
    assert one + VisibleKids([]) == one;
  }

  lemma NothingOnScreen(n: nat)
    ensures Erase([]) == VisibleKids([]) == VisibleMenu([]) == [] && Ids([]) == IdsFrom(n, 0) == []
  {
  }

  lemma {:induction false} KidsOnScreen(ms: seq<MenuItem>, n: nat, h: nat)
    ensures Erase(KidsView(ms, n, h)) == VisibleKids(ms)
    ensures Ids(KidsView(ms, n, h)) == IdsFrom(n, CountAll(ms))
    decreases ms
  {
    hide *;
    if ms == [] {
      UnfoldNone("", n, h);
      NothingOnScreen(n);
    } else {
      var c := Count(ms[0]);
      Unfold(ms, "", n, h);
      VisibleUnfold(ms);
      ViewOnScreen(ms[0], n, h);
      KidsOnScreen(ms[1..], n + c, h + c);
      EraseConcat(View(ms[0], n, h), KidsView(ms[1..], n + c, h + c));
      IdsFromConcat(n, c, CountAll(ms[1..]));
    }
  }

  lemma {:induction false} RootOnScreen(ms: seq<MenuItem>, n: nat, h: nat)
    ensures Erase(RootView(ms, n, h)) == VisibleMenu(ms)
    ensures Ids(RootView(ms, n, h)) == IdsFrom(n, CountAll(ms))
    decreases ms
  {
    hide *;
    if ms == [] {
      UnfoldNone("", n, h);
      NothingOnScreen(n);
    } else {
      var c := Count(ms[0]);
      var v, q, rest := View(ms[0], n, h), Separators(SeparatorsIn(ms[0])), RootView(ms[1..], n + c, h + c);
      Unfold(ms, "", n, h);
      VisibleUnfold(ms);
      ViewOnScreen(ms[0], n, h);
      RootOnScreen(ms[1..], n + c, h + c);
      EraseSeparators(SeparatorsIn(ms[0]));
      EraseConcat(v, q);
      EraseConcat(v + q, rest);
      IdsFromConcat(n, c, CountAll(ms[1..]));
      assert Ids(v) + [] == Ids(v);
    }
  }

  // ---------------------------------------------------------------- handlers

  lemma {:induction false} ActionsRegister(handlers: map<string, Handler>, m: MenuItem, parent: string, n: nat)
    ensures Registered(handlers, Actions(m, parent, n)).Keys
            == handlers.Keys + IdSet(n, Count(m))
    decreases m
  {
    hide NextId;
    if Shown(m) {
      var acts := Actions(m, parent, n);
      var inner := ForestActions(m.children, NextId(n), n + 1);
      assert acts[1..][1..] == inner;
      assert acts[1..][0].Send?;
      ForestRegisters(handlers[NextId(n) := ClickOf(m)], m.children, NextId(n), n + 1);
      IdSetConcat(n, 1, CountAll(m.children));
      assert IdSet(n, 1) == {NextId(n)};
    }
  }

  lemma NothingRegistered(handlers: map<string, Handler>, n: nat)
    ensures Registered(handlers, []) == handlers && IdSet(n, 0) == {}
  {
  }

  lemma {:induction false} ForestRegisters(handlers: map<string, Handler>, ms: seq<MenuItem>, parent: string, n: nat)
    ensures Registered(handlers, ForestActions(ms, parent, n)).Keys
            == handlers.Keys + IdSet(n, CountAll(ms))
    decreases ms
  {
    hide NextId;
    hide Registered;
    hide Actions;
    hide IdSet;
    if ms == [] {
      NothingRegistered(handlers, n);
    } else {
      var c, d := Count(ms[0]), CountAll(ms[1..]);
      var first, rest := Actions(ms[0], parent, n), ForestActions(ms[1..], parent, n + c);
      RegisteredConcat(handlers, first, rest);
      ActionsRegister(handlers, ms[0], parent, n);
      ForestRegisters(Registered(handlers, first), ms[1..], parent, n + c);
      IdSetConcat(n, c, d);
    }
  }

  // ---------------------------------------------------------------- main result

  /** Whatever the sidecar and the handler map were, once the commands of one UpdateTrayMenus are
      consumed the menu is exactly the visible forest, its items carry the ids handed out by the
      counter in depth-first order, and both id tables hold exactly these ids. */
  lemma RebuildShowsForest(s: Side, handlers: map<string, Handler>, ms: seq<MenuItem>, n: nat)
    ensures var acts := UpdateActions(ms, n);
            var s' := Run(s, Sends(acts));
            && Erase(s'.menu) == VisibleMenu(ms)
            && Ids(s'.menu) == IdsFrom(n, CountAll(ms))
            && s'.items.Keys == Registered(handlers, acts).Keys == IdSet(n, CountAll(ms))
            && HandlesWithin(s'.menu, 0, s'.next)
  {
    var body := ForestActions(ms, "", n);
    var cleared := Apply(s, ResetMenu);
    UpdateUnfold(s, handlers, ms, n);
    assert cleared.menu == [] && cleared.next == s.next && cleared.items == map[];
    NoHandles(0, s.next);
    hide *;
    ConsumeForest(cleared, ms, n);
    FromNothing(s.next, RootView(ms, n, s.next), n, CountAll(ms));
    RootOnScreen(ms, n, s.next);
    IdMapKeys(n, CountAll(ms), s.next);
    ForestRegisters(map[], ms, "", n);
    RootHandles(ms, n, s.next);
  }

  lemma UpdateUnfold(s: Side, handlers: map<string, Handler>, ms: seq<MenuItem>, n: nat)
    ensures Run(s, Sends(UpdateActions(ms, n))) == Run(Side([], map[], s.next), Sends(ForestActions(ms, "", n)))
    ensures Registered(handlers, UpdateActions(ms, n)) == Registered(map[], ForestActions(ms, "", n))
  {
    hide NextId;
    var body := ForestActions(ms, "", n);
    var acts := UpdateActions(ms, n);
    assert acts[1..] == [Send(ResetMenu)] + body && acts[1..][1..] == body;
    assert Sends(acts) == [] + ([ResetMenu] + Sends(body)) == [ResetMenu] + Sends(body);
    assert ([ResetMenu] + Sends(body))[1..] == Sends(body);
  }

  lemma FromNothing(h: nat, es: seq<Entry>, n: nat, count: nat)
    ensures AfterTop(Side([], map[], h), es, n, count) == Side(es, IdMap(n, count, h), h + count)
  {
    assert map[] + IdMap(n, count, h) == IdMap(n, count, h);
    assert [] + es == es;
  }

  lemma {:induction false} RootHandles(ms: seq<MenuItem>, n: nat, h: nat)
    ensures HandlesWithin(RootView(ms, n, h), 0, h + CountAll(ms))
    decreases ms
  {
    hide *;
    if ms == [] {
      NoHandles(0, h + CountAll(ms));
      UnfoldNone("", n, h);
    } else {
      var c, d := Count(ms[0]), CountAll(ms[1..]);
      var top := View(ms[0], n, h) + Separators(SeparatorsIn(ms[0]));
      Unfold(ms, "", n, h);
      RootHandles(ms[1..], n + c, h + c);
      FirstHandles(ms[0], n, h);
      WithinWider(top, 0, h + c, 0, h + c + d);
      WithinConcat(top, RootView(ms[1..], n + c, h + c), 0, h + c + d);
    }
  }

  lemma FirstHandles(m: MenuItem, n: nat, h: nat)
    ensures HandlesWithin(View(m, n, h) + Separators(SeparatorsIn(m)), 0, h + Count(m))
  {
    hide *;
    NoHandles(0, h);
    TopHandles(Side([], map[], h), m, n);
    var top := View(m, n, h) + Separators(SeparatorsIn(m));
    assert [] + top == top;
  }

  lemma NoHandles(lo: nat, hi: nat)
    ensures HandlesWithin([], lo, hi)
  {
  }
}
