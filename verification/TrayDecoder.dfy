/** The sidecar consuming the commands of a forest: ids, menus, and the children of an item. */
module TrayDecoder {
  import opened Text
  import opened TrayProtocol

  // ---------------------------------------------------------------- sequencing

  lemma {:induction false} RunConcat(s: Side, a: seq<Cmd>, b: seq<Cmd>)
    ensures Run(s, a + b) == Run(Run(s, a), b)
    decreases |a|
  {
    if a == [] {
      assert a + b == b;
    } else {
      assert (a + b)[1..] == a[1..] + b;
      RunConcat(Apply(s, a[0]), a[1..], b);
    }
  }

  lemma {:induction false} SendsConcat(a: seq<Action>, b: seq<Action>)
    ensures Sends(a + b) == Sends(a) + Sends(b)
  {
    if a == [] {
      assert a + b == b;
    } else {
      assert (a + b)[1..] == a[1..] + b;
      SendsConcat(a[1..], b);
    }
  }

  lemma RunOfBoth(s: Side, a: seq<Action>, b: seq<Action>)
    ensures Run(s, Sends(a + b)) == Run(Run(s, Sends(a)), Sends(b))
  {
    SendsConcat(a, b);
    RunConcat(s, Sends(a), Sends(b));
  }

  lemma {:induction false} RegisteredConcat(h: map<string, Handler>, a: seq<Action>, b: seq<Action>)
    ensures Registered(h, a + b) == Registered(Registered(h, a), b)
    decreases |a|
  {
    if a == [] {
      assert a + b == b;
    } else {
      assert (a + b)[1..] == a[1..] + b;
      RegisteredConcat(RegisterOne(h, a[0]), a[1..], b);
    }
  }

  // ---------------------------------------------------------------- ids

  lemma NextIdInjective(m: nat, n: nat)
    requires NextId(m) == NextId(n)
    ensures m == n
  {
    assert Decimal(m + 1) == NextId(m)[2..] == NextId(n)[2..] == Decimal(n + 1);
    DecimalInjective(m + 1, n + 1);
  }

  /** The ids of counter values n, n+1, ..., paired with consecutive handles. */
  function IdMap(n: nat, count: nat, h: nat): map<string, nat> {
    if count == 0 then map[]
    else IdMap(n, count - 1, h)[NextId(n + count - 1) := h + count - 1]
  }

  function IdsFrom(n: nat, count: nat): seq<string> {
    if count == 0 then [] else IdsFrom(n, count - 1) + [NextId(n + count - 1)]
  }

  function IdSet(n: nat, count: nat): set<string> {
    if count == 0 then {} else IdSet(n, count - 1) + {NextId(n + count - 1)}
  }

  lemma {:induction false} IdMapKeys(n: nat, count: nat, h: nat)
    ensures IdMap(n, count, h).Keys == IdSet(n, count)
  {
    if count > 0 { IdMapKeys(n, count - 1, h); }
  }

  lemma {:induction false} IdSetMember(n: nat, count: nat, k: nat)
    ensures NextId(k) in IdSet(n, count) <==> n <= k < n + count
  {
    if count > 0 {
      IdSetMember(n, count - 1, k);
      if NextId(k) == NextId(n + count - 1) { NextIdInjective(k, n + count - 1); }
    }
  }

  lemma {:induction false} IdSetConcat(n: nat, a: nat, b: nat)
    ensures IdSet(n, a) + IdSet(n + a, b) == IdSet(n, a + b)
  {
    hide NextId;
    if b > 0 { IdSetConcat(n, a, b - 1); }
  }

  lemma OlderIdAbsent(k: nat, n: nat, count: nat, h: nat)
    requires k < n
    ensures NextId(k) !in IdMap(n, count, h)
  {
    IdMapKeys(n, count, h);
    IdSetMember(n, count, k);
  }

  lemma MapPut<K, V>(m: map<K, V>, m': map<K, V>, k: K, v: V)
    ensures m + m'[k := v] == (m + m')[k := v]
  {
  }

  lemma {:induction false} IdMapConcat(items: map<string, nat>, n: nat, a: nat, b: nat, h: nat)
    ensures items + IdMap(n, a, h) + IdMap(n + a, b, h + a) == items + IdMap(n, a + b, h)
  {
    hide NextId;
    if b > 0 {
      IdMapConcat(items, n, a, b - 1, h);
      var id, v := NextId(n + a + b - 1), h + a + b - 1;
      MapPut(items + IdMap(n, a, h), IdMap(n + a, b - 1, h + a), id, v);
      MapPut(items, IdMap(n, a + b - 1, h), id, v);
    } else {
      assert items + IdMap(n, a, h) + map[] == items + IdMap(n, a, h);
    }
  }

  lemma IdMapPrepend(items: map<string, nat>, n: nat, count: nat, h: nat)
    ensures items[NextId(n) := h] + IdMap(n + 1, count, h + 1) == items + IdMap(n, count + 1, h)
  {
    IdMapConcat(items, n, 1, count, h);
    assert IdMap(n, 1, h) == IdMap(n, 0, h)[NextId(n) := h];
    assert items + IdMap(n, 1, h) == items[NextId(n) := h];
  }

  // ---------------------------------------------------------------- menus

  predicate HandlesWithin(es: seq<Entry>, lo: nat, hi: nat) {
    es != [] ==>
      && HandlesWithin(es[1..], lo, hi)
      && (es[0].Node? ==> lo <= es[0].handle < hi && HandlesWithin(es[0].kids, lo, hi))
  }

  lemma {:induction false} WithinWider(es: seq<Entry>, lo: nat, hi: nat, lo': nat, hi': nat)
    requires HandlesWithin(es, lo, hi) && lo' <= lo && hi <= hi'
    ensures HandlesWithin(es, lo', hi')
  {
    if es != [] {
      WithinWider(es[1..], lo, hi, lo', hi');
      if es[0].Node? { WithinWider(es[0].kids, lo, hi, lo', hi'); }
    }
  }

  lemma {:induction false} WithinConcat(a: seq<Entry>, b: seq<Entry>, lo: nat, hi: nat)
    requires HandlesWithin(a, lo, hi) && HandlesWithin(b, lo, hi)
    ensures HandlesWithin(a + b, lo, hi)
  {
    if a == [] {
      assert a + b == b;
    } else {
      assert (a + b)[1..] == a[1..] + b;
      WithinConcat(a[1..], b, lo, hi);
    }
  }

  lemma {:induction false} WithinAppend(m: seq<Entry>, p: nat, es: seq<Entry>, lo: nat, hi: nat)
    requires HandlesWithin(m, lo, hi) && HandlesWithin(es, lo, hi)
    ensures HandlesWithin(AppendKids(m, p, es), lo, hi)
  {
    if m != [] {
      WithinAppend(m[1..], p, es, lo, hi);
      if m[0].Node? {
        var kids := AppendKids(m[0].kids, p, es);
        WithinAppend(m[0].kids, p, es, lo, hi);
        WithinConcat(kids, es, lo, hi);
        assert kids + [] == kids;
      }
      assert AppendKids(m, p, es)[1..] == AppendKids(m[1..], p, es);
    }
  }

  function Separators(n: nat): seq<Entry> {
    if n == 0 then [] else [Separator] + Separators(n - 1)
  }

  lemma {:induction false} SeparatorsConcat(a: nat, b: nat)
    ensures Separators(a) + Separators(b) == Separators(a + b)
  {
    if a > 0 {
      SeparatorsConcat(a - 1, b);
      assert Separators(a) + Separators(b) == [Separator] + (Separators(a - 1) + Separators(b));
    } else {
      assert [] + Separators(b) == Separators(b);
    }
  }

  lemma {:induction false} SeparatorsInert(n: nat, p: nat, es: seq<Entry>)
    ensures AppendKids(Separators(n), p, es) == Separators(n)
    ensures HandlesWithin(Separators(n), 0, 0)
  {
    if n > 0 {
      assert Separators(n)[1..] == Separators(n - 1);
      SeparatorsInert(n - 1, p, es);
    }
  }

  lemma {:induction false} AppendConcat(a: seq<Entry>, b: seq<Entry>, p: nat, es: seq<Entry>)
    ensures AppendKids(a + b, p, es) == AppendKids(a, p, es) + AppendKids(b, p, es)
  {
    if a == [] {
      assert a + b == b;
    } else {
      assert (a + b)[1..] == a[1..] + b;
      AppendConcat(a[1..], b, p, es);
    }
  }

  lemma {:induction false} AppendAbsent(m: seq<Entry>, lo: nat, hi: nat, p: nat, es: seq<Entry>)
    requires HandlesWithin(m, lo, hi) && !(lo <= p < hi)
    ensures AppendKids(m, p, es) == m
  {
    if m != [] {
      AppendAbsent(m[1..], lo, hi, p, es);
      if m[0].Node? {
        AppendAbsent(m[0].kids, lo, hi, p, es);
        assert m[0].kids + [] == m[0].kids;
      }
    }
  }

  lemma {:induction false} AppendTwice(m: seq<Entry>, p: nat, a: seq<Entry>, b: seq<Entry>, hi: nat)
    requires HandlesWithin(a, p + 1, hi)
    ensures AppendKids(AppendKids(m, p, a), p, b) == AppendKids(m, p, a + b)
  {
    if m != [] {
      AppendTwice(m[1..], p, a, b, hi);
      if m[0].Node? {
        var kids := AppendKids(m[0].kids, p, a);
        AppendTwice(m[0].kids, p, a, b, hi);
        if m[0].handle == p {
          AppendConcat(kids, a, p, b);
          AppendAbsent(a, p + 1, hi, p, b);
          assert AppendKids(kids + a, p, b) + b == AppendKids(kids, p, b) + (a + b);
        } else {
          assert kids + [] == kids;
        }
        assert AppendKidsTo(AppendKidsTo(m[0], p, a), p, b) == AppendKidsTo(m[0], p, a + b);
      }
      var m1 := AppendKids(m, p, a);
      assert m1[0] == AppendKidsTo(m[0], p, a) && m1[1..] == AppendKids(m[1..], p, a);
    }
  }

  lemma FilledLeaf(e: Entry, kids: seq<Entry>)
    requires e.Node? && e.kids == []
    ensures AppendKids([e], e.handle, kids) == [e.(kids := kids)]
  {
    assert [e][1..] == [];
    assert AppendKids([], e.handle, kids) == [];
    assert [] + kids == kids;
  }

  /** Filling a freshly attached node is the same as attaching the filled node. */
  lemma {:induction false} Graft(m: seq<Entry>, p: nat, e: Entry, kids: seq<Entry>)
    requires e.Node? && e.kids == [] && HandlesWithin(m, 0, e.handle)
    ensures AppendKids(AppendKids(m, p, [e]), e.handle, kids) == AppendKids(m, p, [e.(kids := kids)])
  {
    if m != [] {
      var full := e.(kids := kids);
      Graft(m[1..], p, e, kids);
      if m[0].Node? {
        var inner := AppendKids(m[0].kids, p, [e]);
        Graft(m[0].kids, p, e, kids);
        if m[0].handle == p {
          AppendConcat(inner, [e], e.handle, kids);
          FilledLeaf(e, kids);
        } else {
          assert inner + [] == inner;
        }
        assert AppendKidsTo(AppendKidsTo(m[0], p, [e]), e.handle, kids) == AppendKidsTo(m[0], p, [full]);
      }
      var m1 := AppendKids(m, p, [e]);
      assert m1[0] == AppendKidsTo(m[0], p, [e]) && m1[1..] == AppendKids(m[1..], p, [e]);
    }
  }

  // ---------------------------------------------------------------- the menu a forest produces

  function NodeOf(m: MenuItem, n: nat, h: nat, kids: seq<Entry>): Entry {
    Node(h, NextId(n), m.text, m.tooltip, m.checked, kids)
  }

  /** Entries contributed by m to its parent, with ids from counter n and handles from h. */
  function View(m: MenuItem, n: nat, h: nat): seq<Entry> {
    if Shown(m) then [NodeOf(m, n, h, KidsView(m.children, n + 1, h + 1))] else []
  }

  function KidsView(ms: seq<MenuItem>, n: nat, h: nat): seq<Entry> {
    if ms == [] then []
    else View(ms[0], n, h) + KidsView(ms[1..], n + Count(ms[0]), h + Count(ms[0]))
  }

  function RootView(ms: seq<MenuItem>, n: nat, h: nat): seq<Entry> {
    if ms == [] then []
    else (View(ms[0], n, h) + Separators(SeparatorsIn(ms[0])))
         + RootView(ms[1..], n + Count(ms[0]), h + Count(ms[0]))
  }

  /** One step of every function that walks a list of entries. */
  lemma Unfold(ms: seq<MenuItem>, parent: string, n: nat, h: nat)
    requires ms != []
    ensures var m, rest, c := ms[0], ms[1..], Count(ms[0]);
            && CountAll(ms) == c + CountAll(rest)
            && SeparatorsInAll(ms) == SeparatorsIn(m) + SeparatorsInAll(rest)
            && ForestActions(ms, parent, n) == Actions(m, parent, n) + ForestActions(rest, parent, n + c)
            && KidsView(ms, n, h) == View(m, n, h) + KidsView(rest, n + c, h + c)
            && RootView(ms, n, h)
               == (View(m, n, h) + Separators(SeparatorsIn(m))) + RootView(rest, n + c, h + c)
  {
  }

  lemma RunForest(s: Side, ms: seq<MenuItem>, parent: string, n: nat)
    requires ms != []
    ensures Run(s, Sends(ForestActions(ms, parent, n)))
            == Run(Run(s, Sends(Actions(ms[0], parent, n))), Sends(ForestActions(ms[1..], parent, n + Count(ms[0]))))
  {
    hide *;
    Unfold(ms, parent, n, 0);
    RunOfBoth(s, Actions(ms[0], parent, n), ForestActions(ms[1..], parent, n + Count(ms[0])));
  }

  lemma UnfoldNone(parent: string, n: nat, h: nat)
    ensures CountAll([]) == 0 && SeparatorsInAll([]) == 0
    ensures ForestActions([], parent, n) == [] && KidsView([], n, h) == [] && RootView([], n, h) == []
    ensures forall s :: Run(s, Sends([])) == s
  {
  }

  lemma {:induction false} ViewHandles(m: MenuItem, n: nat, h: nat)
    ensures HandlesWithin(View(m, n, h), h, h + Count(m))
    decreases m
  {
    if Shown(m) {
      KidsViewHandles(m.children, n + 1, h + 1);
      WithinWider(KidsView(m.children, n + 1, h + 1), h + 1, h + Count(m), h, h + Count(m));
    }
  }

  lemma {:induction false} KidsViewHandles(ms: seq<MenuItem>, n: nat, h: nat)
    ensures HandlesWithin(KidsView(ms, n, h), h, h + CountAll(ms))
    decreases ms
  {
    if ms != [] {
      var c := Count(ms[0]);
      ViewHandles(ms[0], n, h);
      KidsViewHandles(ms[1..], n + c, h + c);
      WithinWider(View(ms[0], n, h), h, h + c, h, h + CountAll(ms));
      WithinWider(KidsView(ms[1..], n + c, h + c), h + c, h + CountAll(ms), h, h + CountAll(ms));
      WithinConcat(View(ms[0], n, h), KidsView(ms[1..], n + c, h + c), h, h + CountAll(ms));
    }
  }

  // ---------------------------------------------------------------- consuming children

  /** The sidecar after new entries es went under handle p, with q separators at the root. */
  function AfterKids(s: Side, p: nat, es: seq<Entry>, q: nat, n: nat, count: nat): Side {
    Side(AppendKids(s.menu, p, es) + Separators(q), s.items + IdMap(n, count, s.next), s.next + count)
  }

  /** The parent with counter value k is on screen under handle p, older than everything to come. */
  predicate ParentReady(s: Side, k: nat, p: nat, n: nat) {
    && k < n
    && NextId(k) in s.items
    && s.items[NextId(k)] == p < s.next
    && HandlesWithin(s.menu, 0, s.next)
  }

  lemma AfterKidsReady(s: Side, k: nat, p: nat, es: seq<Entry>, q: nat, n: nat, count: nat)
    requires ParentReady(s, k, p, n)
    requires HandlesWithin(es, s.next, s.next + count)
    ensures ParentReady(AfterKids(s, p, es, q, n, count), k, p, n + count)
    ensures AfterKids(s, p, es, q, n, count).next == s.next + count
  {
    hide NextId;
    OlderIdAbsent(k, n, count, s.next);
    WithinWider(s.menu, 0, s.next, 0, s.next + count);
    WithinWider(es, s.next, s.next + count, 0, s.next + count);
    WithinAppend(s.menu, p, es, 0, s.next + count);
    SeparatorsInert(q, p, es);
    WithinWider(Separators(q), 0, 0, 0, s.next + count);
    WithinConcat(AppendKids(s.menu, p, es), Separators(q), 0, s.next + count);
  }

  lemma AfterNothing(s: Side, p: nat, n: nat)
    ensures AfterKids(s, p, [], 0, n, 0) == s
  {
    hide NextId;
    NothingAppended(s.menu, p);
    assert s.menu + Separators(0) == s.menu;
    assert s.items + IdMap(n, 0, s.next) == s.items;
  }

  lemma MenuTwice(menu: seq<Entry>, p: nat, es: seq<Entry>, q: nat, es': seq<Entry>, q': nat, hi: nat)
    requires HandlesWithin(es, p + 1, hi)
    ensures AppendKids(AppendKids(menu, p, es) + Separators(q), p, es') + Separators(q')
            == AppendKids(menu, p, es + es') + Separators(q + q')
  {
    hide AppendKids;
    hide Separators;
    AppendConcat(AppendKids(menu, p, es), Separators(q), p, es');
    SeparatorsInert(q, p, es');
    AppendTwice(menu, p, es, es', hi);
    SeparatorsConcat(q, q');
    var m := AppendKids(menu, p, es + es');
    assert (m + Separators(q)) + Separators(q') == m + (Separators(q) + Separators(q'));
  }

  lemma AfterKidsTwice(s: Side, p: nat, es: seq<Entry>, q: nat, n: nat, c: nat,
                       es': seq<Entry>, q': nat, c': nat)
    requires p < s.next && HandlesWithin(es, s.next, s.next + c)
    ensures AfterKids(AfterKids(s, p, es, q, n, c), p, es', q', n + c, c')
            == AfterKids(s, p, es + es', q + q', n, c + c')
  {
    WithinWider(es, s.next, s.next + c, p + 1, s.next + c);
    MenuTwice(s.menu, p, es, q, es', q', s.next + c);
    IdMapConcat(s.items, n, c, c', s.next);
    hide IdMap;
    hide AppendKids;
    hide Separators;
    hide HandlesWithin;
  }

  /** Attaching an item and then its children equals attaching the finished subtree. */
  lemma ConsumeItem(s: Side, m: MenuItem, k: nat, p: nat, n: nat)
    requires ParentReady(s, k, p, n) && Shown(m)
    ensures var s1 := Apply(s, AddCmd(m, NextId(k), NextId(n)));
            && ParentReady(s1, n, s.next, n + 1) && s1.next == s.next + 1
            && AfterKids(s1, s.next, KidsView(m.children, n + 1, s.next + 1), SeparatorsIn(m), n + 1,
                         CountAll(m.children))
               == AfterKids(s, p, View(m, n, s.next), SeparatorsIn(m), n, Count(m))
  {
    hide NextId;
    hide AppendKids;
    hide KidsView;
    hide IdMap;
    hide SeparatorsIn;
    var leaf := NodeOf(m, n, s.next, []);
    var s1 := Apply(s, AddCmd(m, NextId(k), NextId(n)));
    assert s1 == Side(AppendKids(s.menu, p, [leaf]), s.items[NextId(n) := s.next], s.next + 1);
    assert HandlesWithin(s1.menu, 0, s.next + 1) by {
      WithinWider(s.menu, 0, s.next, 0, s.next + 1);
      LeafWithin(leaf, s.next + 1);
      WithinAppend(s.menu, p, [leaf], 0, s.next + 1);
    }
    hide HandlesWithin;
    Graft(s.menu, p, leaf, KidsView(m.children, n + 1, s.next + 1));
    IdMapPrepend(s.items, n, CountAll(m.children), s.next);
  }

  lemma LeafWithin(e: Entry, hi: nat)
    requires e.Node? && e.kids == [] && e.handle < hi
    ensures HandlesWithin([e], 0, hi)
  {
    assert [e][1..] == [];
  }

  /** The commands of a shown item: its own, then its children's. */
  lemma ItemSends(m: MenuItem, parent: string, n: nat, s: Side)
    requires Shown(m)
    ensures Run(s, Sends(Actions(m, parent, n)))
            == Run(Apply(s, AddCmd(m, parent, NextId(n))), Sends(ForestActions(m.children, NextId(n), n + 1)))
  {
    hide NextId;
    hide Apply;
    var inner := ForestActions(m.children, NextId(n), n + 1);
    var add := AddCmd(m, parent, NextId(n));
    var acts := Actions(m, parent, n);
    assert acts[1..] == [Send(add)] + inner;
    assert acts[1..][1..] == inner;
    assert Sends(acts) == [] + ([add] + Sends(inner)) == [add] + Sends(inner);
    assert ([add] + Sends(inner))[1..] == Sends(inner);
  }

  lemma ConsumePlain(s: Side, m: MenuItem, parent: string, n: nat)
    requires !Shown(m)
    ensures Run(s, Sends(Actions(m, parent, n))) == s.(menu := s.menu + Separators(SeparatorsIn(m)))
  {
    hide NextId;
    if !m.hidden && m.kind == "separator" {
      assert Separators(1) == [Separator];
      assert Sends([Send(AddSeparator)]) == [AddSeparator];
      assert [AddSeparator][1..] == [];
    } else {
      assert s.menu + Separators(0) == s.menu;
    }
  }

  lemma {:induction false} ConsumeKid(s: Side, m: MenuItem, k: nat, p: nat, n: nat)
    requires ParentReady(s, k, p, n)
    ensures Run(s, Sends(Actions(m, NextId(k), n)))
            == AfterKids(s, p, View(m, n, s.next), SeparatorsIn(m), n, Count(m))
    decreases m
  {
    hide NextId;
    hide Run;
    hide Sends;
    hide AppendKids;
    if Shown(m) {
      ItemSends(m, NextId(k), n, s);
      ConsumeItem(s, m, k, p, n);
      ConsumeKids(Apply(s, AddCmd(m, NextId(k), NextId(n))), m.children, n, s.next, n + 1);
    } else {
      ConsumePlain(s, m, NextId(k), n);
      NothingAppended(s.menu, p);
      assert s.items + IdMap(n, 0, s.next) == s.items;
    }
  }

  lemma {:induction false} NothingAppended(m: seq<Entry>, p: nat)
    ensures AppendKids(m, p, []) == m
  {
    if m != [] {
      NothingAppended(m[1..], p);
      if m[0].Node? {
        NothingAppended(m[0].kids, p);
        assert AppendKids(m[0].kids, p, []) + [] == m[0].kids;
      }
    }
  }

  lemma {:induction false} ConsumeKids(s: Side, ms: seq<MenuItem>, k: nat, p: nat, n: nat)
    requires ParentReady(s, k, p, n)
    ensures Run(s, Sends(ForestActions(ms, NextId(k), n)))
            == AfterKids(s, p, KidsView(ms, n, s.next), SeparatorsInAll(ms), n, CountAll(ms))
    decreases ms
  {
    hide *;
    if ms == [] {
      UnfoldNone(NextId(k), n, s.next);
      AfterNothing(s, p, n);
    } else {
      var c := Count(ms[0]);
      var s1 := AfterKids(s, p, View(ms[0], n, s.next), SeparatorsIn(ms[0]), n, c);
      FirstKidReady(s, ms[0], k, p, n);
      ConsumeKid(s, ms[0], k, p, n);
      ConsumeKids(s1, ms[1..], k, p, n + c);
      ReadyHandle(s, k, p, n);
      FirstKidComposes(s, ms, p, n);
      RunForest(s, ms, NextId(k), n);
    }
  }

  lemma FirstKidReady(s: Side, m: MenuItem, k: nat, p: nat, n: nat)
    requires ParentReady(s, k, p, n)
    ensures var s1 := AfterKids(s, p, View(m, n, s.next), SeparatorsIn(m), n, Count(m));
            ParentReady(s1, k, p, n + Count(m)) && s1.next == s.next + Count(m)
  {
    hide *;
    ViewHandles(m, n, s.next);
    AfterKidsReady(s, k, p, View(m, n, s.next), SeparatorsIn(m), n, Count(m));
  }

  /** The effect of the first child composes with that of the others. */
  lemma FirstKidComposes(s: Side, ms: seq<MenuItem>, p: nat, n: nat)
    requires p < s.next && ms != []
    ensures AfterKids(AfterKids(s, p, View(ms[0], n, s.next), SeparatorsIn(ms[0]), n, Count(ms[0])),
                      p, KidsView(ms[1..], n + Count(ms[0]), s.next + Count(ms[0])),
                      SeparatorsInAll(ms[1..]), n + Count(ms[0]), CountAll(ms[1..]))
            == AfterKids(s, p, KidsView(ms, n, s.next), SeparatorsInAll(ms), n, CountAll(ms))
  {
    hide *;
    ViewHandles(ms[0], n, s.next);
    AfterKidsTwice(s, p, View(ms[0], n, s.next), SeparatorsIn(ms[0]), n, Count(ms[0]),
                   KidsView(ms[1..], n + Count(ms[0]), s.next + Count(ms[0])),
                   SeparatorsInAll(ms[1..]), CountAll(ms[1..]));
    Unfold(ms, "", n, s.next);
  }

  lemma ReadyHandle(s: Side, k: nat, p: nat, n: nat)
    requires ParentReady(s, k, p, n)
    ensures p < s.next
  {
  }
}
