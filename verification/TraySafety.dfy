/** What clicks may run: an invariant of every step of the tray system. */
module TraySafety {
  import opened TrayDecoder
  import opened TrayProtocol
  import opened TraySystem

  predicate EntryFits(e: Entry, born: map<string, Origin>) {
    e.Node? ==> e.id in born && LabelsFit(e.title, e.tooltip, e.checked, born[e.id])
  }

  predicate MenuFits(menu: seq<Entry>, born: map<string, Origin>) {
    menu != [] ==>
      EntryFits(menu[0], born) && MenuFits(menu[1..], born) && (menu[0].Node? ==> MenuFits(menu[0].kids, born))
  }

  predicate CmdFits(c: Cmd, born: map<string, Origin>) {
    match c
    case AddItem(id, title, tooltip, checked) => id in born && LabelsFit(title, tooltip, checked, born[id])
    case AddSubItem(_, id, title, tooltip, checked) => id in born && LabelsFit(title, tooltip, checked, born[id])
    case Check(_) => false
    case Uncheck(_) => false
    case _ => true
  }

  predicate HandlerFits(id: string, h: Handler, gen: nat, born: map<string, Origin>) {
    id in born && h == HandlerOf(born[id]) && (born[id].FromMenu? ==> born[id].gen == gen)
  }

  predicate ActionFits(a: Action, gen: nat, born: map<string, Origin>) {
    match a
    case ClearHandlers => false
    case Store(id, h) => HandlerFits(id, h, gen, born)
    case Send(c) => CmdFits(c, born)
  }

  predicate WorkFits(work: seq<Action>, gen: nat, born: map<string, Origin>) {
    if work != [] && work[0].ClearHandlers? then forall a | a in work[1..] :: ActionFits(a, gen + 1, born)
    else forall a | a in work :: ActionFits(a, gen, born)
  }

  predicate FiringFits(f: Firing, born: map<string, Origin>) {
    f.shown.Node? && EntryFits(f.shown, born) && HandlerFits(f.shown.id, f.handler, f.gen, born)
  }

  /** Only the fallback ids and ids below the counter have ever been made. */
  predicate BornBefore(born: map<string, Origin>, n: nat) {
    && born.Keys <= IdSet(0, n) + StartBirths(FALLBACKS).Keys
    && forall id | id in born && id in StartBirths(FALLBACKS) :: born[id] == StartBirths(FALLBACKS)[id]
  }

  predicate HandlersFit(handlers: map<string, Handler>, gen: nat, born: map<string, Origin>) {
    forall id | id in handlers :: HandlerFits(id, handlers[id], gen, born)
  }

  predicate PipeFits(pipe: seq<Cmd>, born: map<string, Origin>) {
    forall c | c in pipe :: CmdFits(c, born)
  }

  predicate ClicksFit(clicks: seq<Entry>, born: map<string, Origin>) {
    forall e | e in clicks :: EntryFits(e, born)
  }

  predicate FiredFits(fired: seq<Firing>, born: map<string, Origin>) {
    forall f | f in fired :: FiringFits(f, born)
  }

  predicate ClickSafe(s: Sys) {
    && BornBefore(s.born, s.idSeq)
    && HandlersFit(s.handlers, s.gen, s.born)
    && WorkFits(s.work, s.gen, s.born)
    && PipeFits(s.pipe, s.born)
    && MenuFits(s.side.menu, s.born)
    && ClicksFit(s.clicks, s.born)
    && FiredFits(s.fired, s.born)
  }

  /** Origins are never replaced. */
  predicate Extends(born: map<string, Origin>, born': map<string, Origin>) {
    forall id | id in born :: id in born' && born'[id] == born[id]
  }

  lemma {:induction false} MenuFitsExtends(menu: seq<Entry>, born: map<string, Origin>, born': map<string, Origin>)
    requires MenuFits(menu, born) && Extends(born, born')
    ensures MenuFits(menu, born')
  {
    if menu != [] {
      MenuFitsExtends(menu[1..], born, born');
      if menu[0].Node? { MenuFitsExtends(menu[0].kids, born, born'); }
    }
  }

  lemma {:induction false} MenuFitsConcat(a: seq<Entry>, b: seq<Entry>, born: map<string, Origin>)
    requires MenuFits(a, born) && MenuFits(b, born)
    ensures MenuFits(a + b, born)
  {
    if a == [] {
      assert a + b == b;
    } else {
      assert (a + b)[1..] == a[1..] + b;
      MenuFitsConcat(a[1..], b, born);
    }
  }

  lemma {:induction false} MenuFitsAppend(menu: seq<Entry>, h: nat, es: seq<Entry>, born: map<string, Origin>)
    requires MenuFits(menu, born) && MenuFits(es, born)
    ensures MenuFits(AppendKids(menu, h, es), born)
  {
    if menu != [] {
      MenuFitsAppend(menu[1..], h, es, born);
      if menu[0].Node? {
        var kids := AppendKids(menu[0].kids, h, es);
        MenuFitsAppend(menu[0].kids, h, es, born);
        MenuFitsConcat(kids, es, born);
        assert kids + [] == kids;
      }
      assert AppendKids(menu, h, es)[1..] == AppendKids(menu[1..], h, es);
    }
  }

  lemma {:induction false} NodesFit(menu: seq<Entry>, e: Entry, born: map<string, Origin>)
    requires MenuFits(menu, born) && e in Nodes(menu)
    ensures EntryFits(e, born)
  {
    if e in Nodes(menu[1..]) {
      NodesFit(menu[1..], e, born);
    } else if e != menu[0] {
      NodesFit(menu[0].kids, e, born);
    }
  }

  lemma ApplyFits(s: Side, c: Cmd, born: map<string, Origin>)
    requires MenuFits(s.menu, born) && CmdFits(c, born)
    ensures MenuFits(Apply(s, c).menu, born)
  {
    match c
    case AddItem(id, title, tooltip, checked) =>
      var e := Node(s.next, id, title, tooltip, checked, []);
      assert [e][1..] == [];
      MenuFitsConcat(s.menu, [e], born);
    case AddSubItem(parentId, id, title, tooltip, checked) =>
      var e := Node(s.next, id, title, tooltip, checked, []);
      assert [e][1..] == [];
      if parentId in s.items { MenuFitsAppend(s.menu, s.items[parentId], [e], born); }
    case AddSeparator =>
      assert [Separator][1..] == [];
      MenuFitsConcat(s.menu, [Separator], born);
    case _ =>
  }

  // ---------------------------------------------------------------- births

  lemma {:induction false} BirthsKeys(ms: seq<MenuItem>, n: nat, gen: nat)
    ensures Births(ms, n, gen).Keys == IdSet(n, CountAll(ms))
    decreases ms
  {
    hide NextId;
    hide IdSet;
    if ms == [] {
      IdSetNone(n);
    } else {
      hide BirthsOf;
      BirthsOfKeys(ms[0], n, gen);
      BirthsKeys(ms[1..], n + Count(ms[0]), gen);
      IdSetConcat(n, Count(ms[0]), CountAll(ms[1..]));
    }
  }

  lemma IdSetNone(n: nat)
    ensures IdSet(n, 0) == {}
  {
  }

  lemma {:induction false} BirthsOfKeys(m: MenuItem, n: nat, gen: nat)
    ensures BirthsOf(m, n, gen).Keys == IdSet(n, Count(m))
    decreases m
  {
    hide NextId;
    if Shown(m) {
      BirthsKeys(m.children, n + 1, gen);
      IdSetConcat(n, 1, CountAll(m.children));
      assert IdSet(n, 1) == IdSet(n, 0) + {NextId(n)};
    }
  }

  lemma IdRangesDisjoint(n: nat, a: nat, k: nat, b: nat)
    requires n + a <= k
    ensures IdSet(n, a) !! IdSet(k, b)
  {
    forall x | x in IdSet(n, a)
      ensures x !in IdSet(k, b)
    {
      var i := IdSetWitness(n, a, x);
      IdSetMember(k, b, i);
    }
  }

  lemma {:induction false} IdSetWitness(n: nat, count: nat, x: string) returns (k: nat)
    requires x in IdSet(n, count)
    ensures n <= k < n + count && x == NextId(k)
  {
    if x == NextId(n + count - 1) {
      k := n + count - 1;
    } else {
      k := IdSetWitness(n, count - 1, x);
    }
  }

  /** Counter ids never clash with the fallback ids. */
  lemma FallbackIdsApart(n: nat, count: nat)
    ensures IdSet(n, count) !! StartBirths(FALLBACKS).Keys
  {
    StartBirthsKeys();
    forall x | x in IdSet(n, count)
      ensures x !in StartBirths(FALLBACKS)
    {
      var k := IdSetWitness(n, count, x);
      assert x[0] == 'i';
    }
  }

  lemma StartBirthsKeys()
    ensures StartBirths(FALLBACKS) == map["__show" := FromStart(FALLBACKS[0]), "__restart" := FromStart(FALLBACKS[1]),
                                          "__exit" := FromStart(FALLBACKS[2])]
  {
    assert FALLBACKS[1..][0] == FALLBACKS[1] && FALLBACKS[1..][1..] == FALLBACKS[2..];
    assert FALLBACKS[2..][0] == FALLBACKS[2] && FALLBACKS[2..][1..] == [];
    assert "__show"[2] != "__exit"[2] && "__show"[2] != "__restart"[2] && "__exit"[2] != "__restart"[2];
  }

  lemma ActionFitsExtends(a: Action, gen: nat, born: map<string, Origin>, born': map<string, Origin>)
    requires ActionFits(a, gen, born) && Extends(born, born')
    ensures ActionFits(a, gen, born')
  {
  }

  predicate AllFit(acts: seq<Action>, gen: nat, born: map<string, Origin>) {
    forall a | a in acts :: ActionFits(a, gen, born)
  }

  lemma AllFitBoth(a: seq<Action>, b: seq<Action>, gen: nat, born: map<string, Origin>, born': map<string, Origin>)
    requires AllFit(a, gen, born) && AllFit(b, gen, born') && born.Keys !! born'.Keys
    ensures AllFit(a + b, gen, born + born')
  {
    forall x | x in a + b
      ensures ActionFits(x, gen, born + born')
    {
      if x in a {
        ActionFitsExtends(x, gen, born, born + born');
      } else {
        ActionFitsExtends(x, gen, born', born + born');
      }
    }
  }

  /** Every step of a rebuild agrees with the origins of the ids it hands out. */
  lemma {:induction false} ForestFits(ms: seq<MenuItem>, parent: string, n: nat, gen: nat)
    ensures AllFit(ForestActions(ms, parent, n), gen, Births(ms, n, gen))
    decreases ms
  {
    hide *;
    if ms == [] {
      NothingToFit(parent, n, gen);
    } else {
      ItemFits(ms[0], parent, n, gen);
      ForestFits(ms[1..], parent, n + Count(ms[0]), gen);
      FirstThenRest(ms, parent, n, gen);
    }
  }

  lemma NothingToFit(parent: string, n: nat, gen: nat)
    ensures AllFit(ForestActions([], parent, n), gen, Births([], n, gen))
  {
  }

  lemma FirstThenRest(ms: seq<MenuItem>, parent: string, n: nat, gen: nat)
    requires ms != []
    requires AllFit(Actions(ms[0], parent, n), gen, BirthsOf(ms[0], n, gen))
    requires AllFit(ForestActions(ms[1..], parent, n + Count(ms[0])), gen, Births(ms[1..], n + Count(ms[0]), gen))
    ensures AllFit(ForestActions(ms, parent, n), gen, Births(ms, n, gen))
  {
    hide *;
    var c := Count(ms[0]);
    BirthsOfKeys(ms[0], n, gen);
    BirthsKeys(ms[1..], n + c, gen);
    IdRangesDisjoint(n, c, n + c, CountAll(ms[1..]));
    AllFitBoth(Actions(ms[0], parent, n), ForestActions(ms[1..], parent, n + c), gen,
               BirthsOf(ms[0], n, gen), Births(ms[1..], n + c, gen));
    BirthsUnfold(ms, parent, n, gen);
  }

  lemma BirthsUnfold(ms: seq<MenuItem>, parent: string, n: nat, gen: nat)
    requires ms != []
    ensures Births(ms, n, gen) == BirthsOf(ms[0], n, gen) + Births(ms[1..], n + Count(ms[0]), gen)
    ensures ForestActions(ms, parent, n) == Actions(ms[0], parent, n) + ForestActions(ms[1..], parent, n + Count(ms[0]))
  {
  }

  lemma {:induction false} ItemFits(m: MenuItem, parent: string, n: nat, gen: nat)
    ensures AllFit(Actions(m, parent, n), gen, BirthsOf(m, n, gen))
    decreases m
  {
    hide NextId;
    if Shown(m) {
      var own := map[NextId(n) := FromMenu(m, gen)];
      ForestFits(m.children, NextId(n), n + 1, gen);
      BirthsKeys(m.children, n + 1, gen);
      IdRangesDisjoint(n, 1, n + 1, CountAll(m.children));
      assert IdSet(n, 1) == IdSet(n, 0) + {NextId(n)};
      AllFitBoth([Store(NextId(n), ClickOf(m)), Send(AddCmd(m, parent, NextId(n)))],
                 ForestActions(m.children, NextId(n), n + 1), gen, own, Births(m.children, n + 1, gen));
    }
  }

  // ---------------------------------------------------------------- preservation: clicks

  lemma ClickSafeExtends(s: Sys, born': map<string, Origin>)
    requires ClickSafe(s) && Extends(s.born, born')
    ensures MenuFits(s.side.menu, born')
    ensures HandlersFit(s.handlers, s.gen, born') && PipeFits(s.pipe, born')
    ensures ClicksFit(s.clicks, born') && FiredFits(s.fired, born')
  {
    hide MenuFits, WorkFits, BornBefore;
    MenuFitsExtends(s.side.menu, s.born, born');
  }

  lemma RebuildClickSafe(s: Sys, ms: seq<MenuItem>)
    requires ClickSafe(s) && s.work == []
    ensures ClickSafe(Rebuild(s, ms)) && Extends(s.born, Rebuild(s, ms).born)
  {
    hide Births, MenuFits, UpdateActions, WorkFits, BornBefore, Extends, HandlersFit, PipeFits, ClicksFit, FiredFits,
      CountAll, VisibleMenu;
    var made := Births(ms, s.idSeq, s.gen + 1);
    var born' := s.born + made;
    BirthsAreNew(s.born, ms, s.idSeq, s.gen + 1);
    ClickSafeExtends(s, born');
    RebuildWorkFits(ms, s.idSeq, s.gen, born');
  }

  lemma BirthsAreNew(born: map<string, Origin>, ms: seq<MenuItem>, n: nat, gen: nat)
    requires BornBefore(born, n)
    ensures Extends(born, born + Births(ms, n, gen)) && Extends(Births(ms, n, gen), born + Births(ms, n, gen))
    ensures BornBefore(born + Births(ms, n, gen), n + CountAll(ms))
  {
    hide IdSet;
    hide StartBirths;
    BirthsKeys(ms, n, gen);
    hide Births;
    FallbackIdsApart(n, CountAll(ms));
    IdRangesDisjoint(0, n, n, CountAll(ms));
    IdSetConcat(0, n, CountAll(ms));
  }

  lemma RebuildWorkFits(ms: seq<MenuItem>, n: nat, gen: nat, born: map<string, Origin>)
    requires Extends(Births(ms, n, gen + 1), born)
    ensures WorkFits(UpdateActions(ms, n), gen, born)
  {
    var body := ForestActions(ms, "", n);
    ForestFits(ms, "", n, gen + 1);
    assert UpdateActions(ms, n)[1..] == [Send(ResetMenu)] + body;
    hide ForestActions;
    hide Births;
    forall a | a in [Send(ResetMenu)] + body
      ensures ActionFits(a, gen + 1, born)
    {
      if a in body { ActionFitsExtends(a, gen + 1, Births(ms, n, gen + 1), born); }
    }
  }

  lemma {:induction false} StartFits(fs: seq<Fallback>, gen: nat, born: map<string, Origin>)
    requires forall f | f in fs :: f.id in born && born[f.id] == FromStart(f)
    ensures AllFit(FallbackActions(fs), gen, born)
  {
    if fs != [] { StartFits(fs[1..], gen, born); }
  }

  lemma StartAddsFallbacks(born: map<string, Origin>, n: nat)
    requires BornBefore(born, n)
    ensures var born' := born + StartBirths(FALLBACKS);
            && Extends(born, born') && BornBefore(born', n)
            && forall f | f in FALLBACKS :: f.id in born' && born'[f.id] == FromStart(f)
  {
    hide IdSet;
    StartBirthsKeys();
    hide StartBirths;
  }

  lemma StartWorkFits(icon: string, gen: nat, born: map<string, Origin>)
    requires forall f | f in FALLBACKS :: f.id in born && born[f.id] == FromStart(f)
    ensures WorkFits(StartActions(icon), gen, born)
  {
    StartFits(FALLBACKS, gen, born);
    hide FallbackActions;
  }

  lemma StartClickSafe(s: Sys, icon: string)
    requires ClickSafe(s) && s.work == []
    ensures ClickSafe(Start(s, icon)) && Extends(s.born, Start(s, icon).born)
  {
    hide StartBirths, MenuFits, StartActions, WorkFits, BornBefore, Extends, HandlersFit, PipeFits, ClicksFit,
      FiredFits, FallbackShapes;
    StartAddsFallbacks(s.born, s.idSeq);
    ClickSafeExtends(s, s.born + StartBirths(FALLBACKS));
    StartWorkFits(icon, s.gen, s.born + StartBirths(FALLBACKS));
  }

  lemma ActClickSafe(s: Sys, lost: bool)
    requires ClickSafe(s) && s.work != []
    ensures ClickSafe(Act(s, lost)) && Extends(s.born, Act(s, lost).born)
  {
    hide StartBirths, MenuFits, BornBefore, ClicksFit, FiredFits, CmdFits, HandlerFits;
    var rest := s.work[1..];
    if s.work[0].ClearHandlers? {
      if rest != [] { assert rest[0] in rest; }
    } else {
      assert s.work[0] in s.work && (forall a | a in rest :: a in s.work);
      if rest != [] { assert rest[0] in s.work; }
    }
  }

  lemma ConsumeClickSafe(s: Sys)
    requires ClickSafe(s) && s.pipe != []
    ensures ClickSafe(Consume(s))
  {
    hide StartBirths, MenuFits, Apply, BornBefore, WorkFits, HandlersFit, ClicksFit, FiredFits, CmdFits;
    assert s.pipe[0] in s.pipe && (forall c | c in s.pipe[1..] :: c in s.pipe);
    ApplyFits(s.side, s.pipe[0], s.born);
  }

  lemma DecorateClickSafe(s: Sys, c: Cmd)
    requires ClickSafe(s) && Decoration(c)
    ensures ClickSafe(s.(work := [Send(c)]))
  {
    hide MenuFits, BornBefore, HandlersFit, PipeFits, ClicksFit, FiredFits;
  }

  lemma ClickingClickSafe(s: Sys, e: Entry)
    requires ClickSafe(s) && e.Node? && e in Nodes(s.side.menu)
    ensures ClickSafe(s.(clicks := s.clicks + [e]))
  {
    NodesFit(s.side.menu, e, s.born);
    hide MenuFits, Nodes, BornBefore, HandlersFit, WorkFits, PipeFits, FiredFits, EntryFits;
  }

  /** Whatever is looked up in the handlers fits the entry clicked. */
  lemma DeliverClickSafe(s: Sys)
    requires ClickSafe(s) && s.clicks != [] && s.clicks[0].Node?
    ensures ClickSafe(Deliver(s))
  {
    hide MenuFits, BornBefore, WorkFits, PipeFits, HandlerFits, LabelsFit;
    assert s.clicks[0] in s.clicks && (forall e | e in s.clicks[1..] :: e in s.clicks);
  }

  lemma StepClickSafe(s: Sys, l: Label, s': Sys)
    requires ClickSafe(s) && Step(s, l, s')
    ensures ClickSafe(s') && Extends(s.born, s'.born)
  {
    hide ClickSafe, Rebuild, Start, Act;
    match l
    case LRebuild(ms) => RebuildClickSafe(s, ms);
    case LStart(icon) => StartClickSafe(s, icon);
    case LDecorate(c) => DecorateClickSafe(s, c);
    case LAct(lost) => ActClickSafe(s, lost);
    case LConsume => ConsumeClickSafe(s);
    case LClick(e) => ClickingClickSafe(s, e);
    case LDeliver => DeliverClickSafe(s);
  }
}
