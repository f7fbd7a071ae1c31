/** What a click runs, in terms of the menus asked for. */
module TrayClicks {
  import opened TrayDecoder
  import opened TrayProtocol
  import opened TraySystem
  import opened TraySafety
  import opened TrayGuarantees

  /** The entry is an item of the forest that is neither hidden nor below a hidden or unknown one. */
  predicate Offers(ms: seq<MenuItem>, m: MenuItem)
    decreases ms
  {
    ms != [] &&
      (Offers(ms[1..], m)
       || (!ms[0].hidden && ms[0].kind == "item" && (m == ms[0] || Offers(ms[0].children, m))))
  }

  /** The forests handed to UpdateTrayMenus along a run, in order. */
  function Menus(ls: seq<Label>): seq<seq<MenuItem>> {
    if ls == [] then []
    else
      var l, before := ls[|ls| - 1], Menus(ls[..|ls| - 1]);
      if l.LRebuild? then before + [l.ms] else before
  }

  /** An id made for a menu stands for an item of the menu of that generation; the others are the
      fallback ids. */
  predicate AskedFor(born: map<string, Origin>, menus: seq<seq<MenuItem>>) {
    forall id | id in born ::
      match born[id]
      case FromMenu(m, g) => 1 <= g <= |menus| && Offers(menus[g - 1], m)
      case FromStart(_) => id in StartBirths(FALLBACKS)
  }

  /** The generation the handlers will belong to once a pending clearing is done. */
  function Coming(s: Sys): nat {
    s.gen + if s.work != [] && s.work[0].ClearHandlers? then 1 else 0
  }

  predicate Matched(s: Sys, menus: seq<seq<MenuItem>>) {
    Coming(s) == |menus| && AskedFor(s.born, menus)
  }

  lemma {:induction false} BirthsOffered(ms: seq<MenuItem>, n: nat, gen: nat)
    ensures forall id | id in Births(ms, n, gen) ::
              var o := Births(ms, n, gen)[id]; o.FromMenu? && o.gen == gen && Offers(ms, o.item)
    decreases ms
  {
    hide NextId, Count, BirthsOf;
    if ms != [] {
      BirthsOffered(ms[1..], n + Count(ms[0]), gen);
      BirthOffered(ms[0], n, gen);
    }
  }

  lemma {:induction false} BirthOffered(m: MenuItem, n: nat, gen: nat)
    ensures forall id | id in BirthsOf(m, n, gen) ::
              var o := BirthsOf(m, n, gen)[id];
              o.FromMenu? && o.gen == gen && Shown(m) && (o.item == m || Offers(m.children, o.item))
    decreases m
  {
    hide NextId, Births, Offers;
    if Shown(m) {
      BirthsOffered(m.children, n + 1, gen);
    }
  }

  lemma StartBirthsAreStarts()
    ensures forall id | id in StartBirths(FALLBACKS) :: StartBirths(FALLBACKS)[id].FromStart?
  {
    StartBirthsKeys();
  }

  lemma RebuildMatched(s: Sys, ms: seq<MenuItem>, menus: seq<seq<MenuItem>>)
    requires Matched(s, menus) && s.work == []
    ensures Matched(Rebuild(s, ms), menus + [ms])
  {
    hide Births, Offers, CountAll, VisibleMenu, ForestActions;
    BirthsOffered(ms, s.idSeq, s.gen + 1);
  }

  lemma StartMatched(s: Sys, icon: string, menus: seq<seq<MenuItem>>)
    requires Matched(s, menus) && s.work == []
    ensures Matched(Start(s, icon), menus)
  {
    hide StartBirths, Offers, FallbackShapes, FallbackActions;
    StartBirthsAreStarts();
  }

  /** Only the first step of a rebuild clears the handlers. */
  lemma ActMatched(s: Sys, lost: bool, menus: seq<seq<MenuItem>>)
    requires Matched(s, menus) && WorkFits(s.work, s.gen, s.born) && s.work != []
    ensures Matched(Act(s, lost), menus)
  {
    hide Offers, CmdFits, HandlerFits;
    var rest := s.work[1..];
    if rest != [] {
      assert rest[0] in rest && rest[0] in s.work;
    }
  }

  lemma StepMatched(s: Sys, l: Label, s': Sys, menus: seq<seq<MenuItem>>)
    requires Matched(s, menus) && ClickSafe(s) && Step(s, l, s')
    ensures Matched(s', if l.LRebuild? then menus + [l.ms] else menus)
  {
    hide Rebuild, Start, Act, Offers, WorkFits, BornBefore, HandlersFit, PipeFits, MenuFits, ClicksFit, FiredFits;
    match l
    case LRebuild(ms) => RebuildMatched(s, ms, menus);
    case LStart(icon) => StartMatched(s, icon, menus);
    case LAct(lost) => ActMatched(s, lost, menus);
    case _ =>
  }

  lemma {:induction false} RunMatched(s: Sys, done: seq<Label>, ls: seq<Label>, s': Sys)
    requires Matched(s, Menus(done)) && ClickSafe(s) && Reaches(s, ls, s')
    ensures Matched(s', Menus(done + ls))
    decreases |ls|
  {
    hide Matched, ClickSafe, Step;
    if ls == [] {
      assert done + ls == done;
    } else {
      var t :| Step(s, ls[0], t) && Reaches(t, ls[1..], s');
      StepMatched(s, ls[0], t, Menus(done));
      StepClickSafe(s, ls[0], t);
      assert (done + [ls[0]])[..|done|] == done;
      assert done + [ls[0]] + ls[1..] == done + ls;
      RunMatched(t, done + [ls[0]], ls[1..], s');
    }
  }

  // ---------------------------------------------------------------- main results

  /** What an item promises: one whose event ends in "tray.exit" leaves the application, any other
      reports its event to the frontend. */
  predicate Promised(m: MenuItem, h: Handler) {
    var n := |m.event|;
    h == if n >= 9 && m.event[n - 9..] == "tray.exit" then GracefulExit else EmitClick(m.event)
  }

  /** What the entries present before any menu was asked for promise. */
  predicate PromisedAtStart(id: string, title: string, h: Handler) {
    || (id == "__show" && title == "Show" && h == ShowWindow)
    || (id == "__restart" && title == "Restart" && h == RestartApp)
    || (id == "__exit" && title == "Exit" && h == GracefulExit)
  }

  /** The firing of an entry made for item m: m is an item of the menu in force as it fires, the
      entry looked like m, and what runs is what m promises. */
  predicate FiresItem(f: Firing, m: MenuItem, menus: seq<seq<MenuItem>>)
    requires f.shown.Node?
  {
    && 1 <= f.gen <= |menus| && Offers(menus[f.gen - 1], m)
    && f.shown.title == m.text && f.shown.tooltip == m.tooltip && f.shown.checked == m.checked
    && Promised(m, f.handler)
  }

  /** In every run, even one that loses commands: whatever fires was either an entry made for an item
      of the menu in force as it fires, and it does what that item promises, or one of the three
      entries made at the start, and it does what that one promises. */
  lemma ClicksDoWhatTheItemSays(s: Sys, ls: seq<Label>, s': Sys, f: Firing)
    requires Initial(s) && Reaches(s, ls, s') && f in s'.fired
    ensures f.shown.Node? && f.shown.id in s'.born
    ensures match s'.born[f.shown.id]
            case FromMenu(m, _) => FiresItem(f, m, Menus(ls))
            case FromStart(_) => PromisedAtStart(f.shown.id, f.shown.title, f.handler)
  {
    hide Offers, Reaches;
    InitialHolds(s);
    RunsKeepInvariants(s, ls, s');
    RunMatched(s, [], ls, s');
    assert [] + ls == ls;
    FallbacksPromise(s'.born, s'.idSeq, f.shown.id);
  }

  lemma FallbacksPromise(born: map<string, Origin>, n: nat, id: string)
    requires BornBefore(born, n) && id in born
    ensures id in StartBirths(FALLBACKS) ==>
              var o := born[id]; o.FromStart? && PromisedAtStart(id, o.fallback.title, o.fallback.handler)
  {
    hide IdSet;
    StartBirthsKeys();
  }

  lemma {:induction false} NodesHaveIds(menu: seq<Entry>, e: Entry)
    requires e in Nodes(menu)
    ensures e.Node? && e.id in Ids(menu)
  {
    if e in Nodes(menu[1..]) {
      NodesHaveIds(menu[1..], e);
    } else if e != menu[0] {
      NodesHaveIds(menu[0].kids, e);
    }
  }

  /** And it does fire: once nothing is in flight and no command was lost, delivering the click of an
      entry on screen runs exactly one handler, for that entry. */
  lemma ClicksOnScreenFire(s: Sys, ls: seq<Label>, s': Sys)
    requires Initial(s) && Reaches(s, ls, s')
    requires s'.whole && s'.work == [] && s'.pipe == []
    requires s'.clicks != [] && s'.clicks[0] in Nodes(s'.side.menu)
    ensures s'.clicks[0].Node?
    ensures var t := Deliver(s');
            && t.clicks == s'.clicks[1..] && |t.fired| == |s'.fired| + 1 && t.fired[..|s'.fired|] == s'.fired
            && t.fired[|s'.fired|].shown == s'.clicks[0] && t.fired[|s'.fired|].gen == s'.gen
  {
    QuietMenuIsTheWantedMenu(s, ls, s');
    NodesHaveIds(s'.side.menu, s'.clicks[0]);
  }

  // ---------------------------------------------------------------- check marks

  /** The same items in the same places, but those with this handle have their mark set. */
  predicate MarkedOnly(a: seq<Entry>, b: seq<Entry>, h: nat, on: bool) {
    && |b| == |a|
    && forall k | 0 <= k < |a| ::
         && a[k].Node? && b[k].Node? && b[k].handle == a[k].handle && b[k].id == a[k].id
         && b[k].title == a[k].title && b[k].tooltip == a[k].tooltip
         && b[k].checked == if a[k].handle == h then on else a[k].checked
  }

  lemma MarkedConcat(a: seq<Entry>, b: seq<Entry>, a': seq<Entry>, b': seq<Entry>, h: nat, on: bool)
    requires MarkedOnly(a, b, h, on) && MarkedOnly(a', b', h, on)
    ensures MarkedOnly(a + a', b + b', h, on)
  {
  }

  lemma {:induction false} SetCheckedMarks(menu: seq<Entry>, h: nat, on: bool)
    ensures MarkedOnly(Nodes(menu), Nodes(SetChecked(menu, h, on)), h, on)
  {
    hide MarkedOnly;
    if menu == [] {
      NothingMarked(h, on);
    } else {
      SetCheckedMarks(menu[1..], h, on);
      var e, after := menu[0], SetChecked(menu, h, on);
      assert after[1..] == SetChecked(menu[1..], h, on);
      if e.Separator? {
        NothingMarked(h, on);
        MarkedConcat([], [], Nodes(menu[1..]), Nodes(after[1..]), h, on);
      } else {
        SetCheckedMarks(e.kids, h, on);
        OneMarked(e, after[0], h, on);
        MarkedConcat([e], [after[0]], Nodes(e.kids), Nodes(after[0].kids), h, on);
        MarkedConcat([e] + Nodes(e.kids), [after[0]] + Nodes(after[0].kids), Nodes(menu[1..]), Nodes(after[1..]),
                     h, on);
      }
    }
  }

  lemma NothingMarked(h: nat, on: bool)
    ensures MarkedOnly([], [], h, on)
  {
  }

  lemma OneMarked(e: Entry, e': Entry, h: nat, on: bool)
    requires e.Node? && e' == SetCheckedOf(e, h, on)
    ensures MarkedOnly([e], [e'], h, on)
  {
  }

  /** Checking or unchecking an id sets the mark of the items registered under it and changes nothing
      else on screen; an unknown id changes nothing at all. */
  lemma CheckMarksOne(s: Side, id: string, on: bool)
    ensures var s' := Apply(s, if on then Check(id) else Uncheck(id));
            && s'.items == s.items && s'.next == s.next
            && (id !in s.items ==> s' == s)
            && (id in s.items ==> MarkedOnly(Nodes(s.menu), Nodes(s'.menu), s.items[id], on))
  {
    hide MarkedOnly;
    if id in s.items {
      SetCheckedMarks(s.menu, s.items[id], on);
    }
  }
}
