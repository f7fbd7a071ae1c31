/** The two tray processes as objects whose methods update their fields, each proved against the
    protocol functions. */
module TrayProcesses {
  import opened Text
  import opened TrayDecoder
  import opened TrayProtocol
  import opened TraySystem

  /** trayProc of the main process. stdin holds the lines written so far; writes are lost while
      the sidecar is not connected. Every method below runs under the tray mutex. */
  class TrayProc {
    var handlers: map<string, Handler>
    var idSeq: nat
    var connected: bool
    var stdin: seq<Cmd>

    constructor (connected: bool)
      ensures handlers == map[] && idSeq == 0 && stdin == [] && this.connected == connected
    {
      this.connected := connected;
      handlers, idSeq, stdin := map[], 0, [];
    }

    /** The lines reaching the sidecar when cs are written. */
    function Delivered(cs: seq<Cmd>): seq<Cmd>
      reads this
    {
      if connected then cs else []
    }

    /** The effect of performing acts, as a relation between old and new fields. */
    twostate predicate Performed(acts: seq<Action>, ids: nat)
      reads this
    {
      && handlers == Registered(old(handlers), acts)
      && stdin == old(stdin) + Delivered(Sends(acts))
      && idSeq == old(idSeq) + ids
      && connected == old(connected)
    }

    method Send(c: Cmd)
      modifies this`stdin
      ensures stdin == old(stdin) + Delivered([c])
    {
      if connected {
        stdin := stdin + [c];
      }
    }

    method NextID() returns (id: string)
      modifies this`idSeq
      ensures id == NextId(old(idSeq)) && idSeq == old(idSeq) + 1
    {
      idSeq := idSeq + 1;
      id := "id" + Decimal(idSeq);
    }

    method AddItemLocked(id: string, title: string, tooltip: string, checked: bool, click: Handler)
      returns (used: string)
      modifies this`handlers, this`idSeq, this`stdin
      ensures used == if id == "" then NextId(old(idSeq)) else id
      ensures idSeq == old(idSeq) + (if id == "" then 1 else 0)
      ensures handlers == old(handlers)[used := click]
      ensures stdin == old(stdin) + Delivered([AddItem(used, title, tooltip, checked)])
    {
      used := id;
      if used == "" {
        used := NextID();
      }
      handlers := handlers[used := click];
      Send(AddItem(used, title, tooltip, checked));
    }

    method AddSubItemLocked(parentId: string, id: string, title: string, tooltip: string, checked: bool, click: Handler)
      returns (used: string)
      modifies this`handlers, this`idSeq, this`stdin
      ensures used == if id == "" then NextId(old(idSeq)) else id
      ensures idSeq == old(idSeq) + (if id == "" then 1 else 0)
      ensures handlers == old(handlers)[used := click]
      ensures stdin == old(stdin) + Delivered([AddSubItem(parentId, used, title, tooltip, checked)])
    {
      used := id;
      if used == "" {
        used := NextID();
      }
      handlers := handlers[used := click];
      Send(AddSubItem(parentId, used, title, tooltip, checked));
    }

    method CreateMenuItemLocked(m: MenuItem, parentId: string)
      modifies this`handlers, this`idSeq, this`stdin
      ensures Performed(Actions(m, parentId, old(idSeq)), Count(m))
      decreases m
    {
      hide NextId;
      hide Registered;
      hide Sends;
      hide ForestActions;
      if m.hidden {
        NoSteps(handlers);
        return;
      }
      if m.kind == "item" {
        var click := EmitClick(m.event);
        if HasSuffix(m.event, "tray.exit") {
          click := GracefulExit;
        }
        var id;
        if parentId == "" {
          id := AddItemLocked("", m.text, m.tooltip, m.checked, click);
        } else {
          id := AddSubItemLocked(parentId, "", m.text, m.tooltip, m.checked, click);
        }
        ItemSteps(old(handlers), m, parentId, old(idSeq));
        assert handlers == old(handlers)[NextId(old(idSeq)) := ClickOf(m)];
        assert stdin == old(stdin) + Delivered([AddCmd(m, parentId, id)]);
        CreateChildren(m, id);
      } else if m.kind == "separator" {
        Send(AddSeparator);
        SeparatorSteps(handlers);
      } else {
        NoSteps(handlers);
      }
    }

    /** The loop over the children of an item that has just been added. */
    method CreateChildren(m: MenuItem, id: string)
      modifies this`handlers, this`idSeq, this`stdin
      ensures Performed(ForestActions(m.children, id, old(idSeq)), CountAll(m.children))
      decreases m, 0
    {
      hide NextId;
      hide Registered;
      hide Sends;
      hide ForestActions;
      hide Actions;
      hide Count;
      hide CountAll;
      var i := 0;
      ghost var done: seq<Action>, used: nat := [], 0;
      NoSteps(handlers);
      while i < |m.children|
        invariant 0 <= i <= |m.children|
        invariant Performed(done, used) && used + CountAll(m.children[i..]) == CountAll(m.children)
        invariant done + ForestActions(m.children[i..], id, idSeq) == ForestActions(m.children, id, old(idSeq))
      {
        NextSteps(old(handlers), done, m.children, i, id, idSeq);
        used, done := used + Count(m.children[i]), done + Actions(m.children[i], id, idSeq);
        CreateMenuItemLocked(m.children[i], id);
        i := i + 1;
      }
      AllSteps(done, m.children, i, id, idSeq);
    }

    method UpdateTrayMenus(menus: seq<MenuItem>)
      modifies this`handlers, this`idSeq, this`stdin
      ensures Performed(UpdateActions(menus, old(idSeq)), CountAll(menus))
    {
      hide NextId;
      hide Registered;
      hide Sends;
      hide ForestActions;
      hide Actions;
      hide Count;
      hide CountAll;
      handlers := map[];
      Send(ResetMenu);
      ghost var done: seq<Action>, used: nat := [ClearHandlers, Action.Send(ResetMenu)], 0;
      ResetSteps(old(handlers));
      var i := 0;
      while i < |menus|
        invariant 0 <= i <= |menus|
        invariant Performed(done, used) && used + CountAll(menus[i..]) == CountAll(menus)
        invariant done + ForestActions(menus[i..], "", idSeq) == UpdateActions(menus, old(idSeq))
      {
        NextSteps(old(handlers), done, menus, i, "", idSeq);
        used, done := used + Count(menus[i]), done + Actions(menus[i], "", idSeq);
        CreateMenuItemLocked(menus[i], "");
        i := i + 1;
      }
      AllSteps(done, menus, i, "", idSeq);
    }

    /** The initial population performed by the start function. */
    method Start(icon: string)
      modifies this`handlers, this`idSeq, this`stdin
      ensures Performed(StartActions(icon), 0)
    {
      Send(Init("PrivateDeploy", icon));
      var _ := AddItemLocked("__show", "Show", "Show", false, ShowWindow);
      var _ := AddItemLocked("__restart", "Restart", "Restart", false, RestartApp);
      var _ := AddItemLocked("__exit", "Exit", "Exit", false, GracefulExit);
      StartSteps(old(handlers), icon);
    }

    /** reader: what a click event runs, if anything; exactly what delivering the event fires. */
    method Click(id: string, ghost s: Sys) returns (run: Option<Handler>)
      requires s.handlers == handlers && s.clicks != [] && s.clicks[0].Node? && s.clicks[0].id == id
      ensures Deliver(s).fired
              == s.fired + match run case None => [] case Some(h) => [Firing(s.clicks[0], h, s.gen)]
    {
      if id in handlers {
        run := Some(handlers[id]);
      } else {
        run := None;
      }
    }
  }

  /** One turn of a loop over entries: what is done grows by the steps of the next entry. */
  lemma NextSteps(handlers: map<string, Handler>, done: seq<Action>, ms: seq<MenuItem>, i: nat, parent: string, n: nat)
    requires i < |ms|
    ensures var step := Actions(ms[i], parent, n);
            && Registered(handlers, done + step) == Registered(Registered(handlers, done), step)
            && Sends(done + step) == Sends(done) + Sends(step)
            && (done + step) + ForestActions(ms[i + 1..], parent, n + Count(ms[i]))
               == done + ForestActions(ms[i..], parent, n)
            && CountAll(ms[i..]) == Count(ms[i]) + CountAll(ms[i + 1..])
  {
    hide NextId;
    hide Actions;
    var step := Actions(ms[i], parent, n);
    RegisteredConcat(handlers, done, step);
    SendsConcat(done, step);
    assert ms[i..][0] == ms[i] && ms[i..][1..] == ms[i + 1..];
    assert (done + step) + ForestActions(ms[i + 1..], parent, n + Count(ms[i]))
        == done + (step + ForestActions(ms[i + 1..], parent, n + Count(ms[i])));
  }

  lemma AllSteps(done: seq<Action>, ms: seq<MenuItem>, i: nat, parent: string, n: nat)
    requires i == |ms|
    ensures done + ForestActions(ms[i..], parent, n) == done && CountAll(ms[i..]) == 0
  {
    assert ms[i..] == [] && done + [] == done;
  }

  lemma NoSteps(handlers: map<string, Handler>)
    ensures Registered(handlers, []) == handlers && Sends([]) == []
  {
  }

  lemma SeparatorSteps(handlers: map<string, Handler>)
    ensures var acts: seq<Action> := [Send(AddSeparator)];
            Registered(handlers, acts) == handlers && Sends(acts) == [AddSeparator]
  {
    var acts: seq<Action> := [Send(AddSeparator)];
    assert acts[1..] == [];
    assert Sends(acts) == [AddSeparator] + Sends([]) == [AddSeparator];
  }

  lemma OwnSteps(handlers: map<string, Handler>, id: string, click: Handler, c: Cmd)
    ensures var own := [Store(id, click), Send(c)];
            Registered(handlers, own) == handlers[id := click] && Sends(own) == [c]
  {
    var own := [Store(id, click), Send(c)];
    var last: seq<Action> := [Send(c)];
    assert own[1..] == last && last[1..] == [];
    assert Registered(handlers[id := click], last) == Registered(handlers[id := click], []);
    assert Sends([Send(c)]) == [c] + Sends([]) == [c];
  }

  lemma ItemSteps(handlers: map<string, Handler>, m: MenuItem, parent: string, n: nat)
    requires Shown(m)
    ensures var rest := ForestActions(m.children, NextId(n), n + 1);
            && Registered(handlers, Actions(m, parent, n)) == Registered(handlers[NextId(n) := ClickOf(m)], rest)
            && Sends(Actions(m, parent, n)) == [AddCmd(m, parent, NextId(n))] + Sends(rest)
  {
    hide NextId;
    var own := [Store(NextId(n), ClickOf(m)), Send(AddCmd(m, parent, NextId(n)))];
    var rest := ForestActions(m.children, NextId(n), n + 1);
    assert Actions(m, parent, n) == own + rest;
    OwnSteps(handlers, NextId(n), ClickOf(m), AddCmd(m, parent, NextId(n)));
    RegisteredConcat(handlers, own, rest);
    SendsConcat(own, rest);
  }

  lemma ResetSteps(handlers: map<string, Handler>)
    ensures var reset := [ClearHandlers, Send(ResetMenu)];
            Registered(handlers, reset) == map[] && Sends(reset) == [ResetMenu]
  {
    var reset := [ClearHandlers, Send(ResetMenu)];
    assert reset[1..] == [Send(ResetMenu)] && [Send(ResetMenu)][1..] == [];
    assert Sends([Send(ResetMenu)]) == [ResetMenu] + Sends([]) == [ResetMenu];
  }

  lemma StartSteps(handlers: map<string, Handler>, icon: string)
    ensures Registered(handlers, StartActions(icon))
            == handlers["__show" := ShowWindow]["__restart" := RestartApp]["__exit" := GracefulExit]
    ensures Sends(StartActions(icon))
            == [Init("PrivateDeploy", icon), AddItem("__show", "Show", "Show", false),
                AddItem("__restart", "Restart", "Restart", false), AddItem("__exit", "Exit", "Exit", false)]
  {
    var f0, f1, f2 := FALLBACKS[0], FALLBACKS[1], FALLBACKS[2];
    assert FALLBACKS[1..] == [f1, f2] && [f1, f2][1..] == [f2] && [f2][1..] == [];
    var a2 := FallbackSteps(f2);
    var a1 := FallbackSteps(f1);
    var a0 := FallbackSteps(f0);
    assert FallbackActions([f2]) == a2 + FallbackActions([]) == a2;
    assert FallbackActions([f1, f2]) == a1 + a2;
    assert FallbackActions(FALLBACKS) == a0 + (a1 + a2);
    var first := [Send(Init("PrivateDeploy", icon))];
    var h0 := handlers[f0.id := f0.handler];
    var h1 := h0[f1.id := f1.handler];
    OwnSteps(handlers, f0.id, f0.handler, AddItem(f0.id, f0.title, f0.title, false));
    OwnSteps(h0, f1.id, f1.handler, AddItem(f1.id, f1.title, f1.title, false));
    OwnSteps(h1, f2.id, f2.handler, AddItem(f2.id, f2.title, f2.title, false));
    RegisteredConcat(handlers, first, a0 + (a1 + a2));
    RegisteredConcat(handlers, a0, a1 + a2);
    RegisteredConcat(h0, a1, a2);
    SendsConcat(first, a0 + (a1 + a2));
    SendsConcat(a0, a1 + a2);
    SendsConcat(a1, a2);
    assert first[1..] == [];
    assert Sends(first) == [Init("PrivateDeploy", icon)] + Sends([]);
  }

  function FallbackSteps(f: Fallback): seq<Action> {
    [Store(f.id, f.handler), Send(AddItem(f.id, f.title, f.title, false))]
  }

  /** The sidecar: its menu and its id table. */
  class Sidecar {
    var menu: seq<Entry>
    var items: map<string, nat>
    var next: nat

    constructor ()
      ensures State() == Side([], map[], 0)
    {
      menu, items, next := [], map[], 0;
    }

    function State(): Side
      reads this
    {
      Side(menu, items, next)
    }

    method AddMenuItem(title: string, tooltip: string, id: string, checked: bool) returns (h: nat)
      modifies this`menu, this`next
      ensures h == old(next) && next == h + 1
      ensures menu == old(menu) + [Node(h, id, title, tooltip, checked, [])]
    {
      h := next;
      next := next + 1;
      menu := menu + [Node(h, id, title, tooltip, checked, [])];
    }

    method AddSubMenuItem(parent: nat, title: string, tooltip: string, id: string, checked: bool) returns (h: nat)
      modifies this`menu, this`next
      ensures h == old(next) && next == h + 1
      ensures menu == AppendKids(old(menu), parent, [Node(h, id, title, tooltip, checked, [])])
    {
      h := next;
      next := next + 1;
      menu := AppendKids(menu, parent, [Node(h, id, title, tooltip, checked, [])]);
    }

    method HandleCmd(c: Cmd)
      modifies this
      ensures State() == Apply(old(State()), c)
    {
      match c
      case ResetMenu =>
        menu := [];
        items := map[];
      case AddItem(id, title, tooltip, checked) =>
        var h := AddMenuItem(title, tooltip, id, checked);
        items := items[id := h];
      case AddSubItem(parentId, id, title, tooltip, checked) =>
        if parentId !in items {
          return;
        }
        var h := AddSubMenuItem(items[parentId], title, tooltip, id, checked);
        items := items[id := h];
      case AddSeparator =>
        menu := menu + [Separator];
      case Check(id) =>
        if id in items {
          menu := SetChecked(menu, items[id], true);
        }
      case Uncheck(id) =>
        if id in items {
          menu := SetChecked(menu, items[id], false);
        }
      case _ =>
    }

    /** reader: handle every line in order. */
    method Reader(lines: seq<Cmd>)
      modifies this
      ensures State() == Run(old(State()), lines)
    {
      var i := 0;
      while i < |lines|
        invariant 0 <= i <= |lines|
        invariant State() == Run(old(State()), lines[..i])
      {
        HandleCmd(lines[i]);
        RunConcat(old(State()), lines[..i], [lines[i]]);
        assert lines[..i + 1] == lines[..i] + [lines[i]];
        assert [lines[i]][1..] == [];
        i := i + 1;
      }
      assert lines[..i] == lines;
    }
  }
}
