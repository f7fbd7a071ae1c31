/** The tray menu protocol: the commands of the pipe, what the main process emits for a menu
    forest, and how the sidecar's state evolves as it consumes them. */
module TrayProtocol {
  import opened Text

  /** A menu entry as the frontend hands it over; only kinds "item" and "separator" are shown. */
  datatype MenuItem = MenuItem(
    kind: string, text: string, tooltip: string, event: string,
    children: seq<MenuItem>, hidden: bool, checked: bool)

  /** One line on the sidecar's standard input. */
  datatype Cmd =
    | Init(tooltip: string, icon: string)
    | SetIcon(icon: string)
    | SetTitle(value: string)
    | SetTooltip(value: string)
    | ResetMenu
    | AddItem(id: string, title: string, tooltip: string, checked: bool)
    | AddSubItem(parentId: string, id: string, title: string, tooltip: string, checked: bool)
    | AddSeparator
    | Check(id: string)
    | Uncheck(id: string)
    | Quit
    | UnknownOp

  /** What a click runs in the main process. */
  datatype Handler = ShowWindow | RestartApp | GracefulExit | EmitClick(event: string)

  // ---------------------------------------------------------------- main process

  /** A step the main process takes while it holds the tray mutex. */
  datatype Action = ClearHandlers | Store(id: string, handler: Handler) | Send(cmd: Cmd)

  /** The id handed out when the counter stands at n. */
  function NextId(n: nat): (id: string)
    ensures id != ""
  {
    "id" + Decimal(n + 1)
  }

  function ClickOf(m: MenuItem): Handler {
    if HasSuffix(m.event, "tray.exit") then GracefulExit else EmitClick(m.event)
  }

  predicate Shown(m: MenuItem) {
    !m.hidden && m.kind == "item"
  }

  /** Number of ids an entry uses up: one for each item that is not inside a hidden subtree. */
  function Count(m: MenuItem): nat {
    if Shown(m) then 1 + CountAll(m.children) else 0
  }

  function CountAll(ms: seq<MenuItem>): nat {
    if ms == [] then 0 else Count(ms[0]) + CountAll(ms[1..])
  }

  function AddCmd(m: MenuItem, parent: string, id: string): Cmd {
    if parent == "" then AddItem(id, m.text, m.tooltip, m.checked)
    else AddSubItem(parent, id, m.text, m.tooltip, m.checked)
  }

  function Actions(m: MenuItem, parent: string, n: nat): seq<Action> {
    if m.hidden then []
    else if m.kind == "item" then
      [Store(NextId(n), ClickOf(m)), Send(AddCmd(m, parent, NextId(n)))]
      + ForestActions(m.children, NextId(n), n + 1)
    else if m.kind == "separator" then [Send(AddSeparator)]
    else []
  }

  function ForestActions(ms: seq<MenuItem>, parent: string, n: nat): seq<Action> {
    if ms == [] then []
    else Actions(ms[0], parent, n) + ForestActions(ms[1..], parent, n + Count(ms[0]))
  }

  function UpdateActions(ms: seq<MenuItem>, n: nat): seq<Action> {
    [ClearHandlers, Send(ResetMenu)] + ForestActions(ms, "", n)
  }

  datatype Fallback = Fallback(id: string, title: string, handler: Handler)

  const FALLBACKS: seq<Fallback> := [
    Fallback("__show", "Show", ShowWindow),
    Fallback("__restart", "Restart", RestartApp),
    Fallback("__exit", "Exit", GracefulExit)]

  function FallbackActions(fs: seq<Fallback>): seq<Action> {
    if fs == [] then []
    else [Store(fs[0].id, fs[0].handler), Send(AddItem(fs[0].id, fs[0].title, fs[0].title, false))]
         + FallbackActions(fs[1..])
  }

  function StartActions(icon: string): seq<Action> {
    [Send(Init("PrivateDeploy", icon))] + FallbackActions(FALLBACKS)
  }

  /** The handler map after one step, and after several. */
  function RegisterOne(handlers: map<string, Handler>, act: Action): map<string, Handler> {
    match act
    case ClearHandlers => map[]
    case Store(id, h) => handlers[id := h]
    case Send(_) => handlers
  }

  function Registered(handlers: map<string, Handler>, acts: seq<Action>): map<string, Handler>
    decreases |acts|
  {
    if acts == [] then handlers else Registered(RegisterOne(handlers, acts[0]), acts[1..])
  }

  /** The commands written by some steps, in order. */
  function Sends(acts: seq<Action>): seq<Cmd> {
    if acts == [] then []
    else (if acts[0].Send? then [acts[0].cmd] else []) + Sends(acts[1..])
  }

  // ---------------------------------------------------------------- sidecar

  /** An entry of the visible menu. Handles stand for menu-item objects; an item's click
      callback has captured its id. */
  datatype Entry =
    | Separator
    | Node(handle: nat, id: string, title: string, tooltip: string, checked: bool, kids: seq<Entry>)

  /** The sidecar: the menu on screen, its id table, and the next free handle. */
  datatype Side = Side(menu: seq<Entry>, items: map<string, nat>, next: nat)

  function AppendKids(menu: seq<Entry>, h: nat, es: seq<Entry>): seq<Entry> {
    if menu == [] then []
    else [AppendKidsTo(menu[0], h, es)] + AppendKids(menu[1..], h, es)
  }

  function AppendKidsTo(e: Entry, h: nat, es: seq<Entry>): Entry {
    match e
    case Separator => Separator
    case Node(_, _, _, _, _, kids) =>
      e.(kids := AppendKids(kids, h, es) + (if e.handle == h then es else []))
  }

  function SetChecked(menu: seq<Entry>, h: nat, on: bool): seq<Entry> {
    if menu == [] then [] else [SetCheckedOf(menu[0], h, on)] + SetChecked(menu[1..], h, on)
  }

  function SetCheckedOf(e: Entry, h: nat, on: bool): Entry {
    match e
    case Separator => Separator
    case Node(_, _, _, _, _, kids) =>
      e.(checked := if e.handle == h then on else e.checked, kids := SetChecked(kids, h, on))
  }

  /** One handled command. A sub-item whose parent id is unknown is dropped. */
  function Apply(s: Side, c: Cmd): Side {
    match c
    case ResetMenu => s.(menu := [], items := map[])
    case AddItem(id, title, tooltip, checked) =>
      Side(s.menu + [Node(s.next, id, title, tooltip, checked, [])], s.items[id := s.next], s.next + 1)
    case AddSubItem(parentId, id, title, tooltip, checked) =>
      if parentId !in s.items then s
      else Side(AppendKids(s.menu, s.items[parentId], [Node(s.next, id, title, tooltip, checked, [])]),
                s.items[id := s.next], s.next + 1)
    case AddSeparator => s.(menu := s.menu + [Separator])
    case Check(id) => if id in s.items then s.(menu := SetChecked(s.menu, s.items[id], true)) else s
    case Uncheck(id) => if id in s.items then s.(menu := SetChecked(s.menu, s.items[id], false)) else s
    case _ => s
  }

  function Run(s: Side, cs: seq<Cmd>): Side
    decreases |cs|
  {
    if cs == [] then s else Run(Apply(s, cs[0]), cs[1..])
  }

  // ---------------------------------------------------------------- what the user should see

  /** A menu without ids and handles. */
  datatype Shape = Line | Labelled(title: string, tooltip: string, checked: bool, kids: seq<Shape>)

  function Lines(n: nat): seq<Shape> {
    if n == 0 then [] else [Line] + Lines(n - 1)
  }

  /** Separators anywhere inside an entry, hidden subtrees excluded. */
  function SeparatorsIn(m: MenuItem): nat {
    if m.hidden then 0
    else if m.kind == "item" then SeparatorsInAll(m.children)
    else if m.kind == "separator" then 1
    else 0
  }

  function SeparatorsInAll(ms: seq<MenuItem>): nat {
    if ms == [] then 0 else SeparatorsIn(ms[0]) + SeparatorsInAll(ms[1..])
  }

  /** The items of a list of children, in order, without hidden ones, separators and unknown kinds. */
  function VisibleKids(ms: seq<MenuItem>): seq<Shape> {
    if ms == [] then []
    else (if Shown(ms[0])
          then [Labelled(ms[0].text, ms[0].tooltip, ms[0].checked, VisibleKids(ms[0].children))]
          else []) + VisibleKids(ms[1..])
  }

  /** The top level: each visible entry followed by the separators found inside it. */
  function VisibleMenu(ms: seq<MenuItem>): seq<Shape> {
    if ms == [] then []
    else VisibleKids([ms[0]]) + Lines(SeparatorsIn(ms[0])) + VisibleMenu(ms[1..])
  }

  function FallbackShapes(fs: seq<Fallback>): seq<Shape> {
    if fs == [] then [] else [Labelled(fs[0].title, fs[0].title, false, [])] + FallbackShapes(fs[1..])
  }

  function Erase(menu: seq<Entry>): seq<Shape> {
    if menu == [] then []
    else [match menu[0]
          case Separator => Line
          case Node(_, _, title, tooltip, checked, kids) => Labelled(title, tooltip, checked, Erase(kids))]
         + Erase(menu[1..])
  }

  /** Ids on screen, depth first. */
  function Ids(menu: seq<Entry>): seq<string> {
    if menu == [] then []
    else (match menu[0]
          case Separator => []
          case Node(_, id, _, _, _, kids) => [id] + Ids(kids))
         + Ids(menu[1..])
  }
}
