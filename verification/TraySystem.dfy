/** Both tray processes and both pipes as one transition system. The main process performs its
    tray steps one at a time under the mutex; the sidecar reads commands, the user clicks, and
    click events travel back, in any interleaving. */
module TraySystem {
  import opened TrayProtocol

  /** What an id was created for. Generation g counts the menu replacements begun before it. */
  datatype Origin = FromMenu(item: MenuItem, gen: nat) | FromStart(fallback: Fallback)

  function HandlerOf(o: Origin): Handler {
    match o
    case FromMenu(m, _) => ClickOf(m)
    case FromStart(f) => f.handler
  }

  predicate LabelsFit(title: string, tooltip: string, checked: bool, o: Origin) {
    match o
    case FromMenu(m, _) => title == m.text && tooltip == m.tooltip && checked == m.checked
    case FromStart(f) => title == f.title && tooltip == f.title && !checked
  }

  /** A click event: the entry the user hit, as it looked. */
  datatype Firing = Firing(shown: Entry, handler: Handler, gen: nat)

  /** The last three fields record history: the origin of every id ever made, the menu last asked
      for, and whether every command so far reached the pipe. */
  datatype Sys = Sys(
    handlers: map<string, Handler>, idSeq: nat, gen: nat, work: seq<Action>, pipe: seq<Cmd>,
    side: Side, clicks: seq<Entry>, fired: seq<Firing>,
    born: map<string, Origin>, wanted: seq<Shape>, whole: bool)

  function Births(ms: seq<MenuItem>, n: nat, gen: nat): map<string, Origin> {
    if ms == [] then map[]
    else BirthsOf(ms[0], n, gen) + Births(ms[1..], n + Count(ms[0]), gen)
  }

  function BirthsOf(m: MenuItem, n: nat, gen: nat): map<string, Origin> {
    if Shown(m) then map[NextId(n) := FromMenu(m, gen)] + Births(m.children, n + 1, gen) else map[]
  }

  function StartBirths(fs: seq<Fallback>): map<string, Origin> {
    if fs == [] then map[] else map[fs[0].id := FromStart(fs[0])] + StartBirths(fs[1..])
  }

  /** Items on screen, nested ones included. */
  function Nodes(menu: seq<Entry>): seq<Entry> {
    if menu == [] then []
    else (match menu[0]
          case Separator => []
          case Node(_, _, _, _, _, kids) => [menu[0]] + Nodes(kids))
         + Nodes(menu[1..])
  }

  // ---------------------------------------------------------------- transitions

  predicate Initial(s: Sys) {
    s == Sys(map[], 0, 0, [], [], Side([], map[], 0), [], [], map[], [], true)
  }

  /** UpdateTrayMenus takes the mutex. */
  function Rebuild(s: Sys, ms: seq<MenuItem>): Sys {
    s.(work := UpdateActions(ms, s.idSeq), idSeq := s.idSeq + CountAll(ms),
       born := s.born + Births(ms, s.idSeq, s.gen + 1), wanted := VisibleMenu(ms))
  }

  /** The start function returned by CreateTray takes the mutex. */
  function Start(s: Sys, icon: string): Sys {
    s.(work := StartActions(icon), born := s.born + StartBirths(FALLBACKS),
       wanted := s.wanted + FallbackShapes(FALLBACKS))
  }

  predicate Decoration(c: Cmd) {
    c.SetIcon? || c.SetTitle? || c.SetTooltip? || c.Quit?
  }

  /** The mutex holder's next step; a command is lost when the write to the sidecar fails. */
  function Act(s: Sys, lost: bool): Sys
    requires s.work != []
  {
    var s' := s.(work := s.work[1..]);
    match s.work[0]
    case ClearHandlers => s'.(handlers := map[], gen := s.gen + 1)
    case Store(id, h) => s'.(handlers := s.handlers[id := h])
    case Send(c) => if lost then s'.(whole := false) else s'.(pipe := s.pipe + [c])
  }

  function Consume(s: Sys): Sys
    requires s.pipe != []
  {
    s.(side := Apply(s.side, s.pipe[0]), pipe := s.pipe[1..])
  }

  /** The main process reads a click event and looks its id up. */
  function Deliver(s: Sys): Sys
    requires s.clicks != [] && s.clicks[0].Node?
  {
    var s' := s.(clicks := s.clicks[1..]);
    if s.clicks[0].id in s.handlers
    then s'.(fired := s.fired + [Firing(s.clicks[0], s.handlers[s.clicks[0].id], s.gen)])
    else s'
  }

  datatype Label =
    | LRebuild(ms: seq<MenuItem>)
    | LStart(icon: string)
    | LDecorate(cmd: Cmd)
    | LAct(lost: bool)
    | LConsume
    | LClick(entry: Entry)
    | LDeliver

  ghost predicate Step(s: Sys, l: Label, s': Sys) {
    match l
    case LRebuild(ms) => s.work == [] && s' == Rebuild(s, ms)
    case LStart(icon) => s.work == [] && s' == Start(s, icon)
    case LDecorate(c) => s.work == [] && Decoration(c) && s' == s.(work := [Send(c)])
    case LAct(lost) => s.work != [] && s' == Act(s, lost)
    case LConsume => s.pipe != [] && s' == Consume(s)
    case LClick(e) => e.Node? && e in Nodes(s.side.menu) && s' == s.(clicks := s.clicks + [e])
    case LDeliver => s.clicks != [] && s.clicks[0].Node? && s' == Deliver(s)
  }

  ghost predicate Reaches(s: Sys, ls: seq<Label>, s': Sys)
    decreases |ls|
  {
    if ls == [] then s == s' else exists t :: Step(s, ls[0], t) && Reaches(t, ls[1..], s')
  }
}
