/** The plugin list and the per-trigger observer lists derived from it. */
module PluginTriggers {
  import opened Seqs

  datatype Trigger =
    | OnManual | OnSubscribe | OnGenerate | OnStartup | OnShutdown | OnReady
    | OnCoreStarted | OnCoreStopped | OnBeforeCoreStart | OnBeforeCoreStop

  const TRIGGERS: set<Trigger> := {
    OnManual, OnSubscribe, OnGenerate, OnStartup, OnShutdown, OnReady,
    OnCoreStarted, OnCoreStopped, OnBeforeCoreStart, OnBeforeCoreStop}

  lemma EveryTrigger(t: Trigger)
    ensures t in TRIGGERS
  {
  }

  /** `rest` stands for version, path, configuration and the other fields. */
  datatype Plugin = Plugin(id: string, triggers: seq<Trigger>, rest: string)

  type Index = m: map<Trigger, seq<string>> | m.Keys == TRIGGERS witness map t | t in TRIGGERS :: []

  /** registered: plugins entered in the index so far and not deleted since. */
  datatype Store = Store(plugins: seq<Plugin>, index: Index, registered: set<string>)

  /** findIndex by id. */
  function Position(plugins: seq<Plugin>, id: string): int {
    if plugins == [] then -1
    else if plugins[0].id == id then 0
    else var r := Position(plugins[1..], id); if r == -1 then -1 else r + 1
  }

  /** Registered plugins carrying t, in list order. */
  function Carriers(plugins: seq<Plugin>, registered: set<string>, t: Trigger): seq<string> {
    if plugins == [] then []
    else (if plugins[0].id in registered && t in plugins[0].triggers then [plugins[0].id] else [])
         + Carriers(plugins[1..], registered, t)
  }

  predicate IndexedAt(s: Store, t: Trigger)
    requires t in TRIGGERS
  {
    s.index[t] == Carriers(s.plugins, s.registered, t)
  }

  predicate Indexed(s: Store) {
    forall t | t in TRIGGERS :: IndexedAt(s, t)
  }

  predicate Distinct(plugins: seq<Plugin>) {
    forall i, j | 0 <= i < j < |plugins| :: plugins[i].id != plugins[j].id
  }

  predicate NoRepeats(ts: seq<Trigger>) {
    forall i, j | 0 <= i < j < |ts| :: ts[i] != ts[j]
  }

  function Other(id: string): string -> bool {
    x => x != id
  }

  function Removed(index: Index, id: string): Index {
    map t | t in TRIGGERS :: Filter(index[t], Other(id))
  }

  /** First observer that is gone from the list or stands after position k. */
  function InsertPoint(observers: seq<string>, plugins: seq<Plugin>, k: int): (i: nat)
    ensures i <= |observers|
  {
    if observers == [] then 0
    else
      var at := Position(plugins, observers[0]);
      if at == -1 || at > k then 0 else 1 + InsertPoint(observers[1..], plugins, k)
  }

  function Inserted(observers: seq<string>, plugins: seq<Plugin>, id: string): seq<string> {
    var i := InsertPoint(observers, plugins, Position(plugins, id));
    observers[..i] + [id] + observers[i..]
  }

  function InsertedAll(index: Index, plugins: seq<Plugin>, id: string, ts: seq<Trigger>): Index
    decreases |ts|
  {
    if ts == [] then index
    else
      EveryTrigger(ts[0]);
      InsertedAll(index[ts[0] := Inserted(index[ts[0]], plugins, id)], plugins, id, ts[1..])
  }

  /** updatePluginTrigger(p). */
  function Updated(index: Index, plugins: seq<Plugin>, p: Plugin): Index {
    InsertedAll(Removed(index, p.id), plugins, p.id, p.triggers)
  }

  // ---------------------------------------------------------------- store operations

  function Edit(s: Store, id: string, p: Plugin, saved: bool): Store {
    var k := Position(s.plugins, id);
    if k < 0 || k >= |s.plugins| || !saved then s
    else
      var plugins := s.plugins[k := p];
      Store(plugins, Updated(s.index, plugins, p), s.registered + {p.id})
  }

  function Delete(s: Store, id: string, saved: bool): Store {
    var k := Position(s.plugins, id);
    if k < 0 || k >= |s.plugins| || !saved then s
    else Store(s.plugins[..k] + s.plugins[k + 1..], Removed(s.index, s.plugins[k].id), s.registered - {s.plugins[k].id})
  }

  /** What the Plugin-Hub check inside an update does before the code is fetched. */
  datatype HubCheck =
    | Untouched
    | Missing
    | Major(clone: Plugin, savedEdit: bool)
    | Minor(version: string, savedEdit: bool)

  /** The edit made by the hub check, if it was made. */
  predicate Edited(hub: HubCheck) {
    (hub.Major? || hub.Minor?) && hub.savedEdit
  }

  predicate HubFails(hub: HubCheck) {
    hub.Missing? || ((hub.Major? || hub.Minor?) && !hub.savedEdit)
  }

  /** The list entry after the hub check, and the plugin object the caller goes on with. */
  function Listed(p: Plugin, hub: HubCheck): Plugin {
    if hub.Major? && hub.savedEdit then hub.clone else Held(p, hub)
  }

  function Held(p: Plugin, hub: HubCheck): Plugin {
    if hub.Minor? then p.(rest := hub.version) else p
  }

  function AddSucceeds(hub: HubCheck, fetched: bool, saved: bool): bool {
    !HubFails(hub) && fetched && saved
  }

  function Add(s: Store, p: Plugin, hub: HubCheck, fetched: bool, saved: bool): Store {
    var pushed := s.(plugins := s.plugins + [Held(p, hub)]);
    var checked := if Edited(hub) then Edit(pushed, p.id, Listed(p, hub), true) else pushed;
    if AddSucceeds(hub, fetched, saved) then
      Store(checked.plugins, Updated(checked.index, checked.plugins, Held(p, hub)), checked.registered + {p.id})
    else checked.(plugins := if checked.plugins == [] then [] else checked.plugins[..|checked.plugins| - 1])
  }

  // ---------------------------------------------------------------- carriers

  lemma {:induction false} CarriersConcat(a: seq<Plugin>, b: seq<Plugin>, registered: set<string>, t: Trigger)
    ensures Carriers(a + b, registered, t) == Carriers(a, registered, t) + Carriers(b, registered, t)
  {
    if a == [] {
      assert a + b == b;
    } else {
      assert (a + b)[1..] == a[1..] + b;
      CarriersConcat(a[1..], b, registered, t);
    }
  }

  /** Filtering an id out of a carrier list is the same as never registering it. */
  lemma {:induction false} CarriersWithout(ps: seq<Plugin>, registered: set<string>, t: Trigger, id: string)
    ensures Filter(Carriers(ps, registered, t), Other(id)) == Carriers(ps, registered - {id}, t)
  {
    if ps != [] {
      var first := if ps[0].id in registered && t in ps[0].triggers then [ps[0].id] else [];
      CarriersWithout(ps[1..], registered, t, id);
      FilterConcat(first, Carriers(ps[1..], registered, t), Other(id));
      if first != [] { FilterOne(ps[0].id, Other(id)); }
    }
  }

  predicate Absent(ps: seq<Plugin>, id: string) {
    forall p | p in ps :: p.id != id
  }

  /** Plugins with other ids do not notice whether id is registered. */
  lemma {:induction false} CarriersIgnore(ps: seq<Plugin>, registered: set<string>, t: Trigger, id: string)
    requires Absent(ps, id)
    ensures Carriers(ps, registered - {id}, t) == Carriers(ps, registered, t) == Carriers(ps, registered + {id}, t)
  {
    if ps != [] { CarriersIgnore(ps[1..], registered, t, id); }
  }

  lemma {:induction false} CarriersInList(ps: seq<Plugin>, registered: set<string>, t: Trigger, x: string)
    requires x in Carriers(ps, registered, t)
    ensures exists p :: p in ps && p.id == x
  {
    if ps[0].id == x { assert ps[0] in ps; } else { CarriersInList(ps[1..], registered, t, x); }
  }

  lemma {:induction false} PositionFound(a: seq<Plugin>, q: Plugin, b: seq<Plugin>)
    requires Absent(a, q.id)
    ensures Position(a + [q] + b, q.id) == |a|
  {
    var all := a + [q] + b;
    if a != [] {
      assert all[0] == a[0] && a[0] in a;
      assert all[1..] == a[1..] + [q] + b;
      PositionFound(a[1..], q, b);
    }
  }

  lemma {:induction false} PositionRange(ps: seq<Plugin>, id: string)
    ensures -1 <= Position(ps, id) < |ps|
    ensures Position(ps, id) == -1 <==> Absent(ps, id)
    ensures Position(ps, id) >= 0 ==>
              ps[Position(ps, id)].id == id && Absent(ps[..Position(ps, id)], id)
  {
    if ps != [] {
      var k := Position(ps[1..], id);
      PositionRange(ps[1..], id);
      assert ps[0] in ps && forall p | p in ps[1..] :: p in ps;
      if ps[0].id != id && k >= 0 {
        assert ps[..k + 1] == [ps[0]] + ps[1..][..k];
        assert ps[k + 1] == ps[1..][k] && ps[k + 1] in ps;
      }
    }
  }

  lemma {:induction false} PositionPrefix(a: seq<Plugin>, b: seq<Plugin>, x: string)
    requires !Absent(a, x)
    ensures 0 <= Position(a + b, x) < |a|
  {
    if a[0].id != x {
      assert (a + b)[1..] == a[1..] + b;
      PositionPrefix(a[1..], b, x);
    }
  }

  // ---------------------------------------------------------------- insertion

  lemma {:induction false} InsertPointSkips(front: seq<string>, back: seq<string>, plugins: seq<Plugin>, k: int)
    requires forall x | x in front :: 0 <= Position(plugins, x) <= k
    requires forall x | x in back :: Position(plugins, x) > k
    ensures InsertPoint(front + back, plugins, k) == |front|
  {
    if front == [] {
      assert front + back == back;
      if back != [] { assert back[0] in back; }
    } else {
      assert front[0] in front && (front + back)[1..] == front[1..] + back;
      InsertPointSkips(front[1..], back, plugins, k);
    }
  }

  /** The insertion point is the first observer that is gone from the list or stands after position k. */
  lemma {:induction false} InsertPointIs(observers: seq<string>, plugins: seq<Plugin>, k: int)
    ensures var i := InsertPoint(observers, plugins, k);
            && (forall x | x in observers[..i] :: !Absent(plugins, x) && Position(plugins, x) <= k)
            && (i < |observers| ==> Absent(plugins, observers[i]) || Position(plugins, observers[i]) > k)
  {
    if observers != [] {
      PositionRange(plugins, observers[0]);
      InsertPointIs(observers[1..], plugins, k);
      var i := InsertPoint(observers, plugins, k);
      assert i > 0 ==> observers[..i] == [observers[0]] + observers[1..][..i - 1];
    }
  }

  /** Where the id goes: between the carriers before its plugin and those after it. */
  lemma InsertedBetween(a: seq<Plugin>, q: Plugin, b: seq<Plugin>, registered: set<string>, t: Trigger)
    requires Distinct(a + [q] + b)
    ensures var front, back := Carriers(a, registered - {q.id}, t), Carriers(b, registered - {q.id}, t);
            Inserted(front + back, a + [q] + b, q.id) == front + [q.id] + back
  {
    var all := a + [q] + b;
    var front, back := Carriers(a, registered - {q.id}, t), Carriers(b, registered - {q.id}, t);
    DistinctParts(a, q, b);
    PositionFound(a, q, b);
    forall x | x in front
      ensures 0 <= Position(all, x) <= |a|
    {
      CarriersInList(a, registered - {q.id}, t, x);
      assert all == a + ([q] + b);
      PositionPrefix(a, [q] + b, x);
    }
    forall x | x in back
      ensures Position(all, x) > |a|
    {
      CarriersInList(b, registered - {q.id}, t, x);
      var i :| 0 <= i < |b| && b[i].id == x;
      var j := |a| + 1 + i;
      assert all[j] == b[i];
      PositionRange(all, x);
      assert all[j] in all;
      var k := Position(all, x);
      assert k == j;
    }
    InsertPointSkips(front, back, all, |a|);
    assert (front + back)[..|front|] == front && (front + back)[|front|..] == back;
  }

  lemma DistinctParts(a: seq<Plugin>, q: Plugin, b: seq<Plugin>)
    requires Distinct(a + [q] + b)
    ensures Absent(a, q.id) && Absent(b, q.id) && Distinct(a + b)
  {
    var all := a + [q] + b;
    forall i | 0 <= i < |a|
      ensures a[i].id != q.id
    {
      assert all[i] == a[i] && all[|a|] == q;
    }
    forall i | 0 <= i < |b|
      ensures b[i].id != q.id
    {
      assert all[|a| + 1 + i] == b[i] && all[|a|] == q;
    }
    forall i, j | 0 <= i < j < |a + b|
      ensures (a + b)[i].id != (a + b)[j].id
    {
      var i', j' := if i < |a| then i else i + 1, if j < |a| then j else j + 1;
      assert all[i'] == (a + b)[i] && all[j'] == (a + b)[j];
    }
  }

  /** Inserting an id under several distinct triggers. */
  lemma {:induction false} InsertedAllAt(index: Index, plugins: seq<Plugin>, id: string, ts: seq<Trigger>, t: Trigger)
    requires NoRepeats(ts) && t in TRIGGERS
    ensures InsertedAll(index, plugins, id, ts)[t]
            == if t in ts then Inserted(index[t], plugins, id) else index[t]
    decreases |ts|
  {
    if ts != [] {
      EveryTrigger(ts[0]);
      var index' := index[ts[0] := Inserted(index[ts[0]], plugins, id)];
      InsertedAllAt(index', plugins, id, ts[1..], t);
      assert ts[0] !in ts[1..];
    }
  }

  /** The index agrees with a ++ b except perhaps for id. */
  predicate IndexedBut(index: Index, a: seq<Plugin>, b: seq<Plugin>, registered: set<string>, id: string) {
    forall t | t in TRIGGERS :: Filter(index[t], Other(id))
                                == Carriers(a, registered - {id}, t) + Carriers(b, registered - {id}, t)
  }

  /** updatePluginTrigger puts id exactly under p's triggers, at its place in the list. */
  lemma UpdatedAt(index: Index, a: seq<Plugin>, q: Plugin, b: seq<Plugin>, p: Plugin, registered: set<string>,
                  t: Trigger)
    requires Distinct(a + [q] + b) && p.id == q.id && NoRepeats(p.triggers)
    requires IndexedBut(index, a, b, registered, p.id) && t in TRIGGERS
    ensures Updated(index, a + [q] + b, p)[t]
            == Carriers(a, registered - {p.id}, t) + (if t in p.triggers then [p.id] else [])
               + Carriers(b, registered - {p.id}, t)
  {
    hide Carriers;
    hide Inserted;
    hide InsertedAll;
    hide Filter;
    hide Distinct;
    InsertedAllAt(Removed(index, p.id), a + [q] + b, p.id, p.triggers, t);
    InsertedBetween(a, q, b, registered, t);
    var front, back := Carriers(a, registered - {p.id}, t), Carriers(b, registered - {p.id}, t);
    assert front + [] + back == front + back;
  }

  lemma FilteredBack(front: seq<string>, mid: seq<string>, back: seq<string>, id: string)
    requires mid == [] || mid == [id]
    ensures Filter(front + mid + back, Other(id)) == Filter(front, Other(id)) + Filter(back, Other(id))
  {
    FilterConcat(front + mid, back, Other(id));
    FilterConcat(front, mid, Other(id));
    FilterOne(id, Other(id));
    assert Filter(front, Other(id)) + [] == Filter(front, Other(id));
  }

  /** After updatePluginTrigger the id can be filtered out again: the rest of the index is intact. */
  lemma UpdatedBut(index: Index, a: seq<Plugin>, q: Plugin, b: seq<Plugin>, p: Plugin, registered: set<string>)
    requires Distinct(a + [q] + b) && p.id == q.id && NoRepeats(p.triggers)
    requires IndexedBut(index, a, b, registered, p.id)
    ensures IndexedBut(Updated(index, a + [q] + b, p), a, b, registered, p.id)
  {
    hide Updated;
    hide Carriers;
    hide Distinct;
    hide NoRepeats;
    var id := p.id;
    forall t | t in TRIGGERS
      ensures Filter(Updated(index, a + [q] + b, p)[t], Other(id))
              == Carriers(a, registered - {id}, t) + Carriers(b, registered - {id}, t)
    {
      UpdatedAt(index, a, q, b, p, registered, t);
      FilteredBack(Carriers(a, registered - {id}, t), if t in p.triggers then [id] else [],
                   Carriers(b, registered - {id}, t), id);
      CarriersWithout(a, registered - {id}, t, id);
      CarriersWithout(b, registered - {id}, t, id);
      assert registered - {id} - {id} == registered - {id};
    }
  }

  lemma CarriersAround(a: seq<Plugin>, q: Plugin, b: seq<Plugin>, registered: set<string>, t: Trigger)
    ensures Carriers(a + [q] + b, registered, t)
            == Carriers(a, registered, t) + (if q.id in registered && t in q.triggers then [q.id] else [])
               + Carriers(b, registered, t)
  {
    CarriersConcat(a + [q], b, registered, t);
    CarriersConcat(a, [q], registered, t);
    assert [q][1..] == [];
  }

  lemma IndexedGivesBut(s: Store, a: seq<Plugin>, q: Plugin, b: seq<Plugin>)
    requires Indexed(s) && s.plugins == a + [q] + b
    ensures IndexedBut(s.index, a, b, s.registered, q.id) || !Distinct(s.plugins)
  {
    if Distinct(s.plugins) {
      DistinctParts(a, q, b);
      forall t | t in TRIGGERS
        ensures Filter(s.index[t], Other(q.id))
                == Carriers(a, s.registered - {q.id}, t) + Carriers(b, s.registered - {q.id}, t)
      {
        CarriersWithout(s.plugins, s.registered, t, q.id);
        CarriersAround(a, q, b, s.registered - {q.id}, t);
        assert Carriers(a, s.registered - {q.id}, t) + [] == Carriers(a, s.registered - {q.id}, t);
      }
    }
  }

  // ---------------------------------------------------------------- main results: operations

  predicate Good(s: Store) {
    Distinct(s.plugins) && Indexed(s)
  }

  lemma SplitAt(ps: seq<Plugin>, k: nat)
    requires k < |ps|
    ensures ps == ps[..k] + [ps[k]] + ps[k + 1..]
  {
  }

  lemma EditKeepsIndex(s: Store, id: string, p: Plugin, saved: bool)
    requires Good(s) && p.id == id && NoRepeats(p.triggers)
    ensures Good(Edit(s, id, p, saved))
  {
    PositionRange(s.plugins, id);
    var k := Position(s.plugins, id);
    if k >= 0 && saved {
      var a, b := s.plugins[..k], s.plugins[k + 1..];
      SplitAt(s.plugins, k);
      assert s.plugins[k := p] == a + [p] + b;
      IndexedGivesBut(s, a, s.plugins[k], b);
      var s' := Edit(s, id, p, saved);
      assert Distinct(s'.plugins);
      DistinctParts(a, p, b);
      forall t | t in TRIGGERS
        ensures s'.index[t] == Carriers(s'.plugins, s'.registered, t)
      {
        UpdatedAt(s.index, a, p, b, p, s.registered, t);
        CarriersAround(a, p, b, s'.registered, t);
        CarriersIgnore(a, s.registered, t, id);
        CarriersIgnore(b, s.registered, t, id);
      }
    }
  }

  lemma DeleteKeepsIndex(s: Store, id: string, saved: bool)
    requires Good(s)
    ensures Good(Delete(s, id, saved))
  {
    PositionRange(s.plugins, id);
    var k := Position(s.plugins, id);
    if k >= 0 && saved {
      var a, b := s.plugins[..k], s.plugins[k + 1..];
      SplitAt(s.plugins, k);
      DistinctParts(a, s.plugins[k], b);
      IndexedGivesBut(s, a, s.plugins[k], b);
      forall t | t in TRIGGERS
        ensures Removed(s.index, id)[t] == Carriers(a + b, s.registered - {id}, t)
      {
        CarriersConcat(a, b, s.registered - {id}, t);
      }
    }
  }

  /** What a delete does: with the save it takes the plugin of that id, and nothing else, out of the
      list, out of the registered plugins and out of every observer list, the others keeping their
      order; without the save, or without such a plugin, nothing. */
  lemma DeleteOutcome(s: Store, a: seq<Plugin>, p: Plugin, b: seq<Plugin>, id: string, saved: bool)
    requires Good(s)
    ensures !saved || Absent(s.plugins, id) ==> Delete(s, id, saved) == s
    ensures saved && s.plugins == a + [p] + b && p.id == id ==>
              var s' := Delete(s, id, saved);
              && s'.plugins == a + b && s'.registered == s.registered - {id}
              && forall t | t in TRIGGERS ::
                   var front, back := Carriers(a, s.registered, t), Carriers(b, s.registered, t);
                   && id !in s'.index[t] && s'.index[t] == front + back
                   && s.index[t] == front + (if id in s.registered && t in p.triggers then [id] else []) + back
  {
    PositionRange(s.plugins, id);
    if saved && s.plugins == a + [p] + b && p.id == id {
      DistinctParts(a, p, b);
      PositionFound(a, p, b);
      assert (a + [p] + b)[..|a|] == a && (a + [p] + b)[|a| + 1..] == b;
      DeleteKeepsIndex(s, id, saved);
      var s' := Delete(s, id, saved);
      forall t | t in TRIGGERS
        ensures var front, back := Carriers(a, s.registered, t), Carriers(b, s.registered, t);
                && id !in s'.index[t] && s'.index[t] == front + back
                && s.index[t] == front + (if id in s.registered && t in p.triggers then [id] else []) + back
      {
        assert IndexedAt(s, t) && IndexedAt(s', t);
        DeletedAt(s, a, p, b, t);
      }
    }
  }

  lemma DeletedAt(s: Store, a: seq<Plugin>, p: Plugin, b: seq<Plugin>, t: Trigger)
    requires s.plugins == a + [p] + b && Absent(a, p.id) && Absent(b, p.id)
    ensures var front, back := Carriers(a, s.registered, t), Carriers(b, s.registered, t);
            && Carriers(a + b, s.registered - {p.id}, t) == front + back
            && Carriers(s.plugins, s.registered, t)
               == front + (if p.id in s.registered && t in p.triggers then [p.id] else []) + back
    ensures p.id !in Carriers(a + b, s.registered - {p.id}, t)
  {
    CarriersConcat(a, b, s.registered - {p.id}, t);
    CarriersIgnore(a, s.registered, t, p.id);
    CarriersIgnore(b, s.registered, t, p.id);
    CarriersAround(a, p, b, s.registered, t);
    if p.id in Carriers(a + b, s.registered - {p.id}, t) {
      CarriersInList(a + b, s.registered - {p.id}, t, p.id);
    }
  }

  /** What an edit does: with the save the new plugin stands where the old one stood, is registered,
      and is observed under exactly its own triggers; without the save, or without a plugin of that
      id, nothing changes. */
  lemma EditOutcome(s: Store, a: seq<Plugin>, p: Plugin, b: seq<Plugin>, q: Plugin, saved: bool)
    requires Good(s) && NoRepeats(q.triggers)
    ensures !saved || Absent(s.plugins, q.id) ==> Edit(s, q.id, q, saved) == s
    ensures saved && s.plugins == a + [p] + b && p.id == q.id ==>
              var s' := Edit(s, q.id, q, saved);
              && s'.plugins == a + [q] + b && s'.registered == s.registered + {q.id}
              && forall t | t in TRIGGERS ::
                   s'.index[t]
                   == Carriers(a, s.registered, t) + (if t in q.triggers then [q.id] else [])
                      + Carriers(b, s.registered, t)
  {
    var id := q.id;
    PositionRange(s.plugins, id);
    if saved && s.plugins == a + [p] + b && p.id == id {
      DistinctParts(a, p, b);
      PositionFound(a, p, b);
      assert (a + [p] + b)[|a| := q] == a + [q] + b;
      EditKeepsIndex(s, id, q, saved);
      var s' := Edit(s, id, q, saved);
      forall t | t in TRIGGERS
        ensures s'.index[t] == Carriers(a, s.registered, t) + (if t in q.triggers then [id] else [])
                               + Carriers(b, s.registered, t)
      {
        assert IndexedAt(s', t);
        CarriersAround(a, q, b, s'.registered, t);
        CarriersIgnore(a, s.registered, t, id);
        CarriersIgnore(b, s.registered, t, id);
      }
    }
  }

  predicate SameTriggers(p: Plugin, q: Plugin) {
    forall t | t in TRIGGERS :: t in p.triggers <==> t in q.triggers
  }

  /** The condition under which addPlugin leaves the index in step with the list: on success a hub
      replacement must not have brought other triggers, and on failure no plugin with triggers may
      have been entered by the hub check before things went wrong. */
  predicate AddIsClean(p: Plugin, hub: HubCheck, fetched: bool, saved: bool) {
    if AddSucceeds(hub, fetched, saved) then SameTriggers(p, Listed(p, hub))
    else Edited(hub) ==> Listed(p, hub).triggers == []
  }

  predicate AddLegal(s: Store, p: Plugin, hub: HubCheck) {
    && Absent(s.plugins, p.id) && NoRepeats(p.triggers)
    && (hub.Major? ==> hub.clone.id == p.id && NoRepeats(hub.clone.triggers))
  }

  lemma DistinctPush(a: seq<Plugin>, q: Plugin)
    requires Distinct(a) && Absent(a, q.id)
    ensures Distinct(a + [q])
  {
    forall i, j | 0 <= i < j < |a + [q]|
      ensures (a + [q])[i].id != (a + [q])[j].id
    {
      assert a[i] in a;
    }
  }

  /** The hub check replaces the entry just pushed. */
  lemma PushedEdit(s: Store, p: Plugin, hub: HubCheck)
    requires AddLegal(s, p, hub)
    ensures var a, q, held := s.plugins, Listed(p, hub), Held(p, hub);
            Edit(s.(plugins := a + [held]), p.id, q, true)
            == Store(a + [q], Updated(s.index, a + [q], q), s.registered + {p.id})
  {
    var a, held := s.plugins, Held(p, hub);
    PositionFound(a, held, []);
    assert a + [held] + [] == a + [held];
    assert (a + [held])[|a| := Listed(p, hub)] == a + [Listed(p, hub)];
  }

  lemma AddLists(s: Store, p: Plugin, hub: HubCheck, fetched: bool, saved: bool)
    requires Distinct(s.plugins) && AddLegal(s, p, hub)
    ensures var s', q := Add(s, p, hub, fetched, saved), Listed(p, hub);
            && Distinct(s.plugins + [q]) && q.id == p.id
            && s'.plugins == (if AddSucceeds(hub, fetched, saved) then s.plugins + [q] else s.plugins)
            && (s'.registered == s.registered + {p.id}
                || (s'.registered == s.registered && !AddSucceeds(hub, fetched, saved)))
  {
    hide Edit;
    hide Updated;
    hide Distinct;
    var a, q := s.plugins, Listed(p, hub);
    PushedEdit(s, p, hub);
    DistinctPush(a, q);
    assert (a + [q])[..|a|] == a && (a + [Held(p, hub)])[..|a|] == a;
  }

  /** The index right before addPlugin's own updatePluginTrigger. */
  lemma PushedBut(s: Store, p: Plugin)
    requires Good(s) && Absent(s.plugins, p.id)
    ensures IndexedBut(s.index, s.plugins, [], s.registered, p.id)
    ensures forall t | t in TRIGGERS :: s.index[t] == Carriers(s.plugins, s.registered - {p.id}, t)
  {
    forall t | t in TRIGGERS
      ensures Filter(s.index[t], Other(p.id))
              == Carriers(s.plugins, s.registered - {p.id}, t) + Carriers([], s.registered - {p.id}, t)
      ensures s.index[t] == Carriers(s.plugins, s.registered - {p.id}, t)
    {
      CarriersWithout(s.plugins, s.registered, t, p.id);
      CarriersIgnore(s.plugins, s.registered, t, p.id);
    }
  }

  /** updatePluginTrigger for a plugin at the end of the list. */
  lemma UpdatedLast(s: Store, index: Index, q: Plugin, p: Plugin, t: Trigger)
    requires Good(s) && Absent(s.plugins, p.id) && Distinct(s.plugins + [q])
    requires p.id == q.id && NoRepeats(p.triggers) && t in TRIGGERS
    requires IndexedBut(index, s.plugins, [], s.registered, p.id)
    ensures Updated(index, s.plugins + [q], p)[t] == s.index[t] + (if t in p.triggers then [p.id] else [])
    ensures IndexedBut(Updated(index, s.plugins + [q], p), s.plugins, [], s.registered, p.id)
  {
    hide Updated;
    hide Carriers;
    var a := s.plugins;
    assert a + [q] + [] == a + [q];
    PushedBut(s, p);
    UpdatedAt(index, a, q, [], p, s.registered, t);
    UpdatedBut(index, a, q, [], p, s.registered);
    NoCarriers(s.registered - {p.id}, t);
    var mid := if t in p.triggers then [p.id] else [];
    assert s.index[t] + mid + [] == s.index[t] + mid;
  }

  /** The index once the hub check is over. */
  function CheckedIndex(s: Store, p: Plugin, hub: HubCheck): Index {
    if Edited(hub) then Updated(s.index, s.plugins + [Listed(p, hub)], Listed(p, hub)) else s.index
  }

  lemma AddIndex(s: Store, p: Plugin, hub: HubCheck, fetched: bool, saved: bool)
    requires AddLegal(s, p, hub)
    ensures Add(s, p, hub, fetched, saved).index
            == if AddSucceeds(hub, fetched, saved)
               then Updated(CheckedIndex(s, p, hub), s.plugins + [Listed(p, hub)], Held(p, hub))
               else CheckedIndex(s, p, hub)
  {
    hide Edit;
    hide Updated;
    PushedEdit(s, p, hub);
  }

  lemma CheckedIndexAt(s: Store, p: Plugin, hub: HubCheck, t: Trigger)
    requires Good(s) && AddLegal(s, p, hub) && t in TRIGGERS
    ensures IndexedBut(CheckedIndex(s, p, hub), s.plugins, [], s.registered, p.id)
    ensures CheckedIndex(s, p, hub)[t]
            == s.index[t] + (if Edited(hub) && t in Listed(p, hub).triggers then [p.id] else [])
  {
    DistinctPush(s.plugins, Listed(p, hub));
    PushedBut(s, p);
    hide Updated;
    hide IndexedBut;
    hide Good;
    hide Distinct;
    if Edited(hub) { UpdatedLast(s, s.index, Listed(p, hub), Listed(p, hub), t); }
    assert s.index[t] + [] == s.index[t];
  }

  lemma AddIndexAt(s: Store, p: Plugin, hub: HubCheck, fetched: bool, saved: bool, t: Trigger)
    requires Good(s) && AddLegal(s, p, hub) && t in TRIGGERS
    ensures Add(s, p, hub, fetched, saved).index[t]
            == s.index[t] + (if AddSucceeds(hub, fetched, saved) then (if t in p.triggers then [p.id] else [])
                             else if Edited(hub) && t in Listed(p, hub).triggers then [p.id] else [])
  {
    DistinctPush(s.plugins, Listed(p, hub));
    AddIndex(s, p, hub, fetched, saved);
    hide Add;
    hide Updated;
    hide IndexedBut;
    hide CheckedIndex;
    hide Good;
    hide Distinct;
    CheckedIndexAt(s, p, hub, t);
    if AddSucceeds(hub, fetched, saved) {
      UpdatedLast(s, CheckedIndex(s, p, hub), Listed(p, hub), Held(p, hub), t);
    }
  }

  /** What the index should be after addPlugin. */
  lemma AddWanted(s: Store, p: Plugin, hub: HubCheck, fetched: bool, saved: bool, t: Trigger)
    requires Good(s) && AddLegal(s, p, hub) && t in TRIGGERS
    ensures Carriers(Add(s, p, hub, fetched, saved).plugins, Add(s, p, hub, fetched, saved).registered, t)
            == s.index[t] + (if AddSucceeds(hub, fetched, saved) && t in Listed(p, hub).triggers then [p.id] else [])
  {
    var a, q, id := s.plugins, Listed(p, hub), p.id;
    var registered := Add(s, p, hub, fetched, saved).registered;
    AddLists(s, p, hub, fetched, saved);
    hide Add;
    hide Carriers;
    CarriersIgnore(a, s.registered, t, id);
    assert Carriers(a, registered, t) == s.index[t];
    CarriersAround(a, q, [], registered, t);
    NoCarriers(registered, t);
    var mid := if t in q.triggers then [id] else [];
    assert a + [q] + [] == a + [q] && s.index[t] + mid + [] == s.index[t] + mid && s.index[t] + [] == s.index[t];
  }

  lemma NoCarriers(registered: set<string>, t: Trigger)
    ensures Carriers([], registered, t) == []
  {
  }

  predicate CleanAt(p: Plugin, hub: HubCheck, fetched: bool, saved: bool, t: Trigger) {
    if AddSucceeds(hub, fetched, saved) then (t in p.triggers <==> t in Listed(p, hub).triggers)
    else Edited(hub) ==> t !in Listed(p, hub).triggers
  }

  lemma AddAgreesAt(s: Store, p: Plugin, hub: HubCheck, fetched: bool, saved: bool, t: Trigger)
    requires Good(s) && AddLegal(s, p, hub) && t in TRIGGERS
    ensures IndexedAt(Add(s, p, hub, fetched, saved), t) <==> CleanAt(p, hub, fetched, saved, t)
  {
    hide Add;
    hide Good;
    hide Carriers;
    AddIndexAt(s, p, hub, fetched, saved, t);
    AddWanted(s, p, hub, fetched, saved, t);
    Differ(s.index[t], p.id);
  }

  lemma CleanEverywhere(p: Plugin, hub: HubCheck, fetched: bool, saved: bool)
    ensures AddIsClean(p, hub, fetched, saved) <==> forall t | t in TRIGGERS :: CleanAt(p, hub, fetched, saved, t)
  {
    var ts := Listed(p, hub).triggers;
    if ts != [] {
      EveryTrigger(ts[0]);
      assert CleanAt(p, hub, fetched, saved, ts[0]) || !CleanAt(p, hub, fetched, saved, ts[0]);
    }
    forall t | t in TRIGGERS && AddIsClean(p, hub, fetched, saved)
      ensures CleanAt(p, hub, fetched, saved, t)
    {
    }
    if AddSucceeds(hub, fetched, saved) && !SameTriggers(p, Listed(p, hub)) {
      var t :| t in TRIGGERS && (t in p.triggers) != (t in ts);
      assert !CleanAt(p, hub, fetched, saved, t);
    }
  }

  /** addPlugin keeps the index in step with the list exactly when it is clean. */
  lemma AddKeepsIndexIff(s: Store, p: Plugin, hub: HubCheck, fetched: bool, saved: bool)
    requires Good(s) && AddLegal(s, p, hub)
    ensures Good(Add(s, p, hub, fetched, saved)) <==> AddIsClean(p, hub, fetched, saved)
  {
    var s' := Add(s, p, hub, fetched, saved);
    AddLists(s, p, hub, fetched, saved);
    assert Distinct(s'.plugins);
    forall t | t in TRIGGERS
      ensures IndexedAt(s', t) <==> CleanAt(p, hub, fetched, saved, t)
    {
      AddAgreesAt(s, p, hub, fetched, saved, t);
    }
    CleanEverywhere(p, hub, fetched, saved);
    hide Add;
    hide Distinct;
    hide IndexedAt;
    hide CleanAt;
    hide AddIsClean;
  }

  /** What an add does: when the hub check passes, the code is fetched and the save succeeds, the list
      grows by one entry at the end, the hub's copy after a major update and else the plugin with the
      hub's version after a minor one, and it is observed last under the triggers of the plugin
      added. Otherwise the list stays, and so does the index unless the hub check had made its edit. */
  lemma AddOutcome(s: Store, p: Plugin, hub: HubCheck, fetched: bool, saved: bool)
    requires Good(s) && AddLegal(s, p, hub)
    ensures var s' := Add(s, p, hub, fetched, saved);
            var edited := (hub.Major? || hub.Minor?) && hub.savedEdit;
            var done := (edited || hub.Untouched?) && fetched && saved;
            var entry := match hub
                         case Major(clone, _) => clone
                         case Minor(version, _) => p.(rest := version)
                         case _ => p;
            && s'.plugins == (if done then s.plugins + [entry] else s.plugins)
            && (done ==> s'.registered == s.registered + {p.id})
            && forall t | t in TRIGGERS ::
                 s'.index[t]
                 == s.index[t]
                    + (if (done && t in p.triggers) || (!done && edited && t in entry.triggers) then [p.id] else [])
  {
    AddLists(s, p, hub, fetched, saved);
    forall t | t in TRIGGERS
      ensures Add(s, p, hub, fetched, saved).index[t]
              == s.index[t] + (if AddSucceeds(hub, fetched, saved) then (if t in p.triggers then [p.id] else [])
                               else if Edited(hub) && t in Listed(p, hub).triggers then [p.id] else [])
    {
      AddIndexAt(s, p, hub, fetched, saved, t);
    }
    hide Add, Good;
  }

  lemma Differ(xs: seq<string>, x: string)
    ensures xs + [x] != xs && xs + [] == xs
  {
    assert |xs + [x]| == |xs| + 1;
  }

  // ---------------------------------------------------------------- main results: runs

  datatype Op =
    | OpAdd(p: Plugin, hub: HubCheck, fetched: bool, saved: bool)
    | OpEdit(id: string, q: Plugin, savedEdit: bool)
    | OpDelete(gone: string, savedDelete: bool)

  function Perform(s: Store, op: Op): Store {
    match op
    case OpAdd(p, hub, fetched, saved) => Add(s, p, hub, fetched, saved)
    case OpEdit(id, q, saved) => Edit(s, id, q, saved)
    case OpDelete(id, saved) => Delete(s, id, saved)
  }

  /** Ids stay unique, trigger lists have no repeats, edits keep the id, and adds are clean. */
  predicate Allowed(s: Store, op: Op) {
    match op
    case OpAdd(p, hub, fetched, saved) => AddLegal(s, p, hub) && AddIsClean(p, hub, fetched, saved)
    case OpEdit(id, q, _) => q.id == id && NoRepeats(q.triggers)
    case OpDelete(_, _) => true
  }

  predicate AllowedRun(s: Store, ops: seq<Op>)
    decreases |ops|
  {
    ops != [] ==> Allowed(s, ops[0]) && AllowedRun(Perform(s, ops[0]), ops[1..])
  }

  function PerformAll(s: Store, ops: seq<Op>): Store
    decreases |ops|
  {
    if ops == [] then s else PerformAll(Perform(s, ops[0]), ops[1..])
  }

  /** Over any run, every observer list is the list of registered carriers in plugin-list order. */
  lemma {:induction false} RunsKeepIndex(s: Store, ops: seq<Op>)
    requires Good(s) && AllowedRun(s, ops)
    ensures Good(PerformAll(s, ops))
    decreases |ops|
  {
    if ops != [] {
      match ops[0] {
        case OpAdd(p, hub, fetched, saved) => AddKeepsIndexIff(s, p, hub, fetched, saved);
        case OpEdit(id, q, saved) => EditKeepsIndex(s, id, q, saved);
        case OpDelete(id, saved) => DeleteKeepsIndex(s, id, saved);
      }
      RunsKeepIndex(Perform(s, ops[0]), ops[1..]);
    }
  }

  /** The list without its first plugin. */
  lemma RestOf(ps: seq<Plugin>, registered: set<string>, t: Trigger, x: string)
    requires Distinct(ps) && ps != []
    ensures Distinct(ps[1..]) && Absent(ps[1..], ps[0].id)
    ensures x in Carriers(ps[1..], registered, t) ==>
              x != ps[0].id && 0 <= Position(ps[1..], x) && Position(ps, x) == Position(ps[1..], x) + 1
  {
    var rest := ps[1..];
    assert forall k | 0 <= k < |rest| :: rest[k] == ps[k + 1];
    if x in Carriers(rest, registered, t) {
      CarriersInList(rest, registered, t, x);
      PositionRange(rest, x);
    }
  }

  /** In a good store observers stand in strictly increasing list position. */
  lemma {:induction false} ObserversIncrease(ps: seq<Plugin>, registered: set<string>, t: Trigger, i: nat, j: nat)
    requires Distinct(ps) && i < j < |Carriers(ps, registered, t)|
    ensures 0 <= Position(ps, Carriers(ps, registered, t)[i]) < Position(ps, Carriers(ps, registered, t)[j])
  {
    hide Distinct, Absent;
    var rest := ps[1..];
    var c, c' := Carriers(ps, registered, t), Carriers(rest, registered, t);
    var d := if ps[0].id in registered && t in ps[0].triggers then 1 else 0;
    assert c[j] == c'[j - d];
    RestOf(ps, registered, t, c[j]);
    if i >= d {
      assert c[i] == c'[i - d];
      ObserversIncrease(rest, registered, t, i - d, j - d);
      RestOf(ps, registered, t, c[i]);
    } else {
      assert c[i] == ps[0].id;
    }
  }

  // ---------------------------------------------------------------- the subscribe pipeline

  /** Running one plugin's hook: a new value, or an error that ends the pipeline. */
  datatype Outcome<T> = Value(value: T) | Thrown(message: string)

  /** Left fold over observers, skipping unavailable plugins. */
  function Pipe<T>(x: T, ids: seq<string>, available: string -> bool, run: (string, T) -> Outcome<T>): Outcome<T> {
    if ids == [] then Value(x)
    else if !available(ids[0]) then Pipe(x, ids[1..], available, run)
    else match run(ids[0], x)
      case Thrown(e) => Thrown(e)
      case Value(y) => Pipe(y, ids[1..], available, run)
  }

  /** Left fold over the plugin list itself. */
  function PipeList<T>(x: T, ps: seq<Plugin>, registered: set<string>, t: Trigger,
                       available: string -> bool, run: (string, T) -> Outcome<T>): Outcome<T> {
    if ps == [] then Value(x)
    else if ps[0].id !in registered || t !in ps[0].triggers || !available(ps[0].id)
    then PipeList(x, ps[1..], registered, t, available, run)
    else match run(ps[0].id, x)
      case Thrown(e) => Thrown(e)
      case Value(y) => PipeList(y, ps[1..], registered, t, available, run)
  }

  lemma {:induction false} PipeFollowsList<T>(x: T, ps: seq<Plugin>, registered: set<string>, t: Trigger,
                                              available: string -> bool, run: (string, T) -> Outcome<T>)
    ensures Pipe(x, Carriers(ps, registered, t), available, run) == PipeList(x, ps, registered, t, available, run)
    decreases ps
  {
    if ps != [] {
      var c, c' := Carriers(ps, registered, t), Carriers(ps[1..], registered, t);
      if ps[0].id in registered && t in ps[0].triggers {
        assert c[0] == ps[0].id && c[1..] == c';
        if available(ps[0].id) && run(ps[0].id, x).Value? {
          PipeFollowsList(run(ps[0].id, x).value, ps[1..], registered, t, available, run);
        } else {
          PipeFollowsList(x, ps[1..], registered, t, available, run);
        }
      } else {
        assert c == c';
        PipeFollowsList(x, ps[1..], registered, t, available, run);
      }
    }
  }

  /** After any run the subscribe pipeline is the left fold over the plugin list. */
  lemma SubscribeIsFoldOverList<T>(s: Store, ops: seq<Op>, x: T, available: string -> bool,
                                   run: (string, T) -> Outcome<T>)
    requires Good(s) && AllowedRun(s, ops)
    ensures var s' := PerformAll(s, ops);
            Pipe(x, s'.index[OnSubscribe], available, run)
            == PipeList(x, s'.plugins, s'.registered, OnSubscribe, available, run)
  {
    RunsKeepIndex(s, ops);
    var s' := PerformAll(s, ops);
    PipeFollowsList(x, s'.plugins, s'.registered, OnSubscribe, available, run);
  }
}
