/** The plugins store: its methods update the list and the observer lists in place. */
module PluginStore {
  import opened Seqs
  import opened PluginTriggers

  class Plugins {
    var plugins: seq<Plugin>
    var index: Index
    ghost var registered: set<string>

    constructor ()
      ensures Value() == Store([], map t | t in TRIGGERS :: [], {})
    {
      plugins, index, registered := [], map t | t in TRIGGERS :: [], {};
    }

    ghost function Value(): Store
      reads this
    {
      Store(plugins, index, registered)
    }

    method FindIndex(id: string) returns (k: int)
      ensures k == Position(plugins, id)
    {
      var i := 0;
      while i < |plugins|
        invariant 0 <= i <= |plugins|
        invariant Absent(plugins[..i], id)
      {
        if plugins[i].id == id {
          SplitAt(plugins, i);
          PositionFound(plugins[..i], plugins[i], plugins[i + 1..]);
          return i;
        }
        i := i + 1;
      }
      assert plugins[..i] == plugins;
      PositionRange(plugins, id);
      return -1;
    }

    /** observers.findIndex for the insertion place; -1 means append. */
    method FindInsertion(observers: seq<string>, k: int) returns (i: int)
      ensures i == -1 ==> InsertPoint(observers, plugins, k) == |observers|
      ensures i != -1 ==> i == InsertPoint(observers, plugins, k) < |observers|
    {
      var j := 0;
      while j < |observers|
        invariant 0 <= j <= |observers|
        invariant InsertPoint(observers, plugins, k) == j + InsertPoint(observers[j..], plugins, k)
      {
        var at := FindIndex(observers[j]);
        assert observers[j..][0] == observers[j] && observers[j..][1..] == observers[j + 1..];
        if at == -1 || at > k {
          return j;
        }
        j := j + 1;
      }
      assert observers[j..] == [];
      return -1;
    }

    /** Enter id under one trigger, keeping list order; k is the position of its plugin. */
    method AddObserver(trigger: Trigger, id: string, k: int)
      requires k == Position(plugins, id) && trigger in TRIGGERS
      modifies this`index
      ensures index == old(index)[trigger := Inserted(old(index)[trigger], plugins, id)]
    {
      hide InsertPoint, Position;
      var observers := index[trigger];
      var at := FindInsertion(observers, k);
      if at == -1 {
        assert observers[..|observers|] == observers && observers[|observers|..] == [];
        assert observers + [id] == observers + [id] + [];
        index := index[trigger := observers + [id]];
      } else {
        index := index[trigger := observers[..at] + [id] + observers[at..]];
      }
    }

    method UpdatePluginTrigger(p: Plugin, isUpdate: bool)
      modifies this`index
      ensures index == if isUpdate then Updated(old(index), plugins, p) else Removed(old(index), p.id)
    {
      hide Inserted;
      hide Position;
      index := map t | t in TRIGGERS :: Filter(index[t], Other(p.id));
      assert index == Removed(old(index), p.id);
      if isUpdate {
        var k := FindIndex(p.id);
        var i := 0;
        while i < |p.triggers|
          invariant 0 <= i <= |p.triggers|
          invariant InsertedAll(index, plugins, p.id, p.triggers[i..]) == Updated(old(index), plugins, p)
        {
          EveryTrigger(p.triggers[i]);
          assert p.triggers[i..][0] == p.triggers[i] && p.triggers[i..][1..] == p.triggers[i + 1..];
          AddObserver(p.triggers[i], p.id, k);
          i := i + 1;
        }
        assert p.triggers[i..] == [];
      }
    }

    /** setupPlugins on a fresh store: plugins whose code file is unreadable stay unregistered. */
    method SetupPlugins(list: seq<Plugin>, readable: set<string>)
      requires forall t | t in TRIGGERS :: index[t] == []
      requires Distinct(list) && forall p | p in list :: NoRepeats(p.triggers)
      modifies this
      ensures plugins == list && registered == readable
      ensures Good(Value())
    {
      plugins, registered := list, readable;
      var i := 0;
      while i < |plugins|
        invariant 0 <= i <= |plugins| && plugins == list && registered == readable
        invariant forall t | t in TRIGGERS :: index[t] == Carriers(list[..i], readable, t)
      {
        var p := plugins[i];
        forall t | t in TRIGGERS
          ensures Carriers(list[..i + 1], readable, t)
                  == Carriers(list[..i], readable, t) + (if p.id in readable && t in p.triggers then [p.id] else [])
        {
          assert list[..i + 1] == list[..i] + [p] + [];
          CarriersAround(list[..i], p, [], readable, t);
        }
        if p.id in readable {
          RegisterTriggers(p);
        }
        i := i + 1;
      }
      assert list[..i] == list;
    }

    /** The inner loop of setupPlugins. */
    method RegisterTriggers(p: Plugin)
      requires NoRepeats(p.triggers)
      modifies this`index
      ensures forall t | t in TRIGGERS :: index[t] == old(index)[t] + (if t in p.triggers then [p.id] else [])
    {
      var j := 0;
      while j < |p.triggers|
        invariant 0 <= j <= |p.triggers|
        invariant forall t | t in TRIGGERS ::
                    index[t] == old(index)[t] + (if t in p.triggers[..j] then [p.id] else [])
      {
        var trigger := p.triggers[j];
        EveryTrigger(trigger);
        assert trigger !in p.triggers[..j];
        assert p.triggers[..j + 1] == p.triggers[..j] + [trigger];
        index := index[trigger := index[trigger] + [p.id]];
        j := j + 1;
      }
      assert p.triggers[..j] == p.triggers;
    }

    method EditPlugin(id: string, newPlugin: Plugin, saved: bool) returns (ok: bool)
      modifies this
      ensures Value() == Edit(old(Value()), id, newPlugin, saved)
      ensures ok <==> saved || Position(old(plugins), id) == -1
    {
      var k := FindIndex(id);
      PositionRange(plugins, id);
      if k == -1 {
        return true;
      }
      var plugin := plugins[k];
      plugins := plugins[k := newPlugin];
      if saved {
        UpdatePluginTrigger(newPlugin, true);
        registered := registered + {newPlugin.id};
        return true;
      }
      plugins := plugins[k := plugin];
      return false;
    }

    method DeletePlugin(id: string, saved: bool) returns (ok: bool)
      modifies this
      ensures Value() == Delete(old(Value()), id, saved)
      ensures ok <==> saved || Position(old(plugins), id) == -1
    {
      var k := FindIndex(id);
      PositionRange(plugins, id);
      if k == -1 {
        return true;
      }
      var plugin := plugins[k];
      plugins := plugins[..k] + plugins[k + 1..];
      if saved {
        UpdatePluginTrigger(plugin, false);
        registered := registered - {plugin.id};
        return true;
      }
      plugins := plugins[..k] + [plugin] + plugins[k..];
      return false;
    }

    /** addPlugin, with the outcomes of the hub check, the code fetch and the save as inputs. The
        caller's plugin object has its version updated in place by a minor hub update. */
    method AddPlugin(plugin: Plugin, hub: HubCheck, fetched: bool, saved: bool) returns (ok: bool)
      requires AddLegal(Value(), plugin, hub)
      modifies this
      ensures Value() == Add(old(Value()), plugin, hub, fetched, saved)
      ensures ok <==> AddSucceeds(hub, fetched, saved)
    {
      hide Updated, NoRepeats;
      PushedEdit(Value(), plugin, hub);
      var held := Held(plugin, hub);
      PositionFound(plugins, held, []);
      assert plugins + [held] + [] == plugins + [held];
      plugins := plugins + [held];
      ok := hub != Missing;
      if hub.Major? {
        ok := EditPlugin(plugin.id, hub.clone, hub.savedEdit);
      } else if hub.Minor? {
        ok := EditPlugin(plugin.id, held, hub.savedEdit);
      }
      if ok && fetched && saved {
        UpdatePluginTrigger(held, true);
        registered := registered + {held.id};
      } else {
        ok := false;
        plugins := plugins[..|plugins| - 1];
      }
    }

    /** onSubscribeTrigger over the OnSubscribe observers. */
    method RunSubscribe<T>(proxies: T, available: string -> bool, run: (string, T) -> Outcome<T>)
      returns (r: Outcome<T>)
      ensures r == Pipe(proxies, index[OnSubscribe], available, run)
    {
      var observers := index[OnSubscribe];
      var result := proxies;
      var i := 0;
      while i < |observers|
        invariant 0 <= i <= |observers|
        invariant Pipe(result, observers[i..], available, run) == Pipe(proxies, observers, available, run)
      {
        assert observers[i..][0] == observers[i] && observers[i..][1..] == observers[i + 1..];
        if available(observers[i]) {
          match run(observers[i], result)
          case Thrown(e) => return Thrown(e);
          case Value(y) => result := y;
        }
        i := i + 1;
      }
      assert observers[i..] == [];
      return Outcome.Value(result);
    }
  }
}
