/** Pruning of subscriptions whose files are gone, before a kernel restart. */
module KernelSubscriptions {
  import opened KernelProfile
  import opened Seqs
  import opened Text

  predicate IsCloud(id: string) {
    HasPrefix(id, "cloud-")
  }

  /** Set.add: new ids go to the end, known ones stay where they are. */
  function AddID(ids: seq<string>, id: Option<string>): seq<string> {
    if id.Some? && IsCloud(id.value) && id.value !in ids then ids + [id.value] else ids
  }

  function AddItems(ids: seq<string>, items: seq<Item>): seq<string> {
    if items == [] then ids
    else AddID(AddItems(ids, items[..|items| - 1]), items[|items| - 1].id)
  }

  function Items(o: Outbound): seq<Item> {
    if o.outbounds.Some? then o.outbounds.value else []
  }

  function CloudIDs(outbounds: seq<Outbound>): seq<string> {
    if outbounds == [] then []
    else
      var o := outbounds[|outbounds| - 1];
      AddItems(AddID(CloudIDs(outbounds[..|outbounds| - 1]), o.id), Items(o))
  }

  function Gone(exists_: string -> bool): string -> bool {
    (id: string) => !exists_(id)
  }

  /** Kept at the top level. */
  function Stays(removed: seq<string>): Outbound -> bool {
    (o: Outbound) => o.id.None? || o.id.value !in removed
  }

  /** Kept inside a nested list. */
  function ItemStays(removed: seq<string>): Item -> bool {
    (x: Item) => x.id.None? || x.id.value !in removed
  }

  function Strip(removed: seq<string>): Outbound -> Outbound {
    (o: Outbound) =>
      if o.outbounds.Some? then o.(outbounds := Some(Filter(o.outbounds.value, ItemStays(removed)))) else o
  }

  function List(outbounds: Option<seq<Outbound>>): seq<Outbound> {
    if outbounds.Some? then outbounds.value else []
  }

  function Removed(outbounds: Option<seq<Outbound>>, exists_: string -> bool): seq<string> {
    Filter(CloudIDs(List(outbounds)), Gone(exists_))
  }

  /** The outbounds left, given which subscription files exist. */
  function Prune(outbounds: Option<seq<Outbound>>, exists_: string -> bool): Option<seq<Outbound>> {
    var removed := Removed(outbounds, exists_);
    if removed == [] then outbounds else Some(Map(Filter(outbounds.value, Stays(removed)), Strip(removed)))
  }

  // ---------------------------------------------------------------- which ids are collected

  predicate ItemsMention(items: seq<Item>, id: string) {
    exists x | x in items :: x.id == Some(id)
  }

  predicate OneMentions(o: Outbound, id: string) {
    o.id == Some(id) || ItemsMention(Items(o), id)
  }

  predicate Mentions(outbounds: seq<Outbound>, id: string) {
    exists o | o in outbounds :: OneMentions(o, id)
  }

  predicate NoRepeats(ids: seq<string>) {
    forall i, j | 0 <= i < j < |ids| :: ids[i] != ids[j]
  }

  lemma {:induction false} AddItemsMembers(ids: seq<string>, items: seq<Item>, id: string)
    requires NoRepeats(ids)
    ensures NoRepeats(AddItems(ids, items))
    ensures id in AddItems(ids, items) <==> id in ids || (IsCloud(id) && ItemsMention(items, id))
  {
    hide IsCloud, NoRepeats, ItemsMention, AddID;
    if items == [] {
      NothingMentioned(id);
    } else {
      var k := |items| - 1;
      assert items == items[..k] + [items[k]];
      AddItemsMembers(ids, items[..k], id);
      AddIDMembers(AddItems(ids, items[..k]), items[k].id, id);
      ItemsMentionAppend(items[..k], items[k], id);
    }
  }

  lemma AddIDMembers(ids: seq<string>, added: Option<string>, id: string)
    requires NoRepeats(ids)
    ensures NoRepeats(AddID(ids, added))
    ensures id in AddID(ids, added) <==> id in ids || (IsCloud(id) && added == Some(id))
  {
    hide IsCloud;
  }

  lemma NothingMentioned(id: string)
    ensures !ItemsMention([], id) && !Mentions([], id)
  {
  }

  lemma ItemsMentionAppend(items: seq<Item>, x: Item, id: string)
    ensures ItemsMention(items + [x], id) <==> ItemsMention(items, id) || x.id == Some(id)
  {
    assert x in items + [x];
    assert forall y | y in items :: y in items + [x];
  }

  lemma MentionsAppend(outbounds: seq<Outbound>, o: Outbound, id: string)
    ensures Mentions(outbounds + [o], id) <==> Mentions(outbounds, id) || OneMentions(o, id)
  {
    hide OneMentions;
    assert o in outbounds + [o];
    assert forall p | p in outbounds :: p in outbounds + [o];
  }

  /** The ids collected are the cloud ids mentioned at the top level or one level down, once each. */
  lemma {:induction false} CloudIDsAre(outbounds: seq<Outbound>, id: string)
    ensures NoRepeats(CloudIDs(outbounds))
    ensures id in CloudIDs(outbounds) <==> IsCloud(id) && Mentions(outbounds, id)
  {
    hide IsCloud, ItemsMention, Mentions, NoRepeats, AddItems, AddID;
    if outbounds == [] {
      NothingMentioned(id);
      NoRepeatsEmpty();
    } else {
      var k := |outbounds| - 1;
      var o, before := outbounds[k], CloudIDs(outbounds[..k]);
      assert outbounds == outbounds[..k] + [o];
      CloudIDsAre(outbounds[..k], id);
      MentionsAppend(outbounds[..k], o, id);
      AddIDMembers(before, o.id, id);
      AddItemsMembers(AddID(before, o.id), Items(o), id);
    }
  }

  lemma NoRepeatsEmpty()
    ensures NoRepeats([])
  {
  }

  predicate Missing(id: Option<string>, exists_: string -> bool) {
    id.Some? && IsCloud(id.value) && !exists_(id.value)
  }

  /** What is reported as removed: every mentioned cloud id without a file, nothing else. */
  lemma RemovedAre(outbounds: Option<seq<Outbound>>, exists_: string -> bool, id: string)
    ensures id in Removed(outbounds, exists_) <==> Missing(Some(id), exists_) && Mentions(List(outbounds), id)
  {
    hide IsCloud, Mentions;
    CloudIDsAre(List(outbounds), id);
    FilterMembers(CloudIDs(List(outbounds)), Gone(exists_));
  }

  // ---------------------------------------------------------------- pruning, directly

  function Present(exists_: string -> bool): Outbound -> bool {
    (o: Outbound) => !Missing(o.id, exists_)
  }

  function ItemPresent(exists_: string -> bool): Item -> bool {
    (x: Item) => !Missing(x.id, exists_)
  }

  function StripMissing(exists_: string -> bool): Outbound -> Outbound {
    (o: Outbound) =>
      if o.outbounds.Some? then o.(outbounds := Some(Filter(o.outbounds.value, ItemPresent(exists_)))) else o
  }

  /** Every entry naming a missing cloud subscription dropped where it stands; the rest in order. */
  function WithoutMissing(outbounds: seq<Outbound>, exists_: string -> bool): seq<Outbound> {
    Map(Filter(outbounds, Present(exists_)), StripMissing(exists_))
  }

  lemma StripsAgree(outbounds: Option<seq<Outbound>>, exists_: string -> bool, o: Outbound)
    requires o in List(outbounds)
    ensures Stays(Removed(outbounds, exists_))(o) == Present(exists_)(o)
    ensures Strip(Removed(outbounds, exists_))(o) == StripMissing(exists_)(o)
  {
    hide Removed, IsCloud, List, Missing;
    var removed := Removed(outbounds, exists_);
    if o.id.Some? {
      assert OneMentions(o, o.id.value);
      RemovedAre(outbounds, exists_, o.id.value);
    }
    NoneIsNotMissing(exists_);
    if o.outbounds.Some? {
      forall x | x in o.outbounds.value ensures ItemStays(removed)(x) == ItemPresent(exists_)(x) {
        if x.id.Some? {
          assert ItemsMention(Items(o), x.id.value);
          assert OneMentions(o, x.id.value);
          RemovedAre(outbounds, exists_, x.id.value);
        }
      }
      FilterAgree(o.outbounds.value, ItemStays(removed), ItemPresent(exists_));
    }
  }

  lemma NoneIsNotMissing(exists_: string -> bool)
    ensures !Missing(None, exists_)
  {
  }

  /** Collecting ids first and filtering twice has the direct effect: exactly the missing cloud
      ids disappear, at both levels, and nothing else changes. */
  lemma PruneDropsExactlyMissing(outbounds: Option<seq<Outbound>>, exists_: string -> bool)
    ensures outbounds.Some? ==> Prune(outbounds, exists_) == Some(WithoutMissing(outbounds.value, exists_))
    ensures outbounds.None? ==> Prune(outbounds, exists_) == None
  {
    hide Removed, Stays, Strip, Present, StripMissing;
    NoOutboundsNothingRemoved(exists_);
    if outbounds.Some? {
      var l, removed := outbounds.value, Removed(outbounds, exists_);
      forall o | o in l
        ensures Stays(removed)(o) == Present(exists_)(o) && Strip(removed)(o) == StripMissing(exists_)(o)
      {
        StripsAgree(outbounds, exists_, o);
      }
      FilterAgree(l, Stays(removed), Present(exists_));
      FilterMembers(l, Present(exists_));
      MapAgree(Filter(l, Present(exists_)), Strip(removed), StripMissing(exists_));
      if removed == [] {
        NothingToStrip(l);
        FilterAll(l, Stays([]));
        MapSame(l, Strip([]));
      }
    }
  }

  lemma NoOutboundsNothingRemoved(exists_: string -> bool)
    ensures Removed(None, exists_) == []
  {
  }

  lemma NothingToStrip(l: seq<Outbound>)
    ensures forall o | o in l :: Stays([])(o) && Strip([])(o) == o
  {
    forall o | o in l ensures Strip([])(o) == o {
      if o.outbounds.Some? {
        FilterAll(o.outbounds.value, ItemStays([]));
      }
    }
  }

  lemma KeptTwice(outbounds: seq<Outbound>, exists_: string -> bool, o: Outbound)
    requires o in WithoutMissing(outbounds, exists_)
    ensures Present(exists_)(o) && StripMissing(exists_)(o) == o
  {
    hide Missing;
    FilterMembers(outbounds, Present(exists_));
    var i :| 0 <= i < |Filter(outbounds, Present(exists_))|
             && o == StripMissing(exists_)(Filter(outbounds, Present(exists_))[i]);
    var before := Filter(outbounds, Present(exists_))[i];
    assert before in Filter(outbounds, Present(exists_));
    if o.outbounds.Some? {
      FilterMembers(before.outbounds.value, ItemPresent(exists_));
      FilterAll(o.outbounds.value, ItemPresent(exists_));
    }
  }

  /** While the files stay as they are, pruning again changes nothing and removes nothing. */
  lemma PruneIdempotent(outbounds: Option<seq<Outbound>>, exists_: string -> bool)
    ensures Prune(Prune(outbounds, exists_), exists_) == Prune(outbounds, exists_)
    ensures Removed(Prune(outbounds, exists_), exists_) == []
  {
    hide Removed, Missing, Mentions, Prune, Present, StripMissing;
    PruneDropsExactlyMissing(outbounds, exists_);
    var after := Prune(outbounds, exists_);
    PruneDropsExactlyMissing(after, exists_);
    if after.None? {
      NoOutboundsNothingRemoved(exists_);
    } else {
      var l := after.value;
      forall o | o in l ensures Present(exists_)(o) && StripMissing(exists_)(o) == o {
        KeptTwice(outbounds.value, exists_, o);
      }
      FilterAll(l, Present(exists_));
      MapSame(l, StripMissing(exists_));
      NothingMissingNothingRemoved(l, exists_);
    }
  }

  lemma NothingMissingNothingRemoved(l: seq<Outbound>, exists_: string -> bool)
    requires forall o | o in l :: Present(exists_)(o) && StripMissing(exists_)(o) == o
    ensures Removed(Some(l), exists_) == []
  {
    hide Removed, IsCloud;
    if Removed(Some(l), exists_) != [] {
      var id := Removed(Some(l), exists_)[0];
      RemovedAre(Some(l), exists_, id);
      var o :| o in l && OneMentions(o, id);
      assert StripMissing(exists_)(o) == o;
      if o.outbounds.Some? {
        FilterMembers(o.outbounds.value, ItemPresent(exists_));
      }
      assert false;
    }
  }

  /** Pruning reports a change exactly when the outbounds differ afterwards. */
  lemma PruneChangesIff(outbounds: Option<seq<Outbound>>, exists_: string -> bool)
    ensures Removed(outbounds, exists_) != [] <==> Prune(outbounds, exists_) != outbounds
  {
    PruneIdempotent(outbounds, exists_);
  }

  // ---------------------------------------------------------------- the code

  method CollectCloudIDs(outbounds: Option<seq<Outbound>>) returns (ids: seq<string>)
    ensures ids == CloudIDs(List(outbounds))
  {
    ids := [];
    if outbounds.None? {
      return;
    }
    var l := outbounds.value;
    for i := 0 to |l|
      invariant ids == CloudIDs(l[..i])
    {
      assert l[..i + 1][..i] == l[..i];
      ids := AddID(ids, l[i].id);
      ghost var before := ids;
      if l[i].outbounds.Some? {
        var items := l[i].outbounds.value;
        for j := 0 to |items|
          invariant ids == AddItems(before, items[..j])
        {
          assert items[..j + 1][..j] == items[..j];
          ids := AddID(ids, items[j].id);
        }
        assert items[..|items|] == items;
      }
    }
    assert l[..|l|] == l;
  }

  method MissingFiles(ids: seq<string>, exists_: string -> bool) returns (removed: seq<string>)
    ensures removed == Filter(ids, Gone(exists_))
  {
    removed := [];
    for i := 0 to |ids|
      invariant removed == Filter(ids[..i], Gone(exists_))
    {
      FilterStep(ids, i, Gone(exists_));
      if !exists_(ids[i]) {
        removed := removed + [ids[i]];
      }
    }
    assert ids[..|ids|] == ids;
  }

  method FilterOutbounds(l: seq<Outbound>, removed: seq<string>) returns (next: seq<Outbound>, changed: bool)
    ensures next == Filter(l, Stays(removed))
    ensures changed <==> next != l
  {
    next, changed := [], false;
    for i := 0 to |l|
      invariant next == Filter(l[..i], Stays(removed))
      invariant !changed ==> next == l[..i]
      invariant changed ==> |next| < i
    {
      FilterStep(l, i, Stays(removed));
      if l[i].id.Some? && l[i].id.value in removed {
        changed := true;
      } else {
        next := next + [l[i]];
      }
    }
    assert l[..|l|] == l;
  }

  /** Strips the nested lists in place; a list changed when it got shorter. */
  method StripOutbounds(l: seq<Outbound>, removed: seq<string>) returns (next: seq<Outbound>, changed: bool)
    ensures next == Map(l, Strip(removed))
    ensures changed <==> next != l
  {
    next, changed := l, false;
    for i := 0 to |l|
      invariant |next| == |l|
      invariant forall k | 0 <= k < i :: next[k] == Strip(removed)(l[k])
      invariant forall k | i <= k < |l| :: next[k] == l[k]
      invariant changed <==> exists k | 0 <= k < i :: next[k] != l[k]
    {
      ghost var was := next;
      if l[i].outbounds.Some? {
        var before := l[i].outbounds.value;
        FilterSameLength(before, ItemStays(removed));
        var after := Filter(before, ItemStays(removed));
        next := next[i := l[i].(outbounds := Some(after))];
        if |before| != |after| {
          changed := true;
        }
      }
      assert forall k | 0 <= k < i :: next[k] == was[k];
      assert next[i] == Strip(removed)(l[i]);
    }
  }

  lemma RemovedNeedsOutbounds(outbounds: Option<seq<Outbound>>, exists_: string -> bool)
    ensures Removed(outbounds, exists_) != [] ==> outbounds.Some?
  {
  }

  method PruneMissingKernelCloudSubscriptions(target: Profile, exists_: string -> bool)
    returns (changed: bool, removed: seq<string>)
    modifies target`outbounds
    ensures target.outbounds == Prune(old(target.outbounds), exists_)
    ensures removed == Removed(old(target.outbounds), exists_)
    ensures changed <==> target.outbounds != old(target.outbounds)
  {
    hide CloudIDs, Stays, Strip, Filter, Map, List;
    PruneChangesIff(target.outbounds, exists_);
    RemovedNeedsOutbounds(target.outbounds, exists_);
    var ids := CollectCloudIDs(target.outbounds);
    if ids == [] {
      NothingGone(exists_);
      return false, [];
    }
    removed := MissingFiles(ids, exists_);
    if removed == [] {
      return false, removed;
    }
    var next, dropped := FilterOutbounds(target.outbounds.value, removed);
    var stripped, shortened := StripOutbounds(next, removed);
    changed := dropped || shortened;
    if changed {
      target.outbounds := Some(stripped);
    }
  }

  lemma NothingGone(exists_: string -> bool)
    ensures Filter([], Gone(exists_)) == []
  {
  }
}
