/** The paginated walk that lists an account's active zones. */
module CdnZones {
  import opened CdnStore
  import opened Seqs
  import opened Text

  const PER_PAGE: nat := 50
  const MAX_PAGES: nat := 40

  /** One element of a page; fields missing from the answer are empty strings. */
  datatype Item = Item(id: string, name: string, status: string)

  /** The answer to one page request; a missing total_pages is 0. */
  datatype Answer = NetworkError | Refused | Page(items: seq<Item>, totalPages: int)

  function Usable(): Item -> bool {
    (x: Item) => x.status == "active" && x.id != "" && x.name != ""
  }

  function ToZone(): Item -> Zone {
    (x: Item) => Zone(x.id, x.name)
  }

  function ActiveZones(items: seq<Item>): seq<Zone> {
    Map(Filter(items, Usable()), ToZone())
  }

  predicate LastPage(page: nat, items: seq<Item>, totalPages: int) {
    (totalPages > 0 && page >= totalPages) || |items| < PER_PAGE
  }

  function Before(found: seq<Zone>, rest: Option<seq<Zone>>): Option<seq<Zone>> {
    match rest case None => None case Some(zones) => Some(found + zones)
  }

  lemma BeforeTwice(a: seq<Zone>, b: seq<Zone>, rest: Option<seq<Zone>>)
    ensures Before(a + b, rest) == Before(a, Before(b, rest)) && Before([], rest) == rest
    ensures Before(a, Some(b)) == Some(a + b) && Before(a, None) == None
  {
    if rest.Some? {
      assert a + b + rest.value == a + (b + rest.value);
      assert [] + rest.value == rest.value;
    }
  }

  /** The walk from a page on; None when some request fails. */
  function Walk(server: nat -> Answer, page: nat): Option<seq<Zone>>
    decreases MAX_PAGES + 1 - page
  {
    if page > MAX_PAGES then Some([])
    else
      match server(page)
      case Page(items, total) =>
        if LastPage(page, items, total) then Some(ActiveZones(items))
        else Before(ActiveZones(items), Walk(server, page + 1))
      case _ => None
  }

  // ---------------------------------------------------------------- an honest server

  function Least(a: nat, b: nat): nat {
    if a < b then a else b
  }

  function PageOf(zones: seq<Item>, page: nat): seq<Item>
    requires page >= 1
  {
    var from, to := (page - 1) * PER_PAGE, Least(page * PER_PAGE, |zones|);
    if from >= to then [] else zones[from..to]
  }

  function PageCount(n: nat): nat {
    (n + PER_PAGE - 1) / PER_PAGE
  }

  /** Serves a fixed list fifty at a time, and reports the page count rightly or not at all. */
  ghost predicate Serves(server: nat -> Answer, zones: seq<Item>) {
    forall page: nat | page >= 1 ::
      server(page) == Page(PageOf(zones, page), 0) || server(page) == Page(PageOf(zones, page), PageCount(|zones|))
  }

  lemma ActiveConcat(a: seq<Item>, b: seq<Item>)
    ensures ActiveZones(a + b) == ActiveZones(a) + ActiveZones(b)
  {
    FilterConcat(a, b, Usable());
    MapConcat(Filter(a, Usable()), Filter(b, Usable()), ToZone());
  }

  lemma PageShape(zones: seq<Item>, page: nat)
    requires page >= 1 && (page - 1) * PER_PAGE <= |zones|
    ensures PageOf(zones, page) == zones[(page - 1) * PER_PAGE..Least(page * PER_PAGE, |zones|)]
    ensures page >= PageCount(|zones|) <==> page * PER_PAGE >= |zones|
  {
  }

  lemma {:induction false} WalkFrom(server: nat -> Answer, zones: seq<Item>, page: nat)
    requires Serves(server, zones) && 1 <= page <= MAX_PAGES + 1 && (page - 1) * PER_PAGE <= |zones|
    ensures var from, to := (page - 1) * PER_PAGE, Least(|zones|, MAX_PAGES * PER_PAGE);
            from <= to && Walk(server, page) == Some(ActiveZones(zones[from..to]))
    decreases MAX_PAGES + 1 - page
  {
    hide ActiveZones, PageOf;
    PageShape(zones, page);
    var from, to := (page - 1) * PER_PAGE, Least(|zones|, MAX_PAGES * PER_PAGE);
    if page > MAX_PAGES {
      NothingActive();
      assert zones[from..to] == [];
    } else {
      var next := page * PER_PAGE;
      if next <= |zones| {
        WalkFrom(server, zones, page + 1);
        ActiveConcat(zones[from..next], zones[next..to]);
        assert zones[from..to] == zones[from..next] + zones[next..to];
        if page >= PageCount(|zones|) {
          NothingActive();
          assert zones[next..to] == [];
        }
      }
    }
  }

  lemma NothingActive()
    ensures ActiveZones([]) == []
    ensures forall zs: seq<Zone> :: zs + [] == zs
  {
  }

  /** The listing is exactly the active zones with an id and a name among the first 2000, in the
      server's order, however the last page falls and whether or not a page count is given. */
  lemma ListsActiveZones(server: nat -> Answer, zones: seq<Item>)
    requires Serves(server, zones)
    ensures Walk(server, 1) == Some(ActiveZones(zones[..Least(|zones|, 2000)]))
  {
    WalkFrom(server, zones, 1);
    assert zones[0..Least(|zones|, 2000)] == zones[..Least(|zones|, 2000)];
  }

  /** What the listing holds. */
  lemma ListedIff(server: nat -> Answer, zones: seq<Item>, z: Zone)
    requires Serves(server, zones) && |zones| <= 2000
    ensures Walk(server, 1).Some?
    ensures z in Walk(server, 1).value
            <==> z.id != "" && z.name != "" && Item(z.id, z.name, "active") in zones
  {
    hide Walk, Filter;
    ListsActiveZones(server, zones);
    assert zones[..|zones|] == zones;
    var kept := Filter(zones, Usable());
    FilterMembers(zones, Usable());
    var item := Item(z.id, z.name, "active");
    if item in kept {
      var k :| 0 <= k < |kept| && kept[k] == item;
      assert ActiveZones(zones)[k] == z;
    }
    if z in ActiveZones(zones) {
      var k :| 0 <= k < |kept| && ActiveZones(zones)[k] == z;
      assert kept[k] in kept && kept[k] == item;
    }
  }

  // ---------------------------------------------------------------- any server

  /** The walk asks for another page after this one: fifty items came, and no count says it was the
      last. */
  predicate GoesOn(server: nat -> Answer, page: nat) {
    match server(page)
    case Page(items, total) => |items| >= 50 && !(total > 0 && page >= total)
    case _ => false
  }

  function ItemsOf(a: Answer): seq<Item> {
    match a case Page(items, _) => items case _ => []
  }

  /** What these pages hold. */
  function Items(server: nat -> Answer, from: nat, to: nat): seq<Item>
    decreases to - from
  {
    if from >= to then [] else ItemsOf(server(from)) + Items(server, from + 1, to)
  }

  lemma {:induction false} WalkStopsFrom(server: nat -> Answer, page: nat, last: nat)
    requires 1 <= page <= last <= 40 && (forall p: nat | page <= p < last :: GoesOn(server, p))
    requires last < 40 ==> !GoesOn(server, last)
    ensures Walk(server, page)
            == if server(last).Page? then Some(ActiveZones(Items(server, page, last + 1))) else None
    decreases last - page
  {
    hide ActiveZones;
    NothingActive();
    ActiveConcat(ItemsOf(server(page)), Items(server, page + 1, last + 1));
    assert ItemsOf(server(page)) + [] == ItemsOf(server(page));
    if page < last {
      assert GoesOn(server, page);
      WalkStopsFrom(server, page + 1, last);
    } else if page == 40 {
      assert Walk(server, 41) == Some([]);
    }
  }

  /** Whatever the server answers: the walk ends at the first page that does not go on, and at the
      fortieth at the latest; it fails exactly when that page is refused, and else lists the active
      zones of all pages up to it. */
  lemma WalkStopsAt(server: nat -> Answer, last: nat)
    requires 1 <= last <= 40 && (forall p: nat | 1 <= p < last :: GoesOn(server, p))
    requires last < 40 ==> !GoesOn(server, last)
    ensures Walk(server, 1) == if server(last).Page? then Some(ActiveZones(Items(server, 1, last + 1))) else None
  {
    WalkStopsFrom(server, 1, last);
  }

  // ---------------------------------------------------------------- the code

  method ListZones(server: nat -> Answer) returns (zones: Option<seq<Zone>>, requests: nat)
    ensures zones == Walk(server, 1)
    ensures 1 <= requests <= MAX_PAGES
  {
    hide ActiveZones, Before;
    var found: seq<Zone> := [];
    BeforeTwice([], [], Walk(server, 1));
    var page: nat := 1;
    requests := 0;
    while page <= MAX_PAGES
      invariant 1 <= page <= MAX_PAGES + 1 && requests == page - 1
      invariant Walk(server, 1) == Before(found, Walk(server, page))
    {
      requests := requests + 1;
      var answer := server(page);
      if !answer.Page? {
        BeforeTwice(found, [], None);
        return None, requests;
      }
      var raw := answer.items;
      var active := CollectActive(raw);
      BeforeTwice(found, active, Walk(server, page + 1));
      found := found + active;
      if answer.totalPages > 0 && page >= answer.totalPages {
        return Some(found), requests;
      }
      if |raw| < PER_PAGE {
        return Some(found), requests;
      }
      page := page + 1;
    }
    zones := Some(found);
    NothingActive();
    BeforeTwice(found, [], None);
  }

  method CollectActive(raw: seq<Item>) returns (zones: seq<Zone>)
    ensures zones == ActiveZones(raw)
  {
    zones := [];
    for i := 0 to |raw|
      invariant zones == ActiveZones(raw[..i])
    {
      FilterStep(raw, i, Usable());
      var obj := raw[i];
      if obj.status == "active" && obj.id != "" && obj.name != "" {
        MapConcat(Filter(raw[..i], Usable()), [obj], ToZone());
        zones := zones + [Zone(obj.id, obj.name)];
      }
    }
    assert raw[..|raw|] == raw;
  }
}
