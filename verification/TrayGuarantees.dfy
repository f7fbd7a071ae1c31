/** What every run of the tray system guarantees. */
module TrayGuarantees {
  import opened TrayProtocol
  import opened TraySystem
  import opened TrayConvergence
  import opened TraySafety

  // ---------------------------------------------------------------- main results

  lemma {:induction false} RunsKeepInvariants(s: Sys, ls: seq<Label>, s': Sys)
    requires ClickSafe(s) && Converging(s) && Reaches(s, ls, s')
    ensures ClickSafe(s') && Converging(s') && Extends(s.born, s'.born)
    decreases |ls|
  {
    hide ClickSafe;
    hide Converging;
    if ls != [] {
      var t :| Step(s, ls[0], t) && Reaches(t, ls[1..], s');
      StepClickSafe(s, ls[0], t);
      StepConverges(s, ls[0], t);
      RunsKeepInvariants(t, ls[1..], s');
    }
  }

  lemma InitialHolds(s: Sys)
    requires Initial(s)
    ensures ClickSafe(s) && Converging(s)
  {
    assert s.pipe + Sends(s.work) == [];
  }

  /** In every run, even one that loses commands, whatever fires is the handler of the item the
      user saw and clicked, and that item belongs to the menu in force when it fires (or is a
      fallback item). Everything else a click can do is nothing. */
  lemma ClicksFireTheirOwnHandler(s: Sys, ls: seq<Label>, s': Sys, f: Firing)
    requires Initial(s) && Reaches(s, ls, s') && f in s'.fired
    ensures f.shown.Node? && f.shown.id in s'.born
    ensures var o := s'.born[f.shown.id];
            && LabelsFit(f.shown.title, f.shown.tooltip, f.shown.checked, o)
            && f.handler == HandlerOf(o)
            && (o.FromMenu? ==> o.gen == f.gen)
  {
    InitialHolds(s);
    RunsKeepInvariants(s, ls, s');
  }

  /** A click left over from a menu that has been replaced meanwhile runs nothing. */
  lemma StaleClicksAreIgnored(s: Sys, ls: seq<Label>, s': Sys)
    requires Initial(s) && Reaches(s, ls, s')
    requires s'.clicks != [] && s'.clicks[0].Node?
    ensures var e := s'.clicks[0];
            && e.id in s'.born
            && (s'.born[e.id].FromMenu? && s'.born[e.id].gen != s'.gen ==> Deliver(s').fired == s'.fired)
  {
    InitialHolds(s);
    RunsKeepInvariants(s, ls, s');
    assert s'.clicks[0] in s'.clicks;
  }

  /** Ids are never handed out twice: along every run the origin of an id stays what it was, and a
      rebuild uses only ids that have no origin yet. */
  lemma IdsAreNeverReused(s: Sys, ls: seq<Label>, s': Sys, ls': seq<Label>, s'': Sys, ms: seq<MenuItem>)
    requires Initial(s) && Reaches(s, ls, s') && Reaches(s', ls', s'')
    ensures Extends(s'.born, s''.born)
    ensures Births(ms, s'.idSeq, s'.gen + 1).Keys !! s'.born.Keys
  {
    InitialHolds(s);
    RunsKeepInvariants(s, ls, s');
    RunsKeepInvariants(s', ls', s'');
    BirthsKeys(ms, s'.idSeq, s'.gen + 1);
    FallbackIdsApart(s'.idSeq, CountAll(ms));
    IdRangesDisjoint(0, s'.idSeq, s'.idSeq, CountAll(ms));
  }

  /** Once nothing is in flight, and provided no command was lost, the screen shows exactly the
      menu last asked for and every item on it has a live handler; there are no other handlers. */
  lemma QuietMenuIsTheWantedMenu(s: Sys, ls: seq<Label>, s': Sys)
    requires Initial(s) && Reaches(s, ls, s')
    requires s'.whole && s'.work == [] && s'.pipe == []
    ensures Erase(s'.side.menu) == s'.wanted
    ensures (set id | id in Ids(s'.side.menu)) == s'.side.items.Keys == s'.handlers.Keys
  {
    InitialHolds(s);
    RunsKeepInvariants(s, ls, s');
    assert s'.pipe + Sends(s'.work) == [];
  }
}
