/** Pruning of rule-set references in a profile. */
module RulesetRefs {
  import opened Seqs
  import opened Text

  const LOCAL := "local"
  const RULE_SET := "rule_set"

  /** `rest` stands for the fields the pruning never looks at. */
  datatype RuleSet = RuleSet(id: string, kind: string, path: string, rest: string)
  datatype Rule = Rule(kind: string, payload: string, rest: string)

  /** The parts of a profile that hold rule-set references. */
  datatype Refs = Refs(sets: seq<RuleSet>, route: seq<Rule>, dns: seq<Rule>)

  function TrimAll(xs: seq<string>): seq<string> {
    if xs == [] then [] else [JsTrim(xs[0])] + TrimAll(xs[1..])
  }

  function IdsOf(sets: seq<RuleSet>): set<string> {
    set s | s in sets :: s.id
  }

  /** Whether a rule set stays; paths are checked only when some local rule set is known. */
  predicate KeepSet(s: RuleSet, known: seq<string>) {
    s.kind == LOCAL && (known == [] || s.path in known)
  }

  function Keeper(known: seq<string>): RuleSet -> bool {
    s => KeepSet(s, known)
  }

  function TokenKeeper(valid: set<string>): string -> bool {
    t => t != "" && t in valid
  }

  /** The tokens of a payload that name a rule set of the profile. */
  function Tokens(payload: string, valid: set<string>): seq<string> {
    Filter(TrimAll(Split(payload, ',')), TokenKeeper(valid))
  }

  /** What becomes of one rule: nothing, or one rule. */
  function Normalized(r: Rule, valid: set<string>, check: bool): seq<Rule> {
    if r.kind != RULE_SET || !check then [r]
    else
      var tokens := Tokens(r.payload, valid);
      if tokens == [] then [] else [r.(payload := Join(tokens, ','))]
  }

  function NormalizedAll(rules: seq<Rule>, valid: set<string>, check: bool): seq<Rule> {
    if rules == [] then [] else Normalized(rules[0], valid, check) + NormalizedAll(rules[1..], valid, check)
  }

  function Prune(p: Refs, known: seq<string>): Refs {
    var sets := Filter(p.sets, Keeper(known));
    Refs(sets, NormalizedAll(p.route, IdsOf(sets), known != []), NormalizedAll(p.dns, IdsOf(sets), known != []))
  }

  // ---------------------------------------------------------------- trimming

  lemma {:induction false} TrimAllMembers(xs: seq<string>)
    ensures forall t | t in TrimAll(xs) :: Tight(t, JsSpace) && exists x :: x in xs && t == JsTrim(x)
  {
    if xs != [] {
      TrimAllMembers(xs[1..]);
      TrimShape(xs[0], JsSpace);
      assert xs[0] in xs;
    }
  }

  lemma {:induction false} TrimAllTight(xs: seq<string>)
    requires forall x | x in xs :: Tight(x, JsSpace)
    ensures TrimAll(xs) == xs
  {
    if xs != [] {
      TightIsTrimmed(xs[0], JsSpace);
      TrimAllTight(xs[1..]);
    }
  }

  // ---------------------------------------------------------------- payloads

  /** A clean token survives splitting, trimming and validation. */
  predicate Clean(t: string, valid: set<string>) {
    t != "" && t in valid && ',' !in t && Tight(t, JsSpace)
  }

  lemma TokensAreClean(payload: string, valid: set<string>)
    ensures forall t | t in Tokens(payload, valid) :: Clean(t, valid)
  {
    var pieces := Split(payload, ',');
    FilterMembers(TrimAll(pieces), TokenKeeper(valid));
    TrimAllMembers(pieces);
    SplitPiecesLackSeparator(payload, ',');
    forall t | t in Tokens(payload, valid)
      ensures Clean(t, valid)
    {
      var x :| x in pieces && t == JsTrim(x);
      TrimShape(x, JsSpace);
    }
  }

  /** Reading back a joined payload yields its tokens. */
  lemma TokensOfJoin(tokens: seq<string>, valid: set<string>)
    requires tokens != [] && forall t | t in tokens :: Clean(t, valid)
    ensures Split(Join(tokens, ','), ',') == tokens
    ensures Tokens(Join(tokens, ','), valid) == tokens
  {
    SplitJoin(tokens, ',');
    TrimAllTight(tokens);
    FilterAll(tokens, TokenKeeper(valid));
  }

  /** A checked ruleset rule is dropped exactly when no token of it names a rule set; otherwise its
      new payload splits into exactly its valid tokens, in order. */
  lemma SurvivingPayload(r: Rule, valid: set<string>)
    requires r.kind == RULE_SET
    ensures var n := Normalized(r, valid, true);
            && (n == [] <==> forall t | t in TrimAll(Split(r.payload, ',')) :: t == "" || t !in valid)
            && (n != [] ==> n[0].rest == r.rest && n[0].kind == r.kind
                            && Split(n[0].payload, ',') == Tokens(r.payload, valid))
  {
    FilterMembers(TrimAll(Split(r.payload, ',')), TokenKeeper(valid));
    if t :| t in TrimAll(Split(r.payload, ',')) && t != "" && t in valid { assert t in Tokens(r.payload, valid); }
    if Tokens(r.payload, valid) != [] { assert Tokens(r.payload, valid)[0] in Tokens(r.payload, valid); }
    TokensAreClean(r.payload, valid);
    if Tokens(r.payload, valid) != [] { TokensOfJoin(Tokens(r.payload, valid), valid); }
  }

  // ---------------------------------------------------------------- rules

  predicate NamesOnly(r: Rule, valid: set<string>) {
    r.kind == RULE_SET ==> forall t | t in Split(r.payload, ',') :: t in valid
  }

  lemma {:induction false} NormalizedNamesOnly(rules: seq<Rule>, valid: set<string>)
    ensures forall r | r in NormalizedAll(rules, valid, true) :: NamesOnly(r, valid)
  {
    if rules != [] {
      var r := rules[0];
      var tokens := Tokens(r.payload, valid);
      TokensAreClean(r.payload, valid);
      if tokens != [] { TokensOfJoin(tokens, valid); }
      NormalizedNamesOnly(rules[1..], valid);
    }
  }

  predicate Plain(r: Rule) {
    r.kind != RULE_SET
  }

  lemma {:induction false} NormalizedKeepsPlain(rules: seq<Rule>, valid: set<string>, check: bool)
    ensures Filter(NormalizedAll(rules, valid, check), Plain) == Filter(rules, Plain)
  {
    if rules != [] {
      var n := Normalized(rules[0], valid, check);
      NormalizedKeepsPlain(rules[1..], valid, check);
      FilterConcat(n, NormalizedAll(rules[1..], valid, check), Plain);
      if n != [] {
        assert n[1..] == [];
        assert Filter(n, Plain) == (if Plain(n[0]) then [n[0]] else []) + Filter([], Plain);
      }
    }
  }

  lemma {:induction false} NormalizedConcat(a: seq<Rule>, b: seq<Rule>, valid: set<string>, check: bool)
    ensures NormalizedAll(a + b, valid, check) == NormalizedAll(a, valid, check) + NormalizedAll(b, valid, check)
  {
    if a == [] {
      assert a + b == b;
    } else {
      assert (a + b)[1..] == a[1..] + b;
      NormalizedConcat(a[1..], b, valid, check);
    }
  }

  lemma {:induction false} NormalizedShorter(rules: seq<Rule>, valid: set<string>, check: bool)
    ensures |NormalizedAll(rules, valid, check)| <= |rules|
  {
    if rules != [] { NormalizedShorter(rules[1..], valid, check); }
  }

  lemma {:induction false} NormalizedIdempotent(rules: seq<Rule>, valid: set<string>, check: bool)
    ensures NormalizedAll(NormalizedAll(rules, valid, check), valid, check) == NormalizedAll(rules, valid, check)
  {
    if rules != [] {
      var n, rest := Normalized(rules[0], valid, check), NormalizedAll(rules[1..], valid, check);
      NormalizedIdempotent(rules[1..], valid, check);
      NormalizedConcat(n, rest, valid, check);
      NormalizedAgain(rules[0], valid, check);
    }
  }

  lemma NormalizedAgain(r: Rule, valid: set<string>, check: bool)
    ensures NormalizedAll(Normalized(r, valid, check), valid, check) == Normalized(r, valid, check)
  {
    var n := Normalized(r, valid, check);
    if n != [] {
      assert n[1..] == [];
      if r.kind == RULE_SET && check {
        var tokens := Tokens(r.payload, valid);
        TokensAreClean(r.payload, valid);
        TokensOfJoin(tokens, valid);
      }
      assert NormalizedAll(n, valid, check) == Normalized(n[0], valid, check) + NormalizedAll([], valid, check);
    }
  }

  // ---------------------------------------------------------------- main results

  /** When local rule sets are known: every surviving rule set is local with a known path, every
      token of every surviving ruleset rule names a surviving rule set, and all other rules stay,
      in order. */
  lemma PruneLeavesNoDanglingReference(p: Refs, known: seq<string>)
    requires known != []
    ensures var q := Prune(p, known);
            && (forall s :: s in q.sets <==> s in p.sets && s.kind == LOCAL && s.path in known)
            && (forall r | r in q.route + q.dns :: NamesOnly(r, IdsOf(q.sets)))
            && Filter(q.route, Plain) == Filter(p.route, Plain)
            && Filter(q.dns, Plain) == Filter(p.dns, Plain)
  {
    var q := Prune(p, known);
    FilterMembers(p.sets, Keeper(known));
    NormalizedNamesOnly(p.route, IdsOf(q.sets));
    NormalizedNamesOnly(p.dns, IdsOf(q.sets));
    NormalizedKeepsPlain(p.route, IdsOf(q.sets), true);
    NormalizedKeepsPlain(p.dns, IdsOf(q.sets), true);
  }

  /** Without any known local rule set, only non-local rule sets go and no rule is touched. */
  lemma {:induction false} PruneWithoutKnown(rules: seq<Rule>, valid: set<string>)
    ensures NormalizedAll(rules, valid, false) == rules
  {
    if rules != [] { PruneWithoutKnown(rules[1..], valid); }
  }

  /** The trimmed tokens of a rule's payload that name a rule set. */
  function Names(valid: set<string>): Rule -> seq<string> {
    (r: Rule) => Filter(TrimAll(Split(r.payload, ',')), (t: string) => t != "" && t in valid)
  }

  function Survives(valid: set<string>): Rule -> bool {
    (r: Rule) => r.kind == "rule_set" ==> Names(valid)(r) != []
  }

  function Rewritten(valid: set<string>): Rule -> Rule {
    (r: Rule) => if r.kind == "rule_set" then r.(payload := Join(Names(valid)(r), ',')) else r
  }

  lemma NamesAre(r: Rule, valid: set<string>)
    ensures Names(valid)(r) == Tokens(r.payload, valid)
  {
    FilterAgree(TrimAll(Split(r.payload, ',')), (t: string) => t != "" && t in valid, TokenKeeper(valid));
  }

  lemma {:induction false} NormalizedIs(rules: seq<Rule>, valid: set<string>)
    ensures NormalizedAll(rules, valid, true) == Map(Filter(rules, Survives(valid)), Rewritten(valid))
  {
    hide Tokens, Names, Join;
    if rules != [] {
      NamesAre(rules[0], valid);
      NormalizedIs(rules[1..], valid);
      var kept := if Survives(valid)(rules[0]) then [rules[0]] else [];
      MapConcat(kept, Filter(rules[1..], Survives(valid)), Rewritten(valid));
    }
  }

  /** What pruning leaves, said of each list as a whole and in order: the local rule sets with a known
      path, any path when none is known; and, when some is known, the rules without a payload of
      tokens as they are, and the others where some trimmed token names a surviving rule set, with
      exactly these tokens joined by commas. */
  lemma PruneIs(p: Refs, known: seq<string>)
    ensures var q := Prune(p, known);
            var ids := set s | s in q.sets :: s.id;
            && q.sets == Filter(p.sets, (s: RuleSet) => s.kind == "local" && (known == [] || s.path in known))
            && (known == [] ==> q.route == p.route && q.dns == p.dns)
            && (known != [] ==>
                  && q.route == Map(Filter(p.route, Survives(ids)), Rewritten(ids))
                  && q.dns == Map(Filter(p.dns, Survives(ids)), Rewritten(ids)))
  {
    hide NormalizedAll, Survives, Rewritten;
    FilterAgree(p.sets, Keeper(known), (s: RuleSet) => s.kind == "local" && (known == [] || s.path in known));
    var ids := IdsOf(Prune(p, known).sets);
    if known == [] {
      PruneWithoutKnown(p.route, ids);
      PruneWithoutKnown(p.dns, ids);
    } else {
      NormalizedIs(p.route, ids);
      NormalizedIs(p.dns, ids);
    }
  }

  lemma PruneIdempotent(p: Refs, known: seq<string>)
    ensures Prune(Prune(p, known), known) == Prune(p, known)
  {
    var q := Prune(p, known);
    FilterMembers(p.sets, Keeper(known));
    FilterAll(q.sets, Keeper(known));
    NormalizedIdempotent(p.route, IdsOf(q.sets), known != []);
    NormalizedIdempotent(p.dns, IdsOf(q.sets), known != []);
  }

  // ---------------------------------------------------------------- the store's code

  class Profile {
    var sets: seq<RuleSet>
    var route: seq<Rule>
    var dns: seq<Rule>

    function Value(): Refs
      reads this
    {
      Refs(sets, route, dns)
    }
  }

  method FilterSets(sets: seq<RuleSet>, known: seq<string>) returns (kept: seq<RuleSet>, changed: bool)
    ensures kept == Filter(sets, Keeper(known))
    ensures changed <==> kept != sets
  {
    kept, changed := [], false;
    for i := 0 to |sets|
      invariant kept == Filter(sets[..i], Keeper(known))
      invariant changed <==> kept != sets[..i]
    {
      ghost var before := kept;
      FilterStep(sets, i, Keeper(known));
      if sets[i].kind != LOCAL {
        changed := true;
      } else if known != [] && sets[i].path !in known {
        changed := true;
      } else {
        kept := kept + [sets[i]];
      }
      Extended(before, sets[..i], kept, sets[i]);
    }
    assert sets[..|sets|] == sets;
  }

  /** A shortened prefix stays different from the original however it goes on. */
  lemma Extended<T>(out: seq<T>, done: seq<T>, out': seq<T>, x: T)
    requires |out| <= |done| && (out' == out || (|out'| == |out| + 1 && out'[..|out|] == out))
    ensures out' == done + [x] <==> out == done && out' == out + [x]
  {
    if out' == done + [x] {
      assert out'[..|out|] == (done + [x])[..|done|] == done;
    }
  }

  lemma NothingNormalized(valid: set<string>, check: bool)
    ensures NormalizedAll([], valid, check) == []
  {
  }

  lemma NormalizedStep(rules: seq<Rule>, i: nat, valid: set<string>, check: bool)
    requires i < |rules|
    ensures rules[..i + 1] == rules[..i] + [rules[i]]
    ensures NormalizedAll(rules[..i + 1], valid, check)
            == NormalizedAll(rules[..i], valid, check) + Normalized(rules[i], valid, check)
    ensures |NormalizedAll(rules[..i], valid, check)| <= i
  {
    hide Normalized;
    var rule := rules[i];
    assert rules[..i + 1] == rules[..i] + [rule];
    NormalizedConcat(rules[..i], [rule], valid, check);
    assert NormalizedAll([rule], valid, check) == Normalized(rule, valid, check) + NormalizedAll([], valid, check);
    NormalizedShorter(rules[..i], valid, check);
  }

  method NormalizeRules(rules: seq<Rule>, valid: set<string>, check: bool) returns (out: seq<Rule>, changed: bool)
    ensures out == NormalizedAll(rules, valid, check)
    ensures changed <==> out != rules
  {
    hide NormalizedAll, Filter, TrimAll, Split, Join, TokenKeeper;
    out, changed := [], false;
    NothingNormalized(valid, check);
    for i := 0 to |rules|
      invariant out == NormalizedAll(rules[..i], valid, check)
      invariant changed <==> out != rules[..i]
    {
      var rule := rules[i];
      ghost var before := out;
      if rule.kind != RULE_SET || !check {
        out := out + [rule];
      } else {
        var tokens := Filter(TrimAll(Split(rule.payload, ',')), TokenKeeper(valid));
        assert tokens == Tokens(rule.payload, valid);
        if |tokens| == 0 {
          changed := true;
        } else if Join(tokens, ',') != rule.payload {
          changed := true;
          out := out + [rule.(payload := Join(tokens, ','))];
        } else {
          out := out + [rule];
        }
      }
      NormalizedStep(rules, i, valid, check);
      Extended(before, rules[..i], out, rule);
    }
    assert rules[..|rules|] == rules;
  }

  /** pruneInvalidRulesetRefs: the answer is false exactly when the profile was left as it was. */
  method PruneInvalidRulesetRefs(p: Profile, known: seq<string>) returns (changed: bool)
    modifies p
    ensures p.Value() == Prune(old(p.Value()), known)
    ensures changed <==> p.Value() != old(p.Value())
  {
    var dropped, inRoute, inDns;
    p.sets, dropped := FilterSets(p.sets, known);
    var valid := set s | s in p.sets :: s.id;
    p.route, inRoute := NormalizeRules(p.route, valid, known != []);
    p.dns, inDns := NormalizeRules(p.dns, valid, known != []);
    changed := dropped || inRoute || inDns;
  }
}
