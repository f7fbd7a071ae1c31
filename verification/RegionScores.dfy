/** Scoring and ranking of deployment regions. Scores are counted in tenths of a point, which the
    weights 0.40, 0.30, 0.20 and 0.10 keep exact. */
module RegionScores {
  import opened Seqs

  datatype Region = Region(id: string, city: string, country: string, continent: string)

  datatype Reason = LowLatency | LowRisk | HighRisk | AiAccess | GeographicRedundancy

  datatype RegionScore = RegionScore(
    region: Region, latencyMs: real, gfwRisk: string, aiAccess: bool, score: int, reasons: seq<Reason>)

  const RISK := map[
    "sgp" := "low", "nrt" := "low", "icn" := "low", "tpe" := "low", "bom" := "low", "syd" := "low", "mel" := "low",
    "lax" := "medium", "sjc" := "medium", "sea" := "medium", "ams" := "medium", "fra" := "medium",
    "lhr" := "medium", "hkg" := "medium", "par" := "medium",
    "ewr" := "high", "ord" := "high", "dfw" := "high", "mia" := "high", "atl" := "high", "yto" := "high",
    "cdg" := "high"]

  const AI_ACCESSIBLE := {
    "sgp", "nrt", "icn", "syd", "lax", "sjc", "sea", "ewr", "ord", "dfw", "mia", "atl", "yto", "lhr", "fra",
    "ams", "cdg", "par", "mel"}

  const CONTINENT := map[
    "sgp" := "Asia", "nrt" := "Asia", "icn" := "Asia", "hkg" := "Asia", "tpe" := "Asia", "bom" := "Asia",
    "syd" := "Oceania", "mel" := "Oceania",
    "lax" := "NorthAmerica", "sjc" := "NorthAmerica", "sea" := "NorthAmerica", "ewr" := "NorthAmerica",
    "ord" := "NorthAmerica", "dfw" := "NorthAmerica", "mia" := "NorthAmerica", "atl" := "NorthAmerica",
    "yto" := "NorthAmerica",
    "lhr" := "Europe", "fra" := "Europe", "ams" := "Europe", "cdg" := "Europe", "par" := "Europe"]

  /** The measurements and the case folding a ranking depends on. */
  datatype Setting = Setting(latencies: map<string, real>, lower: string -> string)

  function GfwRisk(id: string, s: Setting): string {
    if s.lower(id) in RISK then RISK[s.lower(id)] else "medium"
  }

  function LatencyPoints(ms: real): int {
    if ms <= 0.0 then 50 else if ms < 100.0 then 100 else if ms < 200.0 then 80 else if ms < 400.0 then 60 else 30
  }

  function RiskPoints(risk: string): int {
    if risk == "low" then 100 else if risk == "medium" then 70 else if risk == "high" then 30
    else if risk == "critical" then 0 else 50
  }

  function ContinentOf(r: Region): string {
    if r.id in CONTINENT then CONTINENT[r.id] else r.continent
  }

  function Latency(r: Region, s: Setting): real {
    if r.id in s.latencies then s.latencies[r.id] else 0.0
  }

  /** The score without the diversity bonus. */
  function Base(r: Region, s: Setting): RegionScore {
    var latency, risk, ai := LatencyPoints(Latency(r, s)), RiskPoints(GfwRisk(r.id, s)), r.id in AI_ACCESSIBLE;
    RegionScore(r, Latency(r, s), GfwRisk(r.id, s), ai,
                4 * latency + 3 * risk + (if ai then 200 else 0),
                (if latency >= 80 then [LowLatency] else [])
                + (if risk >= 80 then [LowRisk] else if risk <= 30 then [HighRisk] else [])
                + (if ai then [AiAccess] else []))
  }

  function WithBonus(x: RegionScore): RegionScore {
    x.(score := x.score + 100, reasons := x.reasons + [GeographicRedundancy])
  }

  predicate HasBonus(x: RegionScore) {
    GeographicRedundancy in x.reasons
  }

  /** The entry is the base score of its region, with or without the bonus. */
  predicate Fair(x: RegionScore, s: Setting) {
    x == if HasBonus(x) then WithBonus(Base(x.region, s)) else Base(x.region, s)
  }

  function BonusOn(c: string): RegionScore -> bool {
    (x: RegionScore) => HasBonus(x) && ContinentOf(x.region) == c
  }

  lemma BasePlain(r: Region, s: Setting)
    ensures !HasBonus(Base(r, s)) && HasBonus(WithBonus(Base(r, s)))
    ensures 0 <= Base(r, s).score <= 900
  {
    assert GeographicRedundancy in WithBonus(Base(r, s)).reasons by {
      assert WithBonus(Base(r, s)).reasons[|Base(r, s).reasons|] == GeographicRedundancy;
    }
  }

  // ---------------------------------------------------------------- sorting

  predicate Descending<T>(xs: seq<T>, key: T -> int) {
    forall i, j | 0 <= i < j < |xs| :: key(xs[i]) >= key(xs[j])
  }

  lemma InsertKeepsOrder<T>(l: seq<T>, x: T, r: seq<T>, key: T -> int)
    requires Descending(l + r, key)
    requires forall y | y in l :: key(y) >= key(x)
    requires r != [] ==> key(r[0]) <= key(x)
    ensures Descending(l + ([x] + r), key)
  {
    var ys, zs := l + r, l + ([x] + r);
    forall i, j | 0 <= i < j < |zs|
      ensures key(zs[i]) >= key(zs[j])
    {
      if i == |l| {
        assert zs[j] == ys[j - 1] && ys[|l|] == r[0];
      } else if j == |l| {
        assert zs[i] in l;
      } else {
        var i', j' := if i < |l| then i else i - 1, if j < |l| then j else j - 1;
        assert zs[i] == ys[i'] && zs[j] == ys[j'];
      }
    }
  }

  method Insert<T>(ys: seq<T>, x: T, key: T -> int) returns (zs: seq<T>)
    requires Descending(ys, key)
    ensures multiset(zs) == multiset(ys) + multiset{x} && |zs| == |ys| + 1
    ensures Descending(zs, key)
  {
    var j := 0;
    while j < |ys| && key(ys[j]) >= key(x)
      invariant 0 <= j <= |ys|
      invariant forall k | 0 <= k < j :: key(ys[k]) >= key(x)
    {
      j := j + 1;
    }
    assert ys == ys[..j] + ys[j..];
    MultisetParts(ys[..j], x, ys[j..]);
    InsertKeepsOrder(ys[..j], x, ys[j..], key);
    zs := ys[..j] + ([x] + ys[j..]);
  }

  /** sort.Slice by decreasing key. Callers may rely on nothing but a sorted permutation. */
  method SortDescending<T>(xs: seq<T>, key: T -> int) returns (ys: seq<T>)
    ensures multiset(ys) == multiset(xs) && |ys| == |xs|
    ensures Descending(ys, key)
  {
    ys := [];
    for i := 0 to |xs|
      invariant multiset(ys) == multiset(xs[..i]) && |ys| == i
      invariant Descending(ys, key)
    {
      assert xs[..i + 1] == xs[..i] + ([xs[i]] + []) && xs[..i] + [] == xs[..i];
      MultisetParts(xs[..i], xs[i], []);
      ys := Insert(ys, xs[i], key);
    }
    assert xs[..|xs|] == xs;
  }

  // ---------------------------------------------------------------- the bonus pass

  predicate Unserved(x: RegionScore, seen: set<string>) {
    ContinentOf(x.region) != "" && ContinentOf(x.region) !in seen
  }

  function Awarded(x: RegionScore, seen: set<string>): RegionScore {
    if Unserved(x, seen) then WithBonus(x) else x
  }

  function Served(x: RegionScore, seen: set<string>): set<string> {
    if Unserved(x, seen) then seen + {ContinentOf(x.region)} else seen
  }

  /** Give the bonus to the first entry of each continent not seen yet. */
  function Award(xs: seq<RegionScore>, seen: set<string>): (ys: seq<RegionScore>)
    ensures |ys| == |xs|
  {
    if xs == [] then [] else [Awarded(xs[0], seen)] + Award(xs[1..], Served(xs[0], seen))
  }

  predicate AllBase(xs: seq<RegionScore>, s: Setting) {
    forall x | x in xs :: x == Base(x.region, s)
  }

  function Score(): RegionScore -> int {
    (x: RegionScore) => x.score
  }

  /** A bonus at position i is deserved: a continent not served before, best base score there. */
  predicate Deserved(ys: seq<RegionScore>, i: nat, seen: set<string>, s: Setting)
    requires i < |ys|
  {
    && ContinentOf(ys[i].region) != "" && ContinentOf(ys[i].region) !in seen
    && forall j | 0 <= j < |ys| && ContinentOf(ys[j].region) == ContinentOf(ys[i].region) ::
         Base(ys[i].region, s).score >= Base(ys[j].region, s).score
  }

  lemma AwardedIsFair(x: RegionScore, seen: set<string>, s: Setting)
    requires x == Base(x.region, s)
    ensures var y := Awarded(x, seen);
            y.region == x.region && Fair(y, s) && (HasBonus(y) <==> Unserved(x, seen))
  {
    BasePlain(x.region, s);
    hide Base;
  }

  lemma {:induction false} AwardIsFair(xs: seq<RegionScore>, seen: set<string>, s: Setting)
    requires AllBase(xs, s)
    ensures forall i | 0 <= i < |xs| :: Award(xs, seen)[i].region == xs[i].region && Fair(Award(xs, seen)[i], s)
  {
    hide Base;
    hide Fair;
    hide Awarded;
    hide Served;
    if xs != [] {
      assert xs[0] in xs && forall y | y in xs[1..] :: y in xs;
      AwardIsFair(xs[1..], Served(xs[0], seen), s);
      AwardedIsFair(xs[0], seen, s);
    }
  }

  lemma {:induction false} AwardIsDeserved(xs: seq<RegionScore>, seen: set<string>, s: Setting, i: nat)
    requires AllBase(xs, s) && Descending(xs, Score())
    requires i < |xs| && HasBonus(Award(xs, seen)[i])
    ensures Deserved(Award(xs, seen), i, seen, s)
  {
    hide ContinentOf;
    hide Base;
    hide HasBonus;
    hide Awarded;
    var ys, ys' := Award(xs, seen), Award(xs[1..], Served(xs[0], seen));
    assert ys[0] == Awarded(xs[0], seen) && ys[1..] == ys';
    assert forall y | y in xs[1..] :: y in xs;
    AwardIsFair(xs, seen, s);
    AwardedIsFair(xs[0], seen, s);
    if i == 0 {
      forall j | 0 <= j < |ys|
        ensures Base(ys[0].region, s).score >= Base(ys[j].region, s).score
      {
        assert xs[j] in xs && (j == 0 || Score()(xs[0]) >= Score()(xs[j]));
      }
    } else {
      assert ys[i] == ys'[i - 1];
      AwardIsDeserved(xs[1..], Served(xs[0], seen), s, i - 1);
      forall j | 0 <= j < |ys| && ContinentOf(ys[j].region) == ContinentOf(ys[i].region)
        ensures Base(ys[i].region, s).score >= Base(ys[j].region, s).score
      {
        if j > 0 { assert ys[j] == ys'[j - 1]; }
      }
    }
  }

  /** One bonus for each continent that is present and not yet served, none for the others. */
  lemma {:induction false} AwardCounts(xs: seq<RegionScore>, seen: set<string>, s: Setting, c: string)
    requires AllBase(xs, s)
    ensures CountIf(Award(xs, seen), BonusOn(c))
            == if c != "" && c !in seen && exists x :: x in xs && ContinentOf(x.region) == c then 1 else 0
  {
    hide ContinentOf;
    hide Base;
    hide HasBonus;
    hide Awarded;
    if xs != [] {
      var x := xs[0];
      assert x in xs && forall y | y in xs[1..] :: y in xs;
      AwardCounts(xs[1..], Served(x, seen), s, c);
      AwardedIsFair(x, seen, s);
      assert Award(xs, seen)[1..] == Award(xs[1..], Served(x, seen));
      assert BonusOn(c)(Awarded(x, seen)) <==> Unserved(x, seen) && ContinentOf(x.region) == c;
    }
  }

  // ---------------------------------------------------------------- the ranking

  function RegionOf(): RegionScore -> Region {
    (x: RegionScore) => x.region
  }

  predicate SameRegions(regions: seq<Region>, xs: seq<RegionScore>) {
    multiset(Map(xs, RegionOf())) == multiset(regions)
  }

  predicate FairAndBounded(x: RegionScore, s: Setting) {
    Fair(x, s) && 0 <= x.score <= 1000
  }

  /** A bonus needs a continent and the best base score there. */
  predicate BonusOnBest(x: RegionScore, results: seq<RegionScore>, s: Setting) {
    HasBonus(x) ==>
      && ContinentOf(x.region) != ""
      && forall y | y in results && ContinentOf(y.region) == ContinentOf(x.region) ::
           Base(x.region, s).score >= Base(y.region, s).score
  }

  /** The promises of a ranking, whatever sorting algorithm is used: a permutation of the input,
      best first, scores between 0 and 100 points, the bonus only on a best entry of a continent
      and on exactly one entry of each continent present. */
  predicate Ranked(regions: seq<Region>, s: Setting, results: seq<RegionScore>) {
    && SameRegions(regions, results)
    && Descending(results, Score())
    && (forall x | x in results :: FairAndBounded(x, s) && BonusOnBest(x, results, s))
    && (forall r | r in regions && ContinentOf(r) != "" :: CountIf(results, BonusOn(ContinentOf(r))) == 1)
  }

  lemma SameElements<T>(a: seq<T>, b: seq<T>, x: T)
    requires multiset(a) == multiset(b) && x in a
    ensures x in b
  {
    assert x in multiset(a);
  }

  lemma FairIsBounded(x: RegionScore, s: Setting)
    requires Fair(x, s)
    ensures FairAndBounded(x, s)
  {
    BasePlain(x.region, s);
    hide Base;
  }

  lemma EntriesFair(xs: seq<RegionScore>, ys: seq<RegionScore>, x: RegionScore, s: Setting)
    requires AllBase(xs, s) && Descending(xs, Score())
    requires multiset(ys) == multiset(Award(xs, {})) && x in ys
    ensures FairAndBounded(x, s) && BonusOnBest(x, ys, s)
  {
    var zs := Award(xs, {});
    hide ContinentOf;
    hide Award;
    hide Base;
    hide Fair;
    hide HasBonus;
    hide FairAndBounded;
    AwardIsFair(xs, {}, s);
    SameElements(ys, zs, x);
    var i :| 0 <= i < |zs| && zs[i] == x;
    FairIsBounded(x, s);
    if HasBonus(x) {
      AwardIsDeserved(xs, {}, s, i);
      forall y | y in ys && ContinentOf(y.region) == ContinentOf(x.region)
        ensures Base(x.region, s).score >= Base(y.region, s).score
      {
        SameElements(ys, zs, y);
        var j :| 0 <= j < |zs| && zs[j] == y;
      }
    }
  }

  lemma OneBonus(regions: seq<Region>, s: Setting, xs: seq<RegionScore>, ys: seq<RegionScore>, r: Region)
    requires AllBase(xs, s) && SameRegions(regions, xs)
    requires multiset(ys) == multiset(Award(xs, {})) && r in regions && ContinentOf(r) != ""
    ensures CountIf(ys, BonusOn(ContinentOf(r))) == 1
  {
    var c := ContinentOf(r);
    CountPermutation(ys, Award(xs, {}), BonusOn(c));
    AwardCounts(xs, {}, s, c);
    SameElements(regions, Map(xs, RegionOf()), r);
    var i :| 0 <= i < |xs| && Map(xs, RegionOf())[i] == r;
    assert xs[i] in xs && ContinentOf(xs[i].region) == c;
  }

  lemma RankedFrom(regions: seq<Region>, s: Setting, xs: seq<RegionScore>, ys: seq<RegionScore>)
    requires AllBase(xs, s) && Descending(xs, Score()) && SameRegions(regions, xs)
    requires multiset(ys) == multiset(Award(xs, {})) && Descending(ys, Score())
    ensures Ranked(regions, s, ys)
  {
    hide ContinentOf;
    AwardIsFair(xs, {}, s);
    MapPermutation(ys, Award(xs, {}), RegionOf());
    assert Map(Award(xs, {}), RegionOf()) == Map(xs, RegionOf());
    hide Award;
    hide FairAndBounded;
    hide BonusOnBest;
    forall x | x in ys
      ensures FairAndBounded(x, s) && BonusOnBest(x, ys, s)
    {
      EntriesFair(xs, ys, x, s);
    }
    forall r | r in regions && ContinentOf(r) != ""
      ensures CountIf(ys, BonusOn(ContinentOf(r))) == 1
    {
      OneBonus(regions, s, xs, ys, r);
    }
  }

  // ---------------------------------------------------------------- what a ranking says

  /** An entry's score without the bonus, in tenths. */
  function Plain(x: RegionScore): int {
    x.score - if GeographicRedundancy in x.reasons then 100 else 0
  }

  lemma PlainIs(x: RegionScore, s: Setting)
    requires Fair(x, s)
    ensures var b := Base(x.region, s);
            && Plain(x) == b.score && x.latencyMs == b.latencyMs && x.gfwRisk == b.gfwRisk && x.aiAccess == b.aiAccess
            && forall r | r != GeographicRedundancy :: r in x.reasons <==> r in b.reasons
  {
    var b := Base(x.region, s);
    BasePlain(x.region, s);
    assert WithBonus(b).reasons == b.reasons + [GeographicRedundancy];
  }

  lemma RisksAre(id: string, s: Setting)
    ensures GfwRisk(id, s) in {"low", "medium", "high"}
  {
  }

  /** Every entry carries the region's own measurements, and its reasons stand exactly when they
      apply: low latency below 200 ms and measured, the risk when it is low or high, and AI access. */
  lemma EntryMeaning(regions: seq<Region>, s: Setting, results: seq<RegionScore>, x: RegionScore)
    requires Ranked(regions, s, results) && x in results
    ensures var id := x.region.id;
            && x.latencyMs == (if id in s.latencies then s.latencies[id] else 0.0)
            && x.gfwRisk == (if s.lower(id) in RISK then RISK[s.lower(id)] else "medium")
            && x.gfwRisk in {"low", "medium", "high"}
            && (x.aiAccess <==> id in AI_ACCESSIBLE)
    ensures LowLatency in x.reasons <==> 0.0 < x.latencyMs < 200.0
    ensures LowRisk in x.reasons <==> x.gfwRisk == "low"
    ensures HighRisk in x.reasons <==> x.gfwRisk == "high"
    ensures AiAccess in x.reasons <==> x.aiAccess
  {
    hide Base, Fair, BonusOnBest, SameRegions, ContinentOf, WithBonus, HasBonus, GfwRisk;
    assert FairAndBounded(x, s);
    PlainIs(x, s);
    ReasonsAre(x.region, s);
  }

  lemma ReasonsAre(r: Region, s: Setting)
    ensures var b, id := Base(r, s), r.id;
            && b.latencyMs == (if id in s.latencies then s.latencies[id] else 0.0)
            && b.gfwRisk == (if s.lower(id) in RISK then RISK[s.lower(id)] else "medium")
            && b.gfwRisk in {"low", "medium", "high"}
            && (b.aiAccess <==> id in AI_ACCESSIBLE)
            && (LowLatency in b.reasons <==> 0.0 < b.latencyMs < 200.0)
            && (LowRisk in b.reasons <==> b.gfwRisk == "low")
            && (HighRisk in b.reasons <==> b.gfwRisk == "high")
            && (AiAccess in b.reasons <==> b.aiAccess)
  {
    RisksAre(r.id, s);
  }

  /** How entries compare before the bonus. Among measured regions of the same risk and AI access a
      lower latency never scores lower. */
  lemma LatencyOrders(
    regions: seq<Region>, s: Setting, results: seq<RegionScore>, x: RegionScore, y: RegionScore)
    requires Ranked(regions, s, results) && x in results && y in results
    requires x.gfwRisk == y.gfwRisk && x.aiAccess == y.aiAccess
    ensures 0.0 < x.latencyMs <= y.latencyMs ==> Plain(x) >= Plain(y)
    ensures 0.0 < x.latencyMs < 100.0 <= y.latencyMs < 200.0 ==> Plain(x) == Plain(y) + 80
    ensures 0.0 < x.latencyMs < 100.0 && 200.0 <= y.latencyMs < 400.0 ==> Plain(x) == Plain(y) + 160
    ensures 0.0 < x.latencyMs < 100.0 && 400.0 <= y.latencyMs ==> Plain(x) == Plain(y) + 280
    ensures 0.0 < x.latencyMs < 100.0 && y.latencyMs <= 0.0 ==> Plain(x) == Plain(y) + 200
  {
    hide Base, Fair, BonusOnBest, SameRegions, ContinentOf, WithBonus, HasBonus, GfwRisk, Plain, LatencyPoints,
      RiskPoints;
    assert FairAndBounded(x, s) && FairAndBounded(y, s);
    PlainIs(x, s);
    PlainIs(y, s);
    ScoreIs(x.region, s);
    ScoreIs(y.region, s);
    PointsAre(x.latencyMs);
    PointsAre(y.latencyMs);
  }

  lemma ScoreIs(r: Region, s: Setting)
    ensures var b := Base(r, s);
            b.score == 4 * LatencyPoints(b.latencyMs) + 3 * RiskPoints(b.gfwRisk) + (if b.aiAccess then 200 else 0)
  {
  }

  lemma PointsAre(ms: real)
    ensures ms <= 0.0 ==> LatencyPoints(ms) == 50
    ensures 0.0 < ms < 100.0 ==> LatencyPoints(ms) == 100
    ensures 100.0 <= ms < 200.0 ==> LatencyPoints(ms) == 80
    ensures 200.0 <= ms < 400.0 ==> LatencyPoints(ms) == 60
    ensures 400.0 <= ms ==> LatencyPoints(ms) == 30
  {
  }

  /** At the same latency, AI access is worth 20 points, low risk 9 more than medium and medium 12
      more than high; a region under 100 ms with low risk and AI access has 90. */
  lemma SharesAre(regions: seq<Region>, s: Setting, results: seq<RegionScore>, x: RegionScore, y: RegionScore)
    requires Ranked(regions, s, results) && x in results && y in results && x.latencyMs == y.latencyMs
    ensures x.gfwRisk == y.gfwRisk && x.aiAccess && !y.aiAccess ==> Plain(x) == Plain(y) + 200
    ensures x.aiAccess == y.aiAccess && x.gfwRisk == "low" && y.gfwRisk == "medium" ==> Plain(x) == Plain(y) + 90
    ensures x.aiAccess == y.aiAccess && x.gfwRisk == "medium" && y.gfwRisk == "high" ==> Plain(x) == Plain(y) + 120
    ensures x.aiAccess == y.aiAccess && x.gfwRisk == "low" && y.gfwRisk == "high" ==> Plain(x) == Plain(y) + 210
    ensures x.aiAccess && x.gfwRisk == "low" && 0.0 < x.latencyMs < 100.0 ==> Plain(x) == 900
  {
    hide Base, Fair, BonusOnBest, SameRegions, ContinentOf, WithBonus, HasBonus, GfwRisk, Plain, LatencyPoints;
    assert FairAndBounded(x, s) && FairAndBounded(y, s);
    PlainIs(x, s);
    PlainIs(y, s);
    ScoreIs(x.region, s);
    ScoreIs(y.region, s);
    PointsAre(x.latencyMs);
  }

  /** The bonus of 10 points goes to an entry no other of its continent beats before the bonus. */
  lemma BonusGoesToBest(regions: seq<Region>, s: Setting, results: seq<RegionScore>, x: RegionScore, y: RegionScore)
    requires Ranked(regions, s, results) && x in results && y in results && GeographicRedundancy in x.reasons
    requires var c := (r: Region) => if r.id in CONTINENT then CONTINENT[r.id] else r.continent;
             c(y.region) == c(x.region)
    ensures Plain(x) >= Plain(y) && x.score == Plain(x) + 100
  {
    hide Base, Fair, SameRegions, WithBonus, GfwRisk;
    assert FairAndBounded(x, s) && FairAndBounded(y, s) && BonusOnBest(x, results, s);
    PlainIs(x, s);
    PlainIs(y, s);
  }

  // ---------------------------------------------------------------- the code

  /** First pass: score without diversity. */
  method ScoreOne(r: Region, s: Setting) returns (rs: RegionScore)
    ensures rs == Base(r, s)
  {
    hide ContinentOf;
    var latencyMs, risk, ai := Latency(r, s), GfwRisk(r.id, s), r.id in AI_ACCESSIBLE;
    var reasons: seq<Reason> := [];
    var latency := LatencyPoints(latencyMs);
    var score := latency * 4;
    if latency >= 80 {
      reasons := reasons + [LowLatency];
    }
    var riskPoints := RiskPoints(risk);
    score := score + riskPoints * 3;
    if riskPoints >= 80 {
      reasons := reasons + [LowRisk];
    } else if riskPoints <= 30 {
      reasons := reasons + [HighRisk];
    }
    if ai {
      score := score + 200;
      reasons := reasons + [AiAccess];
    }
    rs := RegionScore(r, latencyMs, risk, ai, score, reasons);
  }

  /** Second pass: add the diversity bonus in the order given. */
  method AwardBonuses(sorted: seq<RegionScore>) returns (results: seq<RegionScore>)
    ensures results == Award(sorted, {})
  {
    hide ContinentOf;
    hide WithBonus;
    var seen: set<string> := {};
    results := [];
    for i := 0 to |sorted|
      invariant |results| == i
      invariant results + Award(sorted[i..], seen) == Award(sorted, {})
    {
      var c := ContinentOf(sorted[i].region);
      assert sorted[i..][0] == sorted[i] && sorted[i..][1..] == sorted[i + 1..];
      ghost var before, rest := results, Award(sorted[i + 1..], Served(sorted[i], seen));
      if c != "" && c !in seen {
        seen := seen + {c};
        results := results + [WithBonus(sorted[i])];
      } else {
        results := results + [sorted[i]];
      }
      assert before + ([results[i]] + rest) == before + [results[i]] + rest;
    }
    assert sorted[|sorted|..] == [] && results + [] == results;
  }

  method ScoreRegions(regions: seq<Region>, s: Setting) returns (results: seq<RegionScore>)
    ensures Ranked(regions, s, results)
  {
    hide ContinentOf;
    hide Base;
    hide Ranked;
    hide Award;
    var scored: seq<RegionScore> := [];
    for i := 0 to |regions|
      invariant |scored| == i && forall k | 0 <= k < i :: scored[k] == Base(regions[k], s)
    {
      var rs := ScoreOne(regions[i], s);
      scored := scored + [rs];
    }
    var sorted := SortDescending(scored, Score());
    ScoredRegions(regions, s, scored, sorted);
    var awarded := AwardBonuses(sorted);
    results := SortDescending(awarded, Score());
    RankedFrom(regions, s, sorted, results);
  }

  lemma ScoredRegions(regions: seq<Region>, s: Setting, scored: seq<RegionScore>, sorted: seq<RegionScore>)
    requires |scored| == |regions| && forall k | 0 <= k < |scored| :: scored[k] == Base(regions[k], s)
    requires multiset(sorted) == multiset(scored)
    ensures AllBase(sorted, s) && SameRegions(regions, sorted)
  {
    assert Map(scored, RegionOf()) == regions;
    MapPermutation(sorted, scored, RegionOf());
    forall x | x in sorted
      ensures x == Base(x.region, s)
    {
      SameElements(sorted, scored, x);
    }
  }
}
