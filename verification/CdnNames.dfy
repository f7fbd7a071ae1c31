/** Worker names and the host names derived from them. */
module CdnNames {
  import opened Text

  // ---------------------------------------------------------------- worker names

  predicate LowerAlnum(c: char) {
    'a' <= c <= 'z' || '0' <= c <= '9'
  }

  predicate LabelChar(c: char) {
    LowerAlnum(c) || c == '-'
  }

  predicate HexChar(c: char) {
    '0' <= c <= '9' || 'a' <= c <= 'f'
  }

  predicate IsDash(c: char) {
    c == '-'
  }

  predicate NotDash(c: char) {
    c != '-'
  }

  /** Every maximal run of characters not kept becomes one dash; `inRun` says that the run before
      has been written. */
  function CollapseRuns(s: string, keep: char -> bool, inRun: bool): string {
    if s == "" then ""
    else if keep(s[0]) then [s[0]] + CollapseRuns(s[1..], keep, false)
    else (if inRun then "" else "-") + CollapseRuns(s[1..], keep, true)
  }

  const PREFIX := "pd-relay-"

  function Clip(s: string): string {
    if |s| > 20 then s[..20] else s
  }

  /** `lower` is strings.ToLower; any function will do. */
  function CleanLabel(lower: string -> string, nodeLabel: string): string {
    var alnum := CollapseRuns(lower(GoTrim(nodeLabel)), LowerAlnum, false);
    Clip(Trim(CollapseRuns(alnum, NotDash, false), IsDash))
  }

  /** `hash` gives the first six hex digits of the node's SHA-256. */
  function SafeWorkerName(lower: string -> string, hash: string -> string, nodeID: string, nodeLabel: string): string {
    var clean, short := CleanLabel(lower, nodeLabel), hash(nodeID);
    var name := if clean != "" then PREFIX + clean + "-" + short else PREFIX + short;
    if '0' <= name[0] <= '9' then "r-" + name else name
  }

  predicate SixHex(s: string) {
    |s| == 6 && forall i | 0 <= i < 6 :: HexChar(s[i])
  }

  predicate AllLabelChars(s: string) {
    forall c | c in s :: LabelChar(c)
  }

  lemma {:induction false} CollapsedChars(s: string, keep: char -> bool, inRun: bool)
    ensures forall c | c in CollapseRuns(s, keep, inRun) :: c == '-' || (keep(c) && c in s)
  {
    if s != "" {
      CollapsedChars(s[1..], keep, false);
      CollapsedChars(s[1..], keep, true);
    }
  }

  lemma CleanLabelShape(lower: string -> string, nodeLabel: string)
    ensures AllLabelChars(CleanLabel(lower, nodeLabel)) && |CleanLabel(lower, nodeLabel)| <= 20
  {
    hide CollapseRuns, Trim, LowerAlnum;
    var s := lower(GoTrim(nodeLabel));
    var alnum := CollapseRuns(s, LowerAlnum, false);
    var dashed := CollapseRuns(alnum, NotDash, false);
    CollapsedChars(s, LowerAlnum, false);
    CollapsedChars(alnum, NotDash, false);
    TrimShape(dashed, IsDash);
    forall c | c in CleanLabel(lower, nodeLabel) ensures LabelChar(c) {
      assert c in Trim(dashed, IsDash);
      assert c in dashed;
    }
  }

  /** Whatever the node id and the label: lower-case letters, digits and dashes only, at most 36
      characters, ending in the node's hash. */
  lemma WorkerNameShape(lower: string -> string, hash: string -> string, nodeID: string, nodeLabel: string)
    requires SixHex(hash(nodeID))
    ensures var name := SafeWorkerName(lower, hash, nodeID, nodeLabel);
            && AllLabelChars(name) && |name| <= 36
            && HasPrefix(name, PREFIX) && HasSuffix(name, hash(nodeID))
  {
    hide CleanLabel;
    CleanLabelShape(lower, nodeLabel);
    var clean, short := CleanLabel(lower, nodeLabel), hash(nodeID);
    var name := SafeWorkerName(lower, hash, nodeID, nodeLabel);
    assert AllLabelChars(PREFIX) && AllLabelChars(short) && AllLabelChars("-");
    assert name == if clean != "" then PREFIX + clean + "-" + short else PREFIX + short;
    assert name[|name| - 6..] == short;
  }

  // ---------------------------------------------------------------- what the label becomes

  /** The maximal runs of lower-case letters and digits, in order. */
  function Words(s: string): (ws: seq<string>)
    ensures s != "" && LowerAlnum(s[0]) ==> ws != []
  {
    if s == "" then []
    else
      var rest := Words(s[1..]);
      if !LowerAlnum(s[0]) then rest
      else if |s| > 1 && LowerAlnum(s[1]) then [[s[0]] + rest[0]] + rest[1..]
      else [[s[0]]] + rest
  }

  predicate AreWords(ws: seq<string>) {
    forall w | w in ws :: w != "" && forall c | c in w :: LowerAlnum(c)
  }

  lemma {:induction false} WordsAreWords(s: string)
    ensures AreWords(Words(s))
    ensures s != "" && Words(s) == [] ==> !LowerAlnum(s[|s| - 1])
  {
    if s != "" {
      WordsAreWords(s[1..]);
      var rest := Words(s[1..]);
      if LowerAlnum(s[0]) && |s| > 1 && LowerAlnum(s[1]) {
        assert rest[0] in rest && forall w | w in rest[1..] :: w in rest;
      }
    }
  }

  lemma {:induction false} JoinEnds(ws: seq<string>)
    requires AreWords(ws) && ws != []
    ensures var j := Join(ws, '-'); j != "" && LowerAlnum(j[0]) && LowerAlnum(j[|j| - 1])
  {
    assert ws[0] in ws && ws[0][0] in ws[0] && ws[0][|ws[0]| - 1] in ws[0];
    if |ws| > 1 {
      assert forall w | w in ws[1..] :: w in ws;
      JoinEnds(ws[1..]);
    }
  }

  function Dash(there: bool): string {
    if there then "-" else ""
  }

  /** Joined words, with a dash where the text begins or ends with other characters. */
  function Joined(s: string, inRun: bool): string {
    var j := Join(Words(s), '-');
    Dash(s != "" && !LowerAlnum(s[0]) && !inRun) + j + Dash(s != "" && j != "" && !LowerAlnum(s[|s| - 1]))
  }

  lemma {:induction false} CollapsedIsJoined(s: string, inRun: bool)
    ensures CollapseRuns(s, LowerAlnum, inRun) == Joined(s, inRun)
  {
    hide LowerAlnum, Joined;
    if s == "" {
      NothingJoined(inRun);
    } else if LowerAlnum(s[0]) {
      CollapsedIsJoined(s[1..], false);
      KeptInFront(s, inRun);
    } else {
      CollapsedIsJoined(s[1..], true);
      OtherInFront(s, inRun);
    }
  }

  lemma NothingJoined(inRun: bool)
    ensures Joined("", inRun) == ""
  {
  }

  lemma KeptInFront(s: string, inRun: bool)
    requires s != "" && LowerAlnum(s[0])
    ensures Joined(s, inRun) == [s[0]] + Joined(s[1..], false)
  {
    hide LowerAlnum, Words, Join;
    var r := s[1..];
    WordsAreWords(r);
    JoinedOneMore(s);
    NothingToJoin();
    if Words(r) != [] { JoinEnds(Words(r)); }
  }

  lemma OtherInFront(s: string, inRun: bool)
    requires s != "" && !LowerAlnum(s[0])
    ensures Joined(s, inRun) == (if inRun then "" else "-") + Joined(s[1..], true)
  {
    hide LowerAlnum, Join;
    NothingToJoin();
  }

  lemma NothingToJoin()
    ensures Join([], '-') == "" && Words("") == []
  {
  }

  lemma WordsUnfold(s: string)
    requires s != "" && LowerAlnum(s[0])
    ensures var r, rest := s[1..], Words(s[1..]);
            if r != "" && LowerAlnum(r[0])
            then rest != [] && Words(s) == [[s[0]] + rest[0]] + rest[1..]
            else Words(s) == [[s[0]]] + rest
  {
    hide LowerAlnum;
  }

  lemma JoinLonger(c: char, ws: seq<string>)
    requires ws != []
    ensures Join([[c] + ws[0]] + ws[1..], '-') == [c] + Join(ws, '-')
  {
    assert ([[c] + ws[0]] + ws[1..])[1..] == ws[1..];
  }

  lemma JoinNew(c: char, ws: seq<string>)
    ensures Join([[c]] + ws, '-') == [c] + if ws == [] then "" else "-" + Join(ws, '-')
  {
    assert ([[c]] + ws)[1..] == ws;
  }

  /** One more letter or digit in front. */
  lemma JoinedOneMore(s: string)
    requires s != "" && LowerAlnum(s[0])
    ensures var r := s[1..];
            Join(Words(s), '-')
            == [s[0]] + (if r == "" || LowerAlnum(r[0]) || Words(r) == [] then Join(Words(r), '-')
                         else "-" + Join(Words(r), '-'))
  {
    hide LowerAlnum, Words, Join;
    var rest := Words(s[1..]);
    WordsUnfold(s);
    NothingToJoin();
    if s[1..] != "" && LowerAlnum(s[1..][0]) {
      JoinLonger(s[0], rest);
    } else {
      JoinNew(s[0], rest);
    }
  }

  predicate NoDoubleDash(s: string) {
    forall i | 0 < i < |s| :: s[i] != '-' || s[i - 1] != '-'
  }

  lemma {:induction false} CollapsedHasNoDouble(s: string, inRun: bool)
    ensures var t := CollapseRuns(s, LowerAlnum, inRun);
            NoDoubleDash(t) && (inRun && t != "" ==> t[0] != '-')
  {
    if s != "" {
      CollapsedHasNoDouble(s[1..], !LowerAlnum(s[0]));
    }
  }

  lemma {:induction false} CollapsingAgain(t: string, inRun: bool)
    requires NoDoubleDash(t) && (inRun && t != "" ==> t[0] != '-')
    ensures CollapseRuns(t, NotDash, inRun) == t
  {
    if t != "" {
      CollapsingAgain(t[1..], t[0] == '-');
    }
  }

  lemma TrimsDashes(front: bool, j: string, back: bool)
    requires j != "" ==> j[0] != '-' && j[|j| - 1] != '-'
    requires back ==> j != ""
    ensures Trim(Dash(front) + j + Dash(back), IsDash) == j
  {
    var s, t := Dash(front) + j + Dash(back), j + Dash(back);
    assert s == Dash(front) + t;
    if front { assert s[0] == '-' && s[1..] == t; }
    assert TrimLeft(t, IsDash) == t;
    assert TrimLeft(s, IsDash) == t;
    if back { assert t[|t| - 1] == '-' && t[..|t| - 1] == j; }
    assert j + "" == j && TrimRight(j, IsDash) == j;
    assert TrimRight(t, IsDash) == j;
  }

  /** A worker is named after its label's letters and digits, the words joined by single dashes and
      cut after twenty characters, and its node's hash. */
  lemma NameIsWords(lower: string -> string, hash: string -> string, nodeID: string, nodeLabel: string)
    ensures var joined := Join(Words(lower(GoTrim(nodeLabel))), '-');
            var part := if |joined| > 20 then joined[..20] else joined;
            && CleanLabel(lower, nodeLabel) == part
            && SafeWorkerName(lower, hash, nodeID, nodeLabel)
               == (if part == "" then "pd-relay-" else "pd-relay-" + part + "-") + hash(nodeID)
  {
    hide GoTrim, Words, LowerAlnum, CollapseRuns, Trim, Join;
    NothingToJoin();
    var s := lower(GoTrim(nodeLabel));
    var j := Join(Words(s), '-');
    WordsAreWords(s);
    if Words(s) != [] { JoinEnds(Words(s)); }
    CollapsedIsJoined(s, false);
    CollapsedHasNoDouble(s, false);
    CollapsingAgain(CollapseRuns(s, LowerAlnum, false), false);
    DashIsNotAlnum();
    TrimsDashes(s != "" && !LowerAlnum(s[0]), j, s != "" && j != "" && !LowerAlnum(s[|s| - 1]));
  }

  lemma DashIsNotAlnum()
    ensures !LowerAlnum('-')
  {
  }

  // ---------------------------------------------------------------- the hash suffix

  /** The last six characters when they are hex digits, else nothing. */
  function ShortSuffix(scriptName: string): string {
    if |scriptName| < 6 || !SixHex(scriptName[|scriptName| - 6..]) then "" else scriptName[|scriptName| - 6..]
  }

  method ScriptShortSuffix(scriptName: string) returns (r: string)
    ensures r == ShortSuffix(scriptName)
  {
    if |scriptName| < 6 {
      return "";
    }
    var n := |scriptName| - 6;
    var cand := scriptName[n..];
    for i := 0 to 6
      invariant forall k | 0 <= k < i :: HexChar(cand[k])
    {
      if !HexChar(cand[i]) {
        return "";
      }
    }
    return cand;
  }

  /** Six hex digits are the suffix exactly of the names that end in them; other names have none. */
  lemma SuffixIff(scriptName: string, t: string)
    ensures |t| == 6 && (forall c | c in t :: c in "0123456789abcdef") ==>
              (ShortSuffix(scriptName) == t <==> HasSuffix(scriptName, t))
    ensures var suffix := ShortSuffix(scriptName);
            suffix != "" ==>
              |suffix| == 6 && (forall c | c in suffix :: c in "0123456789abcdef") && HasSuffix(scriptName, suffix)
  {
    HexChars();
    assert forall i | 0 <= i < |t| :: t[i] in t;
  }

  lemma HexChars()
    ensures forall c: char :: HexChar(c) <==> c in "0123456789abcdef"
  {
    var digits := "0123456789abcdef";
    forall c: char | HexChar(c) ensures c in digits {
      var k := if c <= '9' then c as int - '0' as int else c as int - 'a' as int + 10;
      assert digits[k] == c;
    }
  }

  /** The suffix recovers a node's hash from its script name, whatever the label was. */
  lemma SuffixRecoversHash(lower: string -> string, hash: string -> string, nodeID: string, nodeLabel: string)
    requires SixHex(hash(nodeID))
    ensures ShortSuffix(SafeWorkerName(lower, hash, nodeID, nodeLabel)) == hash(nodeID)
  {
    hide SafeWorkerName;
    WorkerNameShape(lower, hash, nodeID, nodeLabel);
  }

  // ---------------------------------------------------------------- the subdomain and the host

  /** What SetCustomDomain accepts as a subdomain. */
  predicate ValidSubdomain(s: string) {
    s != "" && |s| <= 56 && s[0] != '-' && s[|s| - 1] != '-' && AllLabelChars(s)
  }

  method ValidateDNSLabel(subdomain: string) returns (ok: bool)
    ensures ok <==> ValidSubdomain(subdomain)
  {
    if subdomain == "" || |subdomain| > 56 {
      return false;
    }
    if subdomain[0] == '-' || subdomain[|subdomain| - 1] == '-' {
      return false;
    }
    for i := 0 to |subdomain|
      invariant AllLabelChars(subdomain[..i])
    {
      assert subdomain[..i + 1] == subdomain[..i] + [subdomain[i]];
      var c := subdomain[i];
      if !(('a' <= c <= 'z') || ('0' <= c <= '9') || c == '-') {
        assert c in subdomain;
        return false;
      }
    }
    assert subdomain[..|subdomain|] == subdomain;
    return true;
  }

  datatype CustomDomain = CustomDomain(zoneID: string, zoneName: string, subdomain: string)

  predicate IsSet(c: CustomDomain) {
    GoTrim(c.zoneID) != "" && GoTrim(c.zoneName) != "" && GoTrim(c.subdomain) != ""
  }

  function HostForScript(c: CustomDomain, scriptName: string): string {
    if !IsSet(c) || ShortSuffix(scriptName) == "" then ""
    else GoTrim(c.subdomain) + "-" + ShortSuffix(scriptName) + "." + GoTrim(c.zoneName)
  }

  /** There is a host exactly for a complete custom domain and a script name with a hash; nothing else
      is ever bound. */
  lemma HostExistsIff(c: CustomDomain, scriptName: string)
    ensures HostForScript(c, scriptName) != ""
            <==> GoTrim(c.zoneID) != "" && GoTrim(c.zoneName) != "" && GoTrim(c.subdomain) != ""
                 && |scriptName| >= 6 && forall x | x in scriptName[|scriptName| - 6..] :: x in "0123456789abcdef"
  {
    hide GoTrim;
    HexChars();
    if |scriptName| >= 6 {
      var end := scriptName[|scriptName| - 6..];
      assert forall i | 0 <= i < 6 :: end[i] in end;
    }
  }

  /** A host label of section 2.3.4 of RFC 1035, in the narrower alphabet used here. */
  predicate HostLabel(s: string) {
    1 <= |s| <= 63 && AllLabelChars(s) && s[0] != '-' && s[|s| - 1] != '-'
  }

  /** A subdomain is accepted exactly when it is a host label itself and stays one with a dash and a
      node's hash behind it. */
  lemma ValidSubdomainIff(s: string, h: string)
    requires SixHex(h)
    ensures ValidSubdomain(s) <==> HostLabel(s) && HostLabel(s + "-" + h)
  {
    var t := s + "-" + h;
    forall c | c in h ensures LabelChar(c) {
      var i :| 0 <= i < 6 && h[i] == c;
    }
    assert AllLabelChars(s) ==> forall c | c in t :: c in s || c == '-' || c in h;
  }

  lemma ValidSubdomainTight(s: string)
    requires ValidSubdomain(s)
    ensures GoTrim(s) == s
  {
    assert s[0] in s && s[|s| - 1] in s;
    TightIsTrimmed(s, GoSpace);
  }

  lemma HostShape(c: CustomDomain, scriptName: string)
    requires IsSet(c) && ValidSubdomain(c.subdomain) && ShortSuffix(scriptName) != ""
    ensures var first := c.subdomain + "-" + ShortSuffix(scriptName);
            && HostForScript(c, scriptName) == first + ("." + GoTrim(c.zoneName))
            && HostLabel(first) && '.' !in first
  {
    ValidSubdomainTight(c.subdomain);
    var first := c.subdomain + "-" + ShortSuffix(scriptName);
    assert HostForScript(c, scriptName) == first + ("." + GoTrim(c.zoneName));
    forall x | x in first ensures LabelChar(x) {
    }
  }

  /** With a validated subdomain and a script name of our own making, the host exists, its first
      nodeLabel is legal, and it is the subdomain with the node's hash. */
  lemma HostIsLegal(
    lower: string -> string, hash: string -> string, nodeID: string, nodeLabel: string, c: CustomDomain)
    requires SixHex(hash(nodeID)) && IsSet(c) && ValidSubdomain(c.subdomain)
    ensures var host := HostForScript(c, SafeWorkerName(lower, hash, nodeID, nodeLabel));
            && host == c.subdomain + "-" + hash(nodeID) + "." + GoTrim(c.zoneName)
            && Split(host, '.')[0] == c.subdomain + "-" + hash(nodeID)
            && HostLabel(Split(host, '.')[0])
  {
    hide SafeWorkerName, IsSet, HostLabel, GoTrim;
    var scriptName := SafeWorkerName(lower, hash, nodeID, nodeLabel);
    SuffixRecoversHash(lower, hash, nodeID, nodeLabel);
    HostShape(c, scriptName);
    var first := c.subdomain + "-" + hash(nodeID);
    var tail := "." + GoTrim(c.zoneName);
    SplitPrefix(first, tail, '.');
    assert Split(tail, '.')[0] == "";
    assert first + "" == first;
  }

  /** One node keeps one host whatever its label; nodes with different hashes get different hosts. */
  lemma HostsFollowNodes(
    lower: string -> string, hash: string -> string, n1: string, l1: string, n2: string, l2: string, c: CustomDomain)
    requires SixHex(hash(n1)) && SixHex(hash(n2)) && IsSet(c) && ValidSubdomain(c.subdomain)
    ensures HostForScript(c, SafeWorkerName(lower, hash, n1, l1))
            == HostForScript(c, SafeWorkerName(lower, hash, n2, l2))
            <==> hash(n1) == hash(n2)
  {
    hide SafeWorkerName, IsSet, HostLabel, GoTrim;
    HostIsLegal(lower, hash, n1, l1, c);
    HostIsLegal(lower, hash, n2, l2, c);
    SuffixRecoversHash(lower, hash, n1, l1);
    SuffixRecoversHash(lower, hash, n2, l2);
    var a, b := c.subdomain + "-" + hash(n1), c.subdomain + "-" + hash(n2);
    assert a[|a| - 6..] == hash(n1) && b[|b| - 6..] == hash(n2);
  }
}
