/** Rendering of the Worker script, and how the Worker reads its constants back. */
module WorkerTemplate {
  import opened CdnNames
  import opened Text

  // ---------------------------------------------------------------- strings.ReplaceAll

  /** p occurs in s at k. */
  predicate Occurs(s: string, p: string, k: int) {
    0 <= k <= |s| - |p| && s[k..k + |p|] == p
  }

  predicate Absent(s: string, p: string) {
    forall k | 0 <= k <= |s| - |p| :: !Occurs(s, p, k)
  }

  predicate OnlyAt(s: string, p: string, k: int) {
    Occurs(s, p, k) && forall j | 0 <= j <= |s| - |p| :: Occurs(s, p, j) ==> j == k
  }

  /** Leftmost, non-overlapping. */
  function ReplaceAll(s: string, p: string, r: string): string
    requires p != ""
  {
    if s == "" then ""
    else if HasPrefix(s, p) then r + ReplaceAll(s[|p|..], p, r)
    else [s[0]] + ReplaceAll(s[1..], p, r)
  }

  lemma OccursInDrop(s: string, n: nat, p: string, k: nat)
    requires n <= |s|
    ensures Occurs(s[n..], p, k) <==> Occurs(s, p, n + k)
  {
    if k + |p| <= |s| - n {
      assert s[n..][k..k + |p|] == s[n + k..n + k + |p|];
    }
  }

  lemma {:induction false} ReplaceNone(s: string, p: string, r: string)
    requires p != "" && Absent(s, p)
    ensures ReplaceAll(s, p, r) == s
  {
    if s != "" {
      assert HasPrefix(s, p) <==> Occurs(s, p, 0);
      forall k | 0 <= k <= |s| - 1 - |p| ensures !Occurs(s[1..], p, k) {
        OccursInDrop(s, 1, p, k);
      }
      ReplaceNone(s[1..], p, r);
    }
  }

  lemma ReplaceStep(s: string, p: string, r: string)
    requires p != "" && s != ""
    ensures Occurs(s, p, 0) ==> ReplaceAll(s, p, r) == r + ReplaceAll(s[|p|..], p, r)
    ensures !Occurs(s, p, 0) ==> ReplaceAll(s, p, r) == [s[0]] + ReplaceAll(s[1..], p, r)
  {
  }

  lemma {:induction false} ReplaceOnly(s: string, p: string, r: string, k: nat)
    requires p != "" && OnlyAt(s, p, k)
    ensures ReplaceAll(s, p, r) == s[..k] + r + s[k + |p|..]
  {
    hide ReplaceAll, Occurs;
    OccursFits(s, p, k);
    ReplaceStep(s, p, r);
    if k == 0 {
      AbsentAfter(s, p);
      ReplaceNone(s[|p|..], p, r);
    } else {
      OnlyInTail(s, p, k);
      ReplaceOnly(s[1..], p, r, k - 1);
      assert [s[0]] + s[1..][..k - 1] == s[..k];
      assert s[1..][k - 1 + |p|..] == s[k + |p|..];
    }
  }

  lemma OccursFits(s: string, p: string, k: int)
    requires Occurs(s, p, k)
    ensures 0 <= k <= |s| - |p|
  {
  }

  lemma AbsentAfter(s: string, p: string)
    requires p != "" && OnlyAt(s, p, 0)
    ensures |p| <= |s| && Absent(s[|p|..], p)
  {
    forall j | 0 <= j <= |s| - |p| - |p| ensures !Occurs(s[|p|..], p, j) {
      OccursInDrop(s, |p|, p, j);
    }
  }

  lemma OnlyInTail(s: string, p: string, k: nat)
    requires p != "" && k > 0 && OnlyAt(s, p, k)
    ensures s != "" && OnlyAt(s[1..], p, k - 1) && !Occurs(s, p, 0)
  {
    OccursInDrop(s, 1, p, k - 1);
    forall j | 0 <= j <= |s| - 1 - |p| ensures Occurs(s[1..], p, j) ==> j == k - 1 {
      OccursInDrop(s, 1, p, j);
    }
  }

  // ---------------------------------------------------------------- escaping

  function EscapeJSString(s: string): string {
    ReplaceAll(ReplaceAll(s, "\\", "\\\\"), "'", "\\'")
  }

  function EscapeEach(s: string): string {
    if s == "" then ""
    else (if s[0] == '\\' then "\\\\" else if s[0] == '\'' then "\\'" else [s[0]]) + EscapeEach(s[1..])
  }

  lemma ReplaceCharStep(s: string, c: char, r: string)
    requires s != ""
    ensures ReplaceAll(s, [c], r) == (if s[0] == c then r else [s[0]]) + ReplaceAll(s[1..], [c], r)
  {
    assert s[..1] == [s[0]];
  }

  lemma {:induction false} ReplaceCharConcat(a: string, b: string, c: char, r: string)
    ensures ReplaceAll(a + b, [c], r) == ReplaceAll(a, [c], r) + ReplaceAll(b, [c], r)
  {
    if a == "" {
      assert a + b == b;
    } else {
      hide ReplaceAll;
      var s := a + b;
      assert s[0] == a[0] && s[1..] == a[1..] + b;
      ReplaceCharStep(a, c, r);
      ReplaceCharStep(s, c, r);
      ReplaceCharConcat(a[1..], b, c, r);
    }
  }

  lemma ReplaceOneChar(x: char, c: char, r: string)
    ensures ReplaceAll([x], [c], r) == if x == c then r else [x]
  {
    assert [x][..1] == [x] && [x][1..] == "";
    assert ReplaceAll("", [c], r) == "";
    assert r + "" == r && [x] + "" == [x];
  }

  /** Two passes of replacement escape each character on its own: the backslashes of the second pass
      are not escaped again. */
  lemma {:induction false} EscapeIsPerCharacter(s: string)
    ensures EscapeJSString(s) == EscapeEach(s)
  {
    hide ReplaceAll;
    if s == "" {
      EscapeEmpty();
    } else {
      var x, rest := s[0], s[1..];
      var once := ReplaceAll([x], "\\", "\\\\");
      assert s == [x] + rest;
      ReplaceCharConcat([x], rest, '\\', "\\\\");
      ReplaceCharConcat(once, ReplaceAll(rest, "\\", "\\\\"), '\'', "\\'");
      ReplaceOneChar(x, '\\', "\\\\");
      EscapeIsPerCharacter(rest);
      ReplaceOneChar(x, '\'', "\\'");
      BackslashesStay();
    }
  }

  lemma EscapeEmpty()
    ensures EscapeJSString("") == ""
  {
  }

  lemma BackslashesStay()
    ensures ReplaceAll("\\\\", "'", "\\'") == "\\\\"
  {
    assert "\\\\"[1..] == "\\";
    ReplaceOneChar('\\', '\'', "\\'");
  }

  /** Quotes inside an escaped text follow a backslash. */
  lemma {:induction false} EscapedQuotes(s: string)
    ensures forall k | 0 <= k < |EscapeEach(s)| && EscapeEach(s)[k] == '\'' :: k > 0 && EscapeEach(s)[k - 1] == '\\'
    ensures s != "" ==> EscapeEach(s) != "" && EscapeEach(s)[|EscapeEach(s)| - 1] == s[|s| - 1]
  {
    if s != "" {
      EscapedQuotes(s[1..]);
    }
  }

  function Literal(s: string): string {
    "'" + EscapeJSString(s) + "'"
  }

  // ---------------------------------------------------------------- rendering

  const BACKEND_MARK := "'__BACKEND_PLACEHOLDER__'"
  const SECRET_MARK := "'__PATH_SECRET_PLACEHOLDER__'"

  datatype Rendered = Script(body: string) | NoBackendMark | NoSecretMark

  /** DeployWorker's rendering, with its two checks afterwards. */
  function Render(template: string, backend: string, secret: string): Rendered {
    var body := ReplaceAll(ReplaceAll(template, BACKEND_MARK, Literal(backend)), SECRET_MARK, Literal(secret));
    if !Absent(body, BACKEND_MARK) then NoBackendMark
    else if !Absent(body, SECRET_MARK) then NoSecretMark
    else Script(body)
  }

  /** A quoted word: quotes at both ends, none inside, an underscore before the last. */
  predicate Marker(q: string) {
    && |q| >= 3 && q[0] == '\'' && q[|q| - 1] == '\'' && q[|q| - 2] == '_'
    && forall k | 0 < k < |q| - 1 :: q[k] != '\''
  }

  /** Quotes at both ends, and no quote after the first that follows an underscore. */
  predicate Guarded(l: string) {
    && |l| >= 2 && l[0] == '\'' && l[|l| - 1] == '\''
    && forall k | 0 < k < |l| && l[k] == '\'' :: l[k - 1] != '_'
  }

  lemma LiteralGuarded(s: string)
    requires s != "" && s[|s| - 1] != '_'
    ensures Guarded(Literal(s))
  {
    EscapeIsPerCharacter(s);
    EscapedQuotes(s);
    var e, l := EscapeEach(s), Literal(s);
    assert l == "'" + e + "'";
    forall k | 0 < k < |l| && l[k] == '\'' ensures l[k - 1] != '_' {
      if k < |l| - 1 {
        assert l[k] == e[k - 1];
        assert l[k - 1] == e[k - 2];
      } else {
        assert l[k - 1] == e[|e| - 1];
      }
    }
  }

  /** A marker cannot touch a guarded literal except by sharing one of its outer quotes. */
  lemma MarkerAvoidsLiteral(x: string, l: string, y: string, q: string, k: int)
    requires Guarded(l) && Marker(q) && Occurs(x + l + y, q, k)
    ensures k + |q| <= |x| + 1 || k >= |x| + |l| - 1
  {
    var s, close := x + l + y, k + |q| - 1;
    assert s[k..k + |q|] == q;
    assert forall j | k < j < close :: s[j] == q[j - k];
    assert s[close] == q[|q| - 1] && s[close - 1] == q[|q| - 2];
    assert forall j | |x| < j < |x| + |l| && s[j] == '\'' :: s[j - 1] != '_' by {
      assert forall j | 0 <= j < |l| :: s[|x| + j] == l[j];
      forall j | |x| < j < |x| + |l| && s[j] == '\'' ensures s[j - 1] != '_' {
        assert l[j - |x|] == s[j] && l[j - |x| - 1] == s[j - 1];
      }
    }
    assert s[|x|] == l[0] && s[|x| + |l| - 1] == l[|l| - 1];
  }

  /** Swapping one quoted piece for another moves the occurrences of a marker outside it, and
      neither makes nor breaks any. */
  lemma SwapKeepsMarkers(x: string, l: string, m: string, y: string, q: string, k: int)
    requires Guarded(l) && Marker(q) && |m| >= 2 && m[0] == '\'' && m[|m| - 1] == '\''
    requires Occurs(x + l + y, q, k)
    ensures k + |q| <= |x| + 1 ==> Occurs(x + m + y, q, k)
    ensures k + |q| > |x| + 1 ==> k >= |x| + |l| - 1 && Occurs(x + m + y, q, k - |l| + |m|)
  {
    MarkerAvoidsLiteral(x, l, y, q, k);
    var s, t := x + l + y, x + m + y;
    if k + |q| <= |x| + 1 {
      assert forall j | k <= j < k + |q| :: t[j] == s[j];
      assert t[k..k + |q|] == s[k..k + |q|];
    } else {
      var d := |m| - |l|;
      assert forall j | k <= j < k + |q| :: t[j + d] == s[j];
      assert t[k + d..k + d + |q|] == s[k..k + |q|];
    }
  }

  lemma SwapRemoves(x: string, l: string, m: string, y: string, q: string)
    requires Guarded(l) && Marker(q) && Marker(m)
    requires Absent(x + m + y, q) || (q == m && OnlyAt(x + m + y, m, |x|))
    ensures Absent(x + l + y, q)
  {
    hide Occurs, Guarded;
    var s := x + l + y;
    forall k | 0 <= k <= |s| - |q| ensures !Occurs(s, q, k) {
      if Occurs(s, q, k) {
        SwapKeepsMarkers(x, l, m, y, q, k);
        OccursFits(x + m + y, q, if k + |q| <= |x| + 1 then k else k - |l| + |m|);
      }
    }
  }

  lemma SwapMoves(x: string, l: string, m: string, y: string, q: string, p: int)
    requires Guarded(l) && Marker(q) && Marker(m) && p >= |x| + |m| && OnlyAt(x + m + y, q, p)
    ensures OnlyAt(x + l + y, q, p - |m| + |l|)
  {
    hide Guarded;
    var s, t, d := x + l + y, x + m + y, |l| - |m|;
    assert s[p + d..p + d + |q|] == t[p..p + |q|] by {
      assert forall j | p <= j < p + |q| :: s[j + d] == t[j];
    }
    forall k | 0 <= k <= |s| - |q| ensures Occurs(s, q, k) ==> k == p + d {
      if Occurs(s, q, k) {
        SwapKeepsMarkers(x, l, m, y, q, k);
        OccursFits(t, q, if k + |q| <= |x| + 1 then k else k - |l| + |m|);
      }
    }
  }

  lemma MarksAreMarkers()
    ensures Marker(BACKEND_MARK) && Marker(SECRET_MARK) && BACKEND_MARK != SECRET_MARK
  {
  }

  /** Each quoted placeholder occurs exactly once, the backend first. */
  predicate Template(t: string, a: string, b: string, c: string) {
    && t == a + BACKEND_MARK + (b + SECRET_MARK + c)
    && OnlyAt(t, BACKEND_MARK, |a|)
    && OnlyAt(t, SECRET_MARK, |a| + |BACKEND_MARK| + |b|)
  }

  /** Substituting one placeholder neither creates nor destroys the other: whatever host, port and
      secret are inserted, both literals end up in place, the rest of the template stays, and the
      two checks pass. */
  lemma RenderFillsBoth(t: string, a: string, b: string, c: string, backend: string, secret: string)
    requires Template(t, a, b, c)
    requires backend != "" && backend[|backend| - 1] != '_' && secret != "" && secret[|secret| - 1] != '_'
    ensures Render(t, backend, secret) == Script(a + Literal(backend) + (b + Literal(secret) + c))
  {
    hide *;
    MarksAreMarkers();
    LiteralGuarded(backend);
    LiteralGuarded(secret);
    TemplateUnfolds(t, a, b, c);
    FillBoth(BACKEND_MARK, SECRET_MARK, a, b, c, Literal(backend), Literal(secret));
    RenderUnfolds(t, backend, secret);
  }

  lemma TemplateUnfolds(t: string, a: string, b: string, c: string)
    requires Template(t, a, b, c)
    ensures t == a + BACKEND_MARK + (b + SECRET_MARK + c)
    ensures OnlyAt(t, BACKEND_MARK, |a|) && OnlyAt(t, SECRET_MARK, |a| + |BACKEND_MARK| + |b|)
  {
    hide OnlyAt;
  }

  lemma RenderUnfolds(t: string, backend: string, secret: string)
    ensures var body := ReplaceAll(ReplaceAll(t, BACKEND_MARK, Literal(backend)), SECRET_MARK, Literal(secret));
            Absent(body, BACKEND_MARK) && Absent(body, SECRET_MARK) ==> Render(t, backend, secret) == Script(body)
  {
    hide ReplaceAll, Absent, Literal;
  }

  /** Replacing two markers, each occurring once, by guarded literals. */
  lemma FillBoth(bm: string, sm: string, a: string, b: string, c: string, l1: string, l2: string)
    requires Marker(bm) && Marker(sm) && Guarded(l1) && Guarded(l2)
    requires var t := a + bm + (b + sm + c); OnlyAt(t, bm, |a|) && OnlyAt(t, sm, |a| + |bm| + |b|)
    ensures var body := ReplaceAll(ReplaceAll(a + bm + (b + sm + c), bm, l1), sm, l2);
            body == a + l1 + (b + l2 + c) && Absent(body, bm) && Absent(body, sm)
  {
    hide *;
    var y, x := b + sm + c, a + l1 + b;
    Regroup(a, l1, b, sm, c);
    Regroup(a, l1, b, l2, c);
    ReplaceMiddle(a, bm, y, l1);
    SwapMoves(a, l1, bm, y, sm, |a| + |bm| + |b|);
    SwapRemoves(a, l1, bm, y, bm);
    ReplaceMiddle(x, sm, c, l2);
    SwapRemoves(x, l2, sm, c, bm);
    SwapRemoves(x, l2, sm, c, sm);
  }

  lemma Regroup(a: string, l: string, b: string, m: string, c: string)
    ensures a + l + (b + m + c) == a + l + b + m + c
    ensures |a + l + b| == |a| + |l| + |b|
  {
  }

  lemma ReplaceMiddle(x: string, m: string, y: string, r: string)
    requires Marker(m) && OnlyAt(x + m + y, m, |x|)
    ensures m != "" && ReplaceAll(x + m + y, m, r) == x + r + y
  {
    hide ReplaceAll, OnlyAt;
    var t := x + m + y;
    ReplaceOnly(t, m, r, |x|);
    assert t[..|x|] == x && t[|x| + |m|..] == y;
  }

  // ---------------------------------------------------------------- reading the literals back

  /** The value of a single-quoted literal and the text after it; Unmodelled stands for escapes
      that rendering never produces (octal, hexadecimal, Unicode, line continuation). */
  datatype Decoded = Value(value: string, rest: string) | SyntaxError | Unmodelled

  predicate LineBreak(c: char) {
    c == '\n' || c == '\r'
  }

  /** Single escape characters of section 12.9.4 of ECMA-262; other characters stand for themselves. */
  function Unescape(c: char): char {
    match c
    case 'b' => '\U{8}'
    case 't' => '\t'
    case 'n' => '\n'
    case 'v' => '\U{B}'
    case 'f' => '\U{C}'
    case 'r' => '\r'
    case _ => c
  }

  predicate LongEscape(c: char) {
    IsDigit(c) || c == 'x' || c == 'u' || LineBreak(c) || c == '\U{2028}' || c == '\U{2029}'
  }

  function Prepend(c: char, d: Decoded): Decoded {
    match d case Value(v, rest) => Value([c] + v, rest) case _ => d
  }

  /** The characters of a literal up to its closing quote. */
  function DecodeRest(s: string): Decoded {
    if s == "" then SyntaxError
    else if s[0] == '\'' then Value("", s[1..])
    else if LineBreak(s[0]) then SyntaxError
    else if s[0] != '\\' then Prepend(s[0], DecodeRest(s[1..]))
    else if |s| == 1 then SyntaxError
    else if LongEscape(s[1]) then Unmodelled
    else Prepend(Unescape(s[1]), DecodeRest(s[2..]))
  }

  function DecodeLiteral(s: string): Decoded {
    if s == "" || s[0] != '\'' then SyntaxError else DecodeRest(s[1..])
  }

  predicate OneLine(s: string) {
    forall c | c in s :: !LineBreak(c)
  }

  lemma {:induction false} DecodeEscaped(s: string, rest: string)
    ensures DecodeRest(EscapeEach(s) + ("'" + rest)) == if OneLine(s) then Value(s, rest) else SyntaxError
  {
    hide DecodeRest, OneLine, LineBreak;
    var all := EscapeEach(s) + ("'" + rest);
    if s == "" {
      assert all == "'" + rest;
      DecodeClose(rest);
    } else {
      var x, tail := s[0], EscapeEach(s[1..]) + ("'" + rest);
      DecodeEscaped(s[1..], rest);
      OneLineStep(s);
      assert [x] + s[1..] == s;
      if x == '\\' || x == '\'' {
        assert all == ['\\', x] + tail;
        DecodePair(x, tail);
      } else {
        assert all == [x] + tail;
        DecodePlain(x, tail);
      }
    }
  }

  lemma DecodeClose(rest: string)
    ensures DecodeRest("'" + rest) == Value("", rest) && OneLine("")
  {
    assert ("'" + rest)[1..] == rest;
  }

  lemma OneLineStep(s: string)
    requires s != ""
    ensures OneLine(s) <==> !LineBreak(s[0]) && OneLine(s[1..])
  {
    assert s == [s[0]] + s[1..];
  }

  lemma DecodePair(x: char, tail: string)
    requires x == '\\' || x == '\''
    ensures DecodeRest(['\\', x] + tail) == Prepend(x, DecodeRest(tail)) && !LineBreak(x)
  {
    assert (['\\', x] + tail)[2..] == tail;
  }

  lemma DecodePlain(x: char, tail: string)
    requires x != '\\' && x != '\''
    ensures DecodeRest([x] + tail) == if LineBreak(x) then SyntaxError else Prepend(x, DecodeRest(tail))
  {
    assert ([x] + tail)[1..] == tail;
  }

  /** A rendered literal decodes to the very string that was escaped, exactly when that string has
      no line break; with one, the script does not parse. */
  lemma LiteralDecodes(s: string, rest: string)
    ensures DecodeLiteral(Literal(s) + rest) == if OneLine(s) then Value(s, rest) else SyntaxError
  {
    hide EscapeJSString, DecodeRest, OneLine;
    EscapeIsPerCharacter(s);
    DecodeEscaped(s, rest);
    assert (Literal(s) + rest)[1..] == EscapeEach(s) + ("'" + rest);
  }

  // ---------------------------------------------------------------- the Worker's own parse

  function DigitsPrefix(s: string): string {
    if s != "" && IsDigit(s[0]) then [s[0]] + DigitsPrefix(s[1..]) else ""
  }

  /** Number.parseInt(s, 10) on a string without leading space or sign; None is NaN. */
  function ParseInt(s: string): Option<int>
    ensures ParseInt(s).Some? ==> s != "" && IsDigit(s[0])
  {
    var digits := DigitsPrefix(s);
    DigitsPrefixDigits(s);
    if digits == "" then None else Some(DigitsValue(digits))
  }

  lemma {:induction false} DigitsPrefixDigits(s: string)
    ensures AllDigits(DigitsPrefix(s))
    ensures AllDigits(s) ==> DigitsPrefix(s) == s
  {
    if s != "" && IsDigit(s[0]) {
      DigitsPrefixDigits(s[1..]);
    }
  }

  /** `[host, portStr] = BACKEND.split(':')` and the checks after it; None is the 502 answer. */
  function ParseBackend(backend: string): Option<(string, int)> {
    var pieces := Split(backend, ':');
    var port := if |pieces| > 1 then ParseInt(pieces[1]) else None;
    if pieces[0] == "" || port.None? then None else Some((pieces[0], port.value))
  }

  function Backend(host: string, port: nat): string {
    host + ":" + Decimal(port)
  }

  lemma {:induction false} FirstPieceShorter(s: string, sep: char)
    requires sep in s
    ensures |Split(s, sep)[0]| < |s|
  {
    if s[0] != sep {
      assert sep in s[1..];
      FirstPieceShorter(s[1..], sep);
    }
  }

  lemma {:induction false} FirstPieceOfPrefix(p: string, s: string, sep: char)
    requires sep in p
    ensures Split(p + s, sep)[0] == Split(p, sep)[0]
  {
    assert (p + s)[0] == p[0] && (p + s)[1..] == p[1..] + s;
    if p[0] != sep {
      assert sep in p[1..];
      FirstPieceOfPrefix(p[1..], s, sep);
    }
  }

  /** The Worker gets back the host and port the deploy was given exactly when the host is not empty
      and has no colon; an IPv6 literal does not survive. */
  lemma BackendParsesIff(host: string, port: nat)
    ensures ParseBackend(Backend(host, port)) == Some((host, port)) <==> host != "" && ':' !in host
  {
    hide Decimal, Split, DigitsPrefix;
    var tail := ":" + Decimal(port);
    assert Backend(host, port) == host + tail;
    DecimalDenotes(port);
    if ':' in host {
      FirstPieceOfPrefix(host, tail, ':');
      FirstPieceShorter(host, ':');
    } else {
      SplitPrefix(host, tail, ':');
      DigitsHaveNoColon(Decimal(port));
      DigitsPrefixDigits(Decimal(port));
      SplitPortTail(Decimal(port));
      assert host + "" == host;
    }
  }

  lemma DigitsHaveNoColon(s: string)
    requires AllDigits(s)
    ensures ':' !in s
  {
  }

  lemma SplitPortTail(digits: string)
    requires ':' !in digits
    ensures Split(":" + digits, ':') == ["", digits]
  {
    assert (":" + digits)[1..] == digits;
    SplitPrefix(digits, "", ':');
    assert digits + "" == digits;
  }

  /** From deploy to Worker: for every template with its two placeholders, every one-line host
      without a colon, every port and every generated secret, the script as uploaded holds a
      BACKEND literal that reads back as that host and port and a PATH_SECRET literal that reads
      back as that secret. */
  lemma WorkerReadsWhatWasDeployed(
    t: string, a: string, b: string, c: string, host: string, port: nat, secret: string)
    requires Template(t, a, b, c) && host != "" && ':' !in host && OneLine(host)
    requires secret != "" && AllHex(secret)
    ensures var r := Render(t, Backend(host, port), secret);
            && r.Script?
            && |a| <= |r.body|
            && var d := DecodeLiteral(r.body[|a|..]);
            && d.Value? && ParseBackend(d.value) == Some((host, port))
            && |b| <= |d.rest|
            && DecodeLiteral(d.rest[|b|..]) == Value(secret, c)
  {
    hide Render, Literal, Template, ParseBackend, DecodeLiteral;
    var backend := Backend(host, port);
    BackendEnds(host, port);
    HexOneLine(secret);
    RenderFillsBoth(t, a, b, c, backend, secret);
    var l1, l2 := Literal(backend), Literal(secret);
    var body := a + l1 + (b + l2 + c);
    assert body[|a|..] == l1 + (b + l2 + c);
    LiteralDecodes(backend, b + l2 + c);
    assert (b + l2 + c)[|b|..] == l2 + c;
    LiteralDecodes(secret, c);
    BackendParsesIff(host, port);
  }

  predicate AllHex(s: string) {
    forall c | c in s :: HexChar(c)
  }

  lemma HexOneLine(s: string)
    requires AllHex(s)
    ensures OneLine(s) && (s != "" ==> s[|s| - 1] != '_')
  {
    assert s != "" ==> s[|s| - 1] in s;
  }

  lemma BackendEnds(host: string, port: nat)
    requires OneLine(host)
    ensures var s := Backend(host, port); s != "" && s[|s| - 1] != '_' && OneLine(s)
  {
    hide Decimal;
    DecimalDenotes(port);
    var d := Decimal(port);
    assert Backend(host, port)[|host| + |d|] == d[|d| - 1];
    forall c | c in Backend(host, port) ensures !LineBreak(c) {
      if c !in host && c != ':' {
        assert c in d;
      }
    }
  }
}
