/** Strings as the Go and TypeScript code handles them: decimal numbers, trimming, splitting. */
module Text {

  datatype Option<+T> = None | Some(value: T)

  // ---------------------------------------------------------------- decimal numbers

  function Digit(d: nat): char
    requires d < 10
  {
    "0123456789"[d]
  }

  predicate IsDigit(c: char) {
    '0' <= c <= '9'
  }

  function DigitValue(c: char): nat
    requires IsDigit(c)
  {
    c as int - '0' as int
  }

  /** strconv.FormatUint(n, 10) and the number part of fmt.Sprintf("%d"). */
  function Decimal(n: nat): (s: string)
    ensures |s| > 0
  {
    if n < 10 then [Digit(n)] else Decimal(n / 10) + [Digit(n % 10)]
  }

  predicate AllDigits(s: string) {
    forall i | 0 <= i < |s| :: IsDigit(s[i])
  }

  function DigitsValue(s: string): nat
    requires AllDigits(s)
  {
    if s == "" then 0 else 10 * DigitsValue(s[..|s| - 1]) + DigitValue(s[|s| - 1])
  }

  lemma {:induction false} DecimalDenotes(n: nat)
    ensures AllDigits(Decimal(n)) && DigitsValue(Decimal(n)) == n
  {
    if n >= 10 {
      DecimalDenotes(n / 10);
      var s := Decimal(n);
      assert s[..|s| - 1] == Decimal(n / 10);
    } else {
      var s := Decimal(n);
      assert s[..|s| - 1] == "";
    }
  }

  lemma DecimalInjective(m: nat, n: nat)
    requires Decimal(m) == Decimal(n)
    ensures m == n
  {
    DecimalDenotes(m);
    DecimalDenotes(n);
  }

  // ---------------------------------------------------------------- trimming

  /** White space removed by Go's strings.TrimSpace. */
  predicate GoSpace(c: char) {
    '\t' <= c <= '\r' || c == ' ' || c == '\U{85}' || c == '\U{A0}' || c == '\U{1680}'
    || '\U{2000}' <= c <= '\U{200A}' || c == '\U{2028}' || c == '\U{2029}'
    || c == '\U{202F}' || c == '\U{205F}' || c == '\U{3000}'
  }

  /** White space removed by String.prototype.trim: WhiteSpace and LineTerminator of ECMA-262. */
  predicate JsSpace(c: char) {
    (GoSpace(c) && c != '\U{85}') || c == '\U{FEFF}'
  }

  function TrimLeft(s: string, space: char -> bool): string {
    if s != "" && space(s[0]) then TrimLeft(s[1..], space) else s
  }

  function TrimRight(s: string, space: char -> bool): string {
    if s != "" && space(s[|s| - 1]) then TrimRight(s[..|s| - 1], space) else s
  }

  function Trim(s: string, space: char -> bool): string {
    TrimRight(TrimLeft(s, space), space)
  }

  function GoTrim(s: string): string {
    Trim(s, GoSpace)
  }

  function JsTrim(s: string): string {
    Trim(s, JsSpace)
  }

  /** No space at either end. */
  predicate Tight(s: string, space: char -> bool) {
    s != "" ==> !space(s[0]) && !space(s[|s| - 1])
  }

  lemma {:induction false} TrimLeftShape(s: string, space: char -> bool)
    ensures var t := TrimLeft(s, space); |t| <= |s| && t == s[|s| - |t|..] && (t != "" ==> !space(t[0]))
  {
    if s != "" && space(s[0]) {
      TrimLeftShape(s[1..], space);
    }
  }

  lemma {:induction false} TrimRightShape(s: string, space: char -> bool)
    ensures var t := TrimRight(s, space);
            |t| <= |s| && t == s[..|t|] && (t != "" ==> !space(t[|t| - 1]))
  {
    if s != "" && space(s[|s| - 1]) {
      TrimRightShape(s[..|s| - 1], space);
    }
  }

  /** A trimmed string is a piece of the original with no space at either end. */
  lemma TrimShape(s: string, space: char -> bool)
    ensures Tight(Trim(s, space), space)
    ensures forall c | c in Trim(s, space) :: c in s
  {
    var l := TrimLeft(s, space);
    TrimLeftShape(s, space);
    TrimRightShape(l, space);
  }

  lemma TightIsTrimmed(s: string, space: char -> bool)
    requires Tight(s, space)
    ensures Trim(s, space) == s
  {
  }

  /** Nothing is left of a string exactly when it is all spaces. */
  lemma {:induction false} TrimNothing(s: string, space: char -> bool)
    ensures Trim(s, space) == "" <==> forall c | c in s :: space(c)
  {
    TrimShape(s, space);
    var l := TrimLeft(s, space);
    TrimLeftShape(s, space);
    TrimRightShape(l, space);
    if Trim(s, space) == "" {
      NothingLeft(s, space);
      if l != "" {
        NothingRight(l, space);
      }
    } else {
      assert Trim(s, space)[0] in s;
    }
  }

  lemma {:induction false} NothingLeft(s: string, space: char -> bool)
    ensures TrimLeft(s, space) == "" ==> forall c | c in s :: space(c)
  {
    if s != "" && space(s[0]) {
      NothingLeft(s[1..], space);
    }
  }

  lemma {:induction false} NothingRight(s: string, space: char -> bool)
    ensures TrimRight(s, space) == "" ==> forall c | c in s :: space(c)
  {
    if s != "" && space(s[|s| - 1]) {
      NothingRight(s[..|s| - 1], space);
      assert s == s[..|s| - 1] + [s[|s| - 1]];
    }
  }

  lemma TrimIdempotent(s: string, space: char -> bool)
    ensures Trim(Trim(s, space), space) == Trim(s, space)
  {
    TrimShape(s, space);
    TightIsTrimmed(Trim(s, space), space);
  }

  // ---------------------------------------------------------------- prefixes, splitting, joining

  predicate HasPrefix(s: string, p: string) {
    |p| <= |s| && s[..|p|] == p
  }

  predicate HasSuffix(s: string, p: string) {
    |p| <= |s| && s[|s| - |p|..] == p
  }

  /** s.split(sep) for a one-character separator: always at least one piece. */
  function Split(s: string, sep: char): (pieces: seq<string>)
    ensures |pieces| > 0
  {
    if s == "" then [""]
    else if s[0] == sep then [""] + Split(s[1..], sep)
    else var rest := Split(s[1..], sep); [[s[0]] + rest[0]] + rest[1..]
  }

  function Join(pieces: seq<string>, sep: char): string {
    if |pieces| == 0 then ""
    else if |pieces| == 1 then pieces[0]
    else pieces[0] + [sep] + Join(pieces[1..], sep)
  }

  lemma {:induction false} SplitPiecesLackSeparator(s: string, sep: char)
    ensures forall p | p in Split(s, sep) :: sep !in p
  {
    if s != "" {
      SplitPiecesLackSeparator(s[1..], sep);
      var rest := Split(s[1..], sep);
      assert forall p | p in rest[1..] :: p in rest;
    }
  }

  lemma {:induction false} SplitPrefix(p: string, s: string, sep: char)
    requires sep !in p
    ensures Split(p + s, sep) == [p + Split(s, sep)[0]] + Split(s, sep)[1..]
  {
    if p == "" {
      assert p + s == s;
      assert p + Split(s, sep)[0] == Split(s, sep)[0];
    } else {
      assert (p + s)[0] == p[0] && (p + s)[1..] == p[1..] + s;
      SplitPrefix(p[1..], s, sep);
      assert [p[0]] + (p[1..] + Split(s, sep)[0]) == p + Split(s, sep)[0];
    }
  }

  /** Splitting undoes joining for any non-empty list of separator-free pieces. */
  lemma {:induction false} SplitJoin(pieces: seq<string>, sep: char)
    requires |pieces| > 0 && forall p | p in pieces :: sep !in p
    ensures Split(Join(pieces, sep), sep) == pieces
  {
    if |pieces| == 1 {
      SplitPrefix(pieces[0], "", sep);
      assert pieces[0] + "" == pieces[0];
    } else {
      var tail := [sep] + Join(pieces[1..], sep);
      assert Join(pieces, sep) == pieces[0] + tail;
      assert tail[1..] == Join(pieces[1..], sep);
      SplitJoin(pieces[1..], sep);
      assert Split(tail, sep) == [""] + pieces[1..];
      SplitPrefix(pieces[0], tail, sep);
      assert pieces[0] + "" == pieces[0];
    }
  }
}
