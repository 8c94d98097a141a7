/**
 * JavaScript strings and the String built-ins the bot uses: `trim`, `split(',')`,
 * `slice(0, n)` and `parseInt(s, 10)`.
 *
 * A JavaScript string is a sequence of UTF-16 code units, so `slice` and `length`
 * count code units, not characters. The bot's own literals are written here as
 * Dafny `string`s and turned into code units by `Js`.
 */
module JsStrings {
  import opened Optional

  /** One UTF-16 code unit. */
  type CodeUnit = u: int | 0 <= u < 0x1_0000

  type JsString = seq<CodeUnit>

  /**
   * The JavaScript string holding the text `s`. Every literal of the bot lies in
   * the Basic Multilingual Plane, where each character is one code unit.
   */
  function Js(s: string): (r: JsString)
    requires forall k :: 0 <= k < |s| ==> s[k] as int < 0x1_0000
    ensures |r| == |s|
    ensures forall k :: 0 <= k < |s| ==> r[k] == s[k] as int
  {
    seq(|s|, k requires 0 <= k < |s| => s[k] as int)
  }

  // ---------------------------------------------------------------------------
  // Whitespace and String.prototype.trim
  // ---------------------------------------------------------------------------

  /**
   * The code units ECMAScript's `trim` removes: the WhiteSpace characters (tab,
   * vertical tab, form feed, space, no-break space, byte order mark and the Zs
   * category) and the LineTerminator characters (LF, CR, LS, PS).
   */
  predicate IsWhite(u: CodeUnit) {
    || u == 0x09 || u == 0x0A || u == 0x0B || u == 0x0C || u == 0x0D
    || u == 0x20 || u == 0xA0 || u == 0x1680
    || (0x2000 <= u <= 0x200A)
    || u == 0x2028 || u == 0x2029 || u == 0x202F || u == 0x205F
    || u == 0x3000 || u == 0xFEFF
  }

  predicate AllWhite(s: JsString) {
    forall k :: 0 <= k < |s| ==> IsWhite(s[k])
  }

  /** How many code units of whitespace `s` starts with. */
  function LeadingWhite(s: JsString): (n: nat)
    ensures n <= |s|
    ensures AllWhite(s[..n])
    ensures n < |s| ==> !IsWhite(s[n])
  {
    if s != [] && IsWhite(s[0]) then
      var m := LeadingWhite(s[1..]);
      assert s[..m + 1] == [s[0]] + s[1..][..m];
      m + 1
    else 0
  }

  /** How many code units of whitespace `s` ends with. */
  function TrailingWhite(s: JsString): (n: nat)
    ensures n <= |s|
    ensures AllWhite(s[|s| - n..])
    ensures n < |s| ==> !IsWhite(s[|s| - 1 - n])
  {
    if s != [] && IsWhite(s[|s| - 1]) then
      var init := s[..|s| - 1];
      var m := TrailingWhite(init);
      assert s[|s| - (m + 1)..] == init[|init| - m..] + [s[|s| - 1]];
      m + 1
    else 0
  }

  /** The text of `s` strictly between its whitespace prefix and its whitespace suffix. */
  ghost predicate IsTrimmed(r: JsString, s: JsString) {
    && (r == [] || (!IsWhite(r[0]) && !IsWhite(r[|r| - 1])))
    && exists i :: 0 <= i <= |s| - |r| && r == s[i..i + |r|] && AllWhite(s[..i]) && AllWhite(s[i + |r|..])
  }

  /** `s.trim()`: both ends stripped of whitespace. */
  function Trim(s: JsString): (r: JsString)
    ensures IsTrimmed(r, s)
    ensures r == [] <==> AllWhite(s)
  {
    var a := LeadingWhite(s);
    var t := s[a..];
    var b := TrailingWhite(t);
    var r := t[..|t| - b];
    assert r == s[a..a + |r|];
    assert s[a + |r|..] == t[|t| - b..];
    assert a < |s| ==> !IsWhite(t[0]);
    assert b == |t| ==> t[|t| - b..] == t;
    assert AllWhite(s) ==> a == |s|;
    r
  }

  /** Trimming text that neither starts nor ends with whitespace changes nothing. */
  lemma TrimUnpadded(s: JsString)
    requires s != [] && !IsWhite(s[0]) && !IsWhite(s[|s| - 1])
    ensures Trim(s) == s
  {
    var r := Trim(s);
    var i :| 0 <= i <= |s| - |r| && r == s[i..i + |r|] && AllWhite(s[..i]) && AllWhite(s[i + |r|..]);
  }

  /** `s.slice(0, n)` for a non-negative `n`: at most the first `n` code units. */
  function Prefix(s: JsString, n: nat): (r: JsString)
    ensures |r| == if |s| < n then |s| else n
    ensures r <= s
  {
    if |s| < n then s else s[..n]
  }

  // ---------------------------------------------------------------------------
  // String.prototype.split(',')
  // ---------------------------------------------------------------------------

  const Comma: CodeUnit := 0x2C

  /** How many times `u` occurs in `s`. */
  function Count(s: JsString, u: CodeUnit): nat {
    if s == [] then 0 else (if s[0] == u then 1 else 0) + Count(s[1..], u)
  }

  /** `pieces.join(',')`. */
  function Join(pieces: seq<JsString>): JsString
    requires |pieces| >= 1
  {
    if |pieces| == 1 then pieces[0] else pieces[0] + [Comma] + Join(pieces[1..])
  }

  /**
   * `s.split(',')`: the texts between the commas, in order. The empty string
   * splits into one empty piece.
   */
  function Split(s: JsString): (pieces: seq<JsString>)
    ensures |pieces| == Count(s, Comma) + 1
    ensures forall p :: p in pieces ==> Comma !in p
    ensures Join(pieces) == s
  {
    if s == [] then [[]]
    else
      var rest := Split(s[1..]);
      if s[0] == Comma then
        assert ([[]] + rest)[1..] == rest;
        assert s == [Comma] + s[1..];
        [[]] + rest
      else
        var pieces := [[s[0]] + rest[0]] + rest[1..];
        assert rest == [rest[0]] + rest[1..];
        assert pieces[1..] == rest[1..];
        assert s == [s[0]] + s[1..];
        assert forall p :: p in pieces ==> p == pieces[0] || p in rest;
        pieces
  }

  /** A piece without commas followed by a comma is split off as it stands. */
  lemma {:induction false} SplitLeadingPiece(p: JsString, rest: JsString)
    requires Comma !in p
    ensures Split(p + [Comma] + rest) == [p] + Split(rest)
  {
    if p == [] {
      assert [] + [Comma] + rest == [Comma] + rest;
      assert ([Comma] + rest)[1..] == rest;
    } else {
      var s := p + [Comma] + rest;
      assert s[1..] == p[1..] + [Comma] + rest;
      SplitLeadingPiece(p[1..], rest);
      assert p == [p[0]] + p[1..];
    }
  }

  /** A text without commas is one piece. */
  lemma {:induction false} SplitSinglePiece(p: JsString)
    requires Comma !in p
    ensures Split(p) == [p]
  {
    if p != [] {
      SplitSinglePiece(p[1..]);
      assert p == [p[0]] + p[1..];
    }
  }

  /** Splitting the comma-join of comma-free pieces gives the pieces back. */
  lemma {:induction false} SplitJoin(pieces: seq<JsString>)
    requires |pieces| >= 1
    requires forall p :: p in pieces ==> Comma !in p
    ensures Split(Join(pieces)) == pieces
  {
    if |pieces| == 1 {
      SplitSinglePiece(pieces[0]);
    } else {
      assert pieces[0] in pieces;
      assert forall p :: p in pieces[1..] ==> p in pieces;
      SplitJoin(pieces[1..]);
      SplitLeadingPiece(pieces[0], Join(pieces[1..]));
      assert pieces == [pieces[0]] + pieces[1..];
    }
  }

  // ---------------------------------------------------------------------------
  // parseInt(s, 10)
  // ---------------------------------------------------------------------------

  const Plus: CodeUnit := 0x2B
  const Minus: CodeUnit := 0x2D

  predicate IsDigit(u: CodeUnit) {
    0x30 <= u <= 0x39
  }

  predicate AllDigits(s: JsString) {
    forall k :: 0 <= k < |s| ==> IsDigit(s[k])
  }

  /** The length of the longest run of decimal digits `s` starts with. */
  function DigitRun(s: JsString): (n: nat)
    ensures n <= |s|
    ensures AllDigits(s[..n])
    ensures n < |s| ==> !IsDigit(s[n])
  {
    if s != [] && IsDigit(s[0]) then
      var m := DigitRun(s[1..]);
      assert s[..m + 1] == [s[0]] + s[1..][..m];
      m + 1
    else 0
  }

  /** The number a string of decimal digits denotes. */
  function DigitsValue(d: JsString): nat
    requires AllDigits(d)
  {
    if d == [] then 0 else DigitsValue(d[..|d| - 1]) * 10 + (d[|d| - 1] - 0x30)
  }

  /**
   * `parseInt(s, 10)`: leading whitespace skipped, an optional sign, then the
   * longest run of decimal digits; `None` stands for NaN (no digit at all).
   */
  function ParseInt(s: JsString): (r: Option<int>)
    ensures r.None? <==>
      var t := s[LeadingWhite(s)..];
      var body := if t != [] && (t[0] == Plus || t[0] == Minus) then t[1..] else t;
      body == [] || !IsDigit(body[0])
  {
    var t := s[LeadingWhite(s)..];
    var negative := t != [] && t[0] == Minus;
    var body := if t != [] && (t[0] == Plus || t[0] == Minus) then t[1..] else t;
    var n := DigitRun(body);
    if n == 0 then None
    else
      var v: int := DigitsValue(body[..n]);
      Some(if negative then -v else v)
  }

  /** The shortest decimal text of `n`, as `String(n)` gives it. */
  function Decimal(n: nat): JsString {
    if n < 10 then [0x30 + n] else Decimal(n / 10) + [0x30 + n % 10]
  }

  /** A decimal text is a non-empty run of digits, so it holds no comma and no whitespace. */
  lemma {:induction false} DecimalShape(n: nat)
    ensures Decimal(n) != [] && AllDigits(Decimal(n))
    ensures !IsWhite(Decimal(n)[0]) && !IsWhite(Decimal(n)[|Decimal(n)| - 1])
    ensures Comma !in Decimal(n)
  {
    if n >= 10 {
      DecimalShape(n / 10);
    }
  }

  lemma {:induction false} DecimalValue(n: nat)
    ensures AllDigits(Decimal(n))
    ensures DigitsValue(Decimal(n)) == n
  {
    DecimalShape(n);
    if n >= 10 {
      var d := Decimal(n);
      assert d[..|d| - 1] == Decimal(n / 10);
      DecimalShape(n / 10);
      DecimalValue(n / 10);
    }
  }

  /** `parseInt` reads back the decimal text of any natural number. */
  lemma ParseDecimal(n: nat)
    ensures ParseInt(Decimal(n)) == Some(n)
  {
    DecimalShape(n);
    var d := Decimal(n);
    assert LeadingWhite(d) == 0;
    assert d[0..] == d;
    assert d[..|d|] == d;
    DecimalValue(n);
  }

  /** ... and of its negation written with a minus sign. */
  lemma ParseNegativeDecimal(n: nat)
    ensures ParseInt([Minus] + Decimal(n)) == Some(-(n as int))
  {
    DecimalShape(n);
    var d := Decimal(n);
    var s := [Minus] + d;
    assert LeadingWhite(s) == 0;
    assert s[0..] == s && s[1..] == d;
    assert d[..|d|] == d;
    DecimalValue(n);
  }
}
