/** The JavaScript string operations the feed reader leans on. */
module Text {
  import opened Wrappers

  predicate IsSpace(c: char) {
    || c in {' ', '\t', '\n', '\r', '\U{000B}', '\U{000C}', '\U{00A0}', '\U{1680}', '\U{2028}', '\U{2029}'}
    || c in {'\U{202F}', '\U{205F}', '\U{3000}', '\U{FEFF}'}
    || '\U{2000}' <= c <= '\U{200A}'
  }

  /** The white space of ECMAScript by code point: the separators of lines and words, and the byte order mark. */
  lemma SpacesAre(c: char)
    ensures IsSpace(c) <==> var n := c as int;
              || 9 <= n < 14 || n == 32 || n == 160 || n == 5760 || 8192 <= n < 8203
              || n == 8232 || n == 8233 || n == 8239 || n == 8287 || n == 12288 || n == 65279
  {
  }

  predicate IsDigit(c: char) {
    '0' <= c <= '9'
  }

  predicate IsUpper(c: char) {
    'A' <= c <= 'Z'
  }

  function TrimStart(s: string): string {
    if s != [] && IsSpace(s[0]) then TrimStart(s[1..]) else s
  }

  function TrimEnd(s: string): string {
    if s != [] && IsSpace(s[|s| - 1]) then TrimEnd(s[..|s| - 1]) else s
  }

  function Trim(s: string): string {
    TrimEnd(TrimStart(s))
  }

  predicate AllSpace(s: string) {
    forall c :: c in s ==> IsSpace(c)
  }

  lemma {:induction false} TrimStartCuts(s: string) returns (a: string)
    ensures s == a + TrimStart(s) && AllSpace(a)
    ensures TrimStart(s) != [] ==> !IsSpace(TrimStart(s)[0])
  {
    a := [];
    if s != [] && IsSpace(s[0]) {
      var more := TrimStartCuts(s[1..]);
      a := [s[0]] + more;
    }
  }

  lemma {:induction false} TrimEndCuts(s: string) returns (b: string)
    ensures s == TrimEnd(s) + b && AllSpace(b)
    ensures TrimEnd(s) != [] ==> TrimEnd(s)[0] == s[0] && !IsSpace(TrimEnd(s)[|TrimEnd(s)| - 1])
  {
    b := [];
    if s != [] && IsSpace(s[|s| - 1]) {
      var more := TrimEndCuts(s[..|s| - 1]);
      b := more + [s[|s| - 1]];
    }
  }

  predicate IsAround(s: string, a: string, middle: string, b: string) {
    s == a + middle + b && AllSpace(a) && AllSpace(b)
  }

  /** What trimming leaves is the text without the blanks around it, and has none at its ends. */
  lemma TrimCuts(s: string) returns (a: string, b: string)
    ensures IsAround(s, a, Trim(s), b)
    ensures Trim(s) != [] ==> !IsSpace(Trim(s)[0]) && !IsSpace(Trim(s)[|Trim(s)| - 1])
  {
    a := TrimStartCuts(s);
    b := TrimEndCuts(TrimStart(s));
    assert a + (Trim(s) + b) == a + Trim(s) + b;
  }

  /** `toLowerCase`, for the letters a column name is made of. */
  function Lower(s: string): (r: string)
    ensures |r| == |s|
  {
    if s == [] then []
    else [if IsUpper(s[0]) then s[0] - 'A' + 'a' else s[0]] + Lower(s[1..])
  }

  /** The digits a text starts with. */
  function Digits(s: string): (d: string)
    ensures forall c :: c in d ==> IsDigit(c)
  {
    if s != [] && IsDigit(s[0]) then [s[0]] + Digits(s[1..]) else []
  }

  function DigitValue(c: char): nat
    requires IsDigit(c)
  {
    c as int - '0' as int
  }

  function Value(d: string): nat
    requires forall c :: c in d ==> IsDigit(c)
  {
    if |d| == 0 then 0 else 10 * Value(d[..|d| - 1]) + DigitValue(d[|d| - 1])
  }

  /** `Number.parseInt(s, 10)`: leading blanks, a sign, then as many digits as there are; None is NaN. */
  function ParseInt(s: string): Option<int> {
    var t := TrimStart(s);
    var negative := t != [] && t[0] == '-';
    var signed := t != [] && (t[0] == '-' || t[0] == '+');
    var d := Digits(if signed then t[1..] else t);
    var n: int := Value(d);
    if d == [] then None else Some(if negative then -n else n)
  }

  /** A number as it is written. */
  function Decimal(n: nat): (d: string)
    ensures d != [] && forall c :: c in d ==> IsDigit(c)
  {
    if n < 10 then [n as char + '0'] else Decimal(n / 10) + [(n % 10) as char + '0']
  }

  lemma {:induction false} DecimalValue(n: nat)
    ensures Value(Decimal(n)) == n
  {
    if n < 10 {
      assert Decimal(n)[..0] == [];
    } else {
      DecimalValue(n / 10);
      var d := Decimal(n);
      assert d[..|d| - 1] == Decimal(n / 10);
    }
  }

  lemma {:induction false} AllDigits(d: string)
    requires forall c :: c in d ==> IsDigit(c)
    ensures Digits(d) == d
  {
    if d != [] {
      AllDigits(d[1..]);
    }
  }

  /** Writing a number and reading it back. */
  lemma ParseDecimal(n: nat)
    ensures ParseInt(Decimal(n)) == Some(n)
  {
    var d := Decimal(n);
    assert d[0] in d;
    AllDigits(d);
    DecimalValue(n);
  }
  lemma {:induction false} DigitsStop(d: string, rest: string)
    requires (forall c :: c in d ==> IsDigit(c)) && (rest == [] || !IsDigit(rest[0]))
    ensures Digits(d + rest) == d
  {
    if d == [] {
      assert d + rest == rest;
    } else {
      assert (d + rest)[1..] == d[1..] + rest;
      DigitsStop(d[1..], rest);
    }
  }

  lemma {:induction false} BlanksAreSkipped(blank: string, s: string)
    requires AllSpace(blank) && (s == [] || !IsSpace(s[0]))
    ensures TrimStart(blank + s) == s
  {
    if blank == [] {
      assert blank + s == s;
    } else {
      assert (blank + s)[1..] == blank[1..] + s;
      BlanksAreSkipped(blank[1..], s);
    }
  }

  /** A number is read behind blanks and an optional sign, up to the first character that is no digit. */
  lemma ParseLeading(blank: string, n: nat, rest: string)
    requires AllSpace(blank) && (rest == [] || !IsDigit(rest[0]))
    ensures ParseInt(blank + (Decimal(n) + rest)) == Some(n)
    ensures ParseInt(blank + (['+'] + (Decimal(n) + rest))) == Some(n)
    ensures ParseInt(blank + (['-'] + (Decimal(n) + rest))) == Some(0 - n)
  {
    var d := Decimal(n);
    var t := d + rest;
    assert t[0] == d[0] && d[0] in d;
    BlanksAreSkipped(blank, t);
    BlanksAreSkipped(blank, ['+'] + t);
    BlanksAreSkipped(blank, ['-'] + t);
    DigitsStop(d, rest);
    DecimalValue(n);
    assert (['+'] + t)[1..] == t && (['-'] + t)[1..] == t;
  }

  /** And a text in which none stands there is no number. */
  lemma NoNumber(blank: string, rest: string)
    requires AllSpace(blank) && (rest == [] || !(IsSpace(rest[0]) || IsDigit(rest[0]) || rest[0] in {'+', '-'}))
    ensures ParseInt(blank + rest) == None
  {
    BlanksAreSkipped(blank, rest);
  }

  /** Lower case moves the letters A to Z and nothing else, one by one. */
  lemma {:induction false} LowerAt(s: string, i: nat)
    requires i < |s|
    ensures Lower(s)[i] == if 'A' <= s[i] <= 'Z' then (s[i] as int + 32) as char else s[i]
  {
    if i > 0 {
      LowerAt(s[1..], i - 1);
    }
  }
}
