/** Strings as the storage code handles them: ASCII case, splitting, trimming, decimal numbers. */
module Text {
  import opened Wrappers

  function Digit(d: nat): (c: char)
    requires d < 10
  {
    "0123456789"[d]
  }

  predicate IsDigit(c: char) {
    '0' <= c <= '9'
  }

  /** Decimal rendering, most significant digit first, without leading zeros. */
  function Decimal(n: nat): (s: string)
    ensures |s| > 0 && forall c :: c in s ==> IsDigit(c)
  {
    if n < 10 then [Digit(n)] else Decimal(n / 10) + [Digit(n % 10)]
  }

  lemma DigitInjective(a: nat, b: nat)
    requires a < 10 && b < 10 && Digit(a) == Digit(b)
    ensures a == b
  {
    assert "0123456789" == ['0', '1', '2', '3', '4', '5', '6', '7', '8', '9'];
  }

  /** Two numbers with the same rendering are the same number. */
  lemma {:induction false} DecimalInjective(a: nat, b: nat)
    requires Decimal(a) == Decimal(b)
    ensures a == b
  {
    var s, t := Decimal(a), Decimal(b);
    if a < 10 && b < 10 {
      DigitInjective(a, b);
    } else if a >= 10 && b >= 10 {
      assert s[|s| - 1] == Digit(a % 10) && t[|t| - 1] == Digit(b % 10);
      assert s[..|s| - 1] == Decimal(a / 10) && t[..|t| - 1] == Decimal(b / 10);
      DigitInjective(a % 10, b % 10);
      DecimalInjective(a / 10, b / 10);
    }
  }

  function DigitOf(c: char): (d: nat)
    requires IsDigit(c)
    ensures d < 10
  {
    (c - '0') as nat
  }

  lemma DigitsMatch(c: char, d: nat)
    requires d < 10
    ensures c == Digit(d) <==> IsDigit(c) && DigitOf(c) == d
  {
    assert "0123456789" == ['0', '1', '2', '3', '4', '5', '6', '7', '8', '9'];
  }

  /** The number a text renders, if it is a rendering at all: digits only, without leading zeros. */
  function ParseDecimal(s: string): Option<nat> {
    if s == "" || !IsDigit(s[|s| - 1]) then None
    else if |s| == 1 then Some(DigitOf(s[0]))
    else
      match ParseDecimal(s[..|s| - 1])
      case None => None
      case Some(front) => if front == 0 then None else Some(10 * front + DigitOf(s[|s| - 1]))
  }

  lemma OneDigit(s: string, n: nat)
    requires |s| == 1
    ensures s == Decimal(n) <==> IsDigit(s[0]) && DigitOf(s[0]) == n
  {
    if n < 10 {
      assert s == [s[0]] && Decimal(n) == [Digit(n)];
      DigitsMatch(s[0], n);
    } else {
      DecimalParts(n);
    }
  }

  /** A number of more than one digit is the rendering of its tenth and a last digit. */
  lemma DecimalParts(n: nat)
    requires n >= 10
    ensures |Decimal(n)| > 1 && Decimal(n) == Decimal(n / 10) + [Digit(n % 10)]
  {
  }

  lemma ApartLast(front: string, last: char, other: string, end: char)
    ensures front + [last] == other + [end] <==> front == other && last == end
  {
    if front + [last] == other + [end] {
      assert (front + [last])[..|front|] == front && (other + [end])[..|other|] == other;
      assert (front + [last])[|front|] == last && (other + [end])[|other|] == end;
    }
  }

  lemma MoreDigits(s: string, front: string, last: char, n: nat)
    requires front != "" && s == front + [last]
    ensures s == Decimal(n) <==> n >= 10 && front == Decimal(n / 10) && IsDigit(last) && DigitOf(last) == n % 10
  {
    if n < 10 {
      assert |Decimal(n)| == 1;
    } else {
      DecimalParts(n);
      ApartLast(front, last, Decimal(n / 10), Digit(n % 10));
      DigitsMatch(last, n % 10);
    }
  }

  lemma TenfoldAndDigit(m: nat, d: nat, n: nat)
    requires d < 10
    ensures 10 * m + d == n <==> m == n / 10 && d == n % 10
  {
  }

  lemma ParseOfMore(s: string, front: string, last: char)
    requires front != "" && s == front + [last]
    ensures ParseDecimal(s) ==
              if IsDigit(last) && ParseDecimal(front).Some? && ParseDecimal(front).value != 0
              then Some(10 * ParseDecimal(front).value + DigitOf(last)) else None
  {
    assert s[..|s| - 1] == front && s[|s| - 1] == last;
  }

  lemma ParsesMoreExactly(s: string, front: string, last: char, n: nat)
    requires front != "" && s == front + [last]
    ensures ParseDecimal(s) == Some(n) <==>
              n >= 10 && ParseDecimal(front) == Some(n / 10) && IsDigit(last) && DigitOf(last) == n % 10
  {
    ParseOfMore(s, front, last);
    if IsDigit(last) && ParseDecimal(front).Some? {
      TenfoldAndDigit(ParseDecimal(front).value, DigitOf(last), n);
    }
  }

  lemma {:induction false} ParseDecimalExactly(s: string, n: nat)
    ensures ParseDecimal(s) == Some(n) <==> s == Decimal(n)
    decreases |s|
  {
    if s == "" {
      assert Decimal(n) != "";
    } else if |s| == 1 {
      OneDigit(s, n);
    } else {
      var front, last := s[..|s| - 1], s[|s| - 1];
      assert s == front + [last];
      ParseDecimalExactly(front, n / 10);
      MoreDigits(s, front, last, n);
      ParsesMoreExactly(s, front, last, n);
    }
  }

  function UpperChar(c: char): char {
    if 'a' <= c <= 'z' then c - 'a' + 'A' else c
  }

  function LowerChar(c: char): char {
    if 'A' <= c <= 'Z' then c - 'A' + 'a' else c
  }

  /** `str::to_ascii_uppercase` */
  function Upper(s: string): (r: string)
    ensures |r| == |s|
  {
    seq(|s|, i requires 0 <= i < |s| => UpperChar(s[i]))
  }

  /** `str::to_ascii_lowercase` */
  function Lower(s: string): (r: string)
    ensures |r| == |s|
  {
    seq(|s|, i requires 0 <= i < |s| => LowerChar(s[i]))
  }

  predicate EndsWith(s: string, suffix: string) {
    |suffix| <= |s| && s[|s| - |suffix|..] == suffix
  }

  /** `str::split`: always at least one piece, and the pieces are free of the separator. */
  function Split(s: string, sep: char): (pieces: seq<string>)
    ensures |pieces| > 0
    ensures forall piece :: piece in pieces ==> sep !in piece
    ensures sep !in s ==> pieces == [s]
  {
    if s == "" then [""]
    else
      var rest := Split(s[1..], sep);
      assert s == [s[0]] + s[1..];
      if s[0] == sep then [""] + rest else [[s[0]] + rest[0]] + rest[1..]
  }

  /** Characters with the Unicode White_Space property, which `str::trim` removes. */
  predicate IsWhitespace(c: char) {
    || '\U{0009}' <= c <= '\U{000D}' || c == ' ' || c == '\U{0085}' || c == '\U{00A0}'
    || c == '\U{1680}' || '\U{2000}' <= c <= '\U{200A}' || c == '\U{2028}' || c == '\U{2029}'
    || c == '\U{202F}' || c == '\U{205F}' || c == '\U{3000}'
  }

  function TrimStart(s: string): (r: string) {
    if s != "" && IsWhitespace(s[0]) then TrimStart(s[1..]) else s
  }

  function TrimEnd(s: string): (r: string) {
    if s != "" && IsWhitespace(s[|s| - 1]) then TrimEnd(s[..|s| - 1]) else s
  }

  /** `str::trim` */
  function Trim(s: string): (r: string) {
    TrimEnd(TrimStart(s))
  }

  // ----- What these operations mean -----

  /** The same letter in upper and lower case. */
  predicate CaseVariants(c: char, d: char) {
    ('a' <= c <= 'z' && d == c - 'a' + 'A') || ('a' <= d <= 'z' && c == d - 'a' + 'A')
  }

  /** The texts differ in the case of ASCII letters at most. */
  predicate SameButCase(a: string, b: string) {
    |a| == |b| && forall i :: 0 <= i < |a| ==> a[i] == b[i] || CaseVariants(a[i], b[i])
  }

  lemma CaseOfChar(c: char, d: char)
    ensures LowerChar(c) == LowerChar(d) <==> c == d || CaseVariants(c, d)
    ensures UpperChar(c) == UpperChar(d) <==> c == d || CaseVariants(c, d)
  {
  }

  /** Two texts in lower case are the same exactly when the texts differ in case only. */
  lemma LowerExactly(a: string, b: string)
    ensures Lower(a) == Lower(b) <==> SameButCase(a, b)
  {
    forall i | 0 <= i < |a| && |a| == |b|
      ensures Lower(a)[i] == Lower(b)[i] <==> a[i] == b[i] || CaseVariants(a[i], b[i])
    {
      CaseOfChar(a[i], b[i]);
    }
  }

  lemma UpperExactly(a: string, b: string)
    ensures Upper(a) == Upper(b) <==> SameButCase(a, b)
  {
    forall i | 0 <= i < |a| && |a| == |b|
      ensures Upper(a)[i] == Upper(b)[i] <==> a[i] == b[i] || CaseVariants(a[i], b[i])
    {
      CaseOfChar(a[i], b[i]);
    }
  }

  predicate AllWhitespace(s: string) {
    forall c :: c in s ==> IsWhitespace(c)
  }

  lemma {:induction false} TrimStartExactly(s: string) returns (a: string)
    ensures s == a + TrimStart(s) && AllWhitespace(a)
    ensures TrimStart(s) != "" ==> !IsWhitespace(TrimStart(s)[0])
    decreases |s|
  {
    if s != "" && IsWhitespace(s[0]) {
      var b := TrimStartExactly(s[1..]);
      a := [s[0]] + b;
      assert s == [s[0]] + s[1..];
    } else {
      a := "";
    }
  }

  lemma {:induction false} TrimEndExactly(s: string) returns (b: string)
    ensures s == TrimEnd(s) + b && AllWhitespace(b)
    ensures TrimEnd(s) != "" ==> !IsWhitespace(TrimEnd(s)[|TrimEnd(s)| - 1])
    decreases |s|
  {
    if s != "" && IsWhitespace(s[|s| - 1]) {
      var c := TrimEndExactly(s[..|s| - 1]);
      b := c + [s[|s| - 1]];
      assert s == s[..|s| - 1] + [s[|s| - 1]];
    } else {
      b := "";
    }
  }

  /** Trimming takes off whitespace at both ends, and all of it. */
  lemma TrimExactly(s: string) returns (a: string, b: string)
    ensures s == a + Trim(s) + b && AllWhitespace(a) && AllWhitespace(b)
    ensures var t := Trim(s); t != "" ==> !IsWhitespace(t[0]) && !IsWhitespace(t[|t| - 1])
  {
    a := TrimStartExactly(s);
    b := TrimEndExactly(TrimStart(s));
    assert s == a + (Trim(s) + b);
  }

  /** The pieces with the separator between them. */
  function Join(pieces: seq<string>, sep: char): string {
    if pieces == [] then "" else if |pieces| == 1 then pieces[0] else pieces[0] + [sep] + Join(pieces[1..], sep)
  }

  lemma JoinMore(c: char, pieces: seq<string>, sep: char)
    requires pieces != []
    ensures Join([[c] + pieces[0]] + pieces[1..], sep) == [c] + Join(pieces, sep)
  {
    var more := [[c] + pieces[0]] + pieces[1..];
    assert more[1..] == pieces[1..];
    if |pieces| > 1 {
      assert [c] + pieces[0] + [sep] + Join(pieces[1..], sep) == [c] + (pieces[0] + [sep] + Join(pieces[1..], sep));
    }
  }

  /** Splitting loses nothing: the pieces, joined, are the text. */
  lemma {:induction false} SplitJoins(s: string, sep: char)
    ensures Join(Split(s, sep), sep) == s
  {
    if s != "" {
      var rest := Split(s[1..], sep);
      SplitJoins(s[1..], sep);
      assert s == [s[0]] + s[1..];
      if s[0] == sep {
        assert ([""] + rest)[1..] == rest;
        assert "" + [sep] + Join(rest, sep) == [sep] + Join(rest, sep);
      } else {
        JoinMore(s[0], rest, sep);
      }
    }
  }

  lemma {:induction false} SplitFirst(piece: string, tail: string, sep: char)
    requires sep !in piece
    ensures Split(piece + [sep] + tail, sep) == [piece] + Split(tail, sep)
  {
    var s := piece + [sep] + tail;
    if piece == "" {
      assert s == [sep] + tail && s[1..] == tail;
    } else {
      var rest := piece[1..] + [sep] + tail;
      assert s[1..] == rest && s[0] == piece[0];
      SplitFirst(piece[1..], tail, sep);
      assert piece == [piece[0]] + piece[1..];
      assert Split(rest, sep)[1..] == Split(tail, sep);
    }
  }

  /** And splitting is the only way to cut the text at the separator. */
  lemma {:induction false} SplitOfJoin(pieces: seq<string>, sep: char)
    requires pieces != [] && forall piece :: piece in pieces ==> sep !in piece
    ensures Split(Join(pieces, sep), sep) == pieces
  {
    if |pieces| == 1 {
      assert pieces == [pieces[0]];
    } else {
      SplitOfJoin(pieces[1..], sep);
      SplitFirst(pieces[0], Join(pieces[1..], sep), sep);
      assert pieces == [pieces[0]] + pieces[1..];
    }
  }

  /** `str::is_control`: the Unicode category Cc. */
  predicate IsControl(c: char) {
    c <= '\U{001F}' || '\U{007F}' <= c <= '\U{009F}'
  }
}
