/** File names and destination names (storage/file_manager.rs): sanitizing, numbering, part names. */
module Names {
  import opened Wrappers
  import opened Text

  const FALLBACK := "unnamed_file"

  const RESERVED: seq<string> := [
    "CON", "PRN", "AUX", "NUL",
    "COM1", "COM2", "COM3", "COM4", "COM5", "COM6", "COM7", "COM8", "COM9",
    "LPT1", "LPT2", "LPT3", "LPT4", "LPT5", "LPT6", "LPT7", "LPT8", "LPT9"]

  // ----- Sanitizing a single name -----

  /** Characters replaced by an underscore: separators, shell and Windows specials, control
      characters, and invisible or direction-changing Unicode characters. */
  predicate IsForbidden(c: char) {
    || c in {'<', '>', ':', '"', '/', '\\', '|', '?', '*'}
    || IsControl(c)
    || '\U{200B}' <= c <= '\U{200F}' || '\U{202A}' <= c <= '\U{202E}'
    || '\U{2066}' <= c <= '\U{2069}' || c == '\U{FEFF}'
  }

  function Clean(s: string): (r: string)
    ensures |r| == |s|
    ensures forall c :: c in r ==> !IsForbidden(c)
    ensures (forall c :: c in s ==> !IsForbidden(c)) ==> r == s
  {
    seq(|s|, i requires 0 <= i < |s| => if IsForbidden(s[i]) then '_' else s[i])
  }

  function ForwardSlashes(s: string): (r: string)
    ensures |r| == |s|
    ensures '\\' !in s ==> r == s
  {
    seq(|s|, i requires 0 <= i < |s| => if s[i] == '\\' then '/' else s[i])
  }

  predicate IsRealSegment(segment: string) {
    segment != "" && segment != "." && segment != ".."
  }

  /** The last path segment that names something, if any. */
  function LastRealSegment(segments: seq<string>): Option<string> {
    if segments == [] then None
    else if IsRealSegment(segments[|segments| - 1]) then Some(segments[|segments| - 1])
    else LastRealSegment(segments[..|segments| - 1])
  }

  function RawName(name: string): string {
    match LastRealSegment(Split(ForwardSlashes(name), '/'))
    case Some(segment) => segment
    case None => FALLBACK
  }

  predicate IsTail(c: char) {
    c == '.' || c == ' '
  }

  /** Drops trailing dots and spaces. */
  function TrimTail(s: string): (r: string)
    ensures r <= s
    ensures r != "" ==> !IsTail(r[|r| - 1])
    ensures s != "" && !IsTail(s[|s| - 1]) ==> r == s
    decreases |s|
  {
    if s != "" && IsTail(s[|s| - 1]) then TrimTail(s[..|s| - 1]) else s
  }

  predicate IsBlank(s: string) {
    forall c :: c in s ==> c == '.' || c == '_' || c == ' '
  }

  /** The part before the first dot, which is what Windows compares with its device names. */
  function DeviceStem(s: string): (r: string)
    ensures |r| <= |s|
  {
    if s == "" || s[0] == '.' then "" else [s[0]] + DeviceStem(s[1..])
  }

  predicate IsReserved(s: string) {
    Upper(DeviceStem(s)) in RESERVED
  }

  /** The last two steps: a fallback for names without a visible character, and an underscore in
      front of device names. */
  function Protect(trimmed: string): string {
    var named := if IsBlank(trimmed) then FALLBACK else trimmed;
    if IsReserved(named) then "_" + named else named
  }

  /** What `sanitize_filename` returns. */
  function Sanitize(name: string): string {
    Protect(TrimTail(Clean(RawName(name))))
  }

  method SanitizeFilename(name: string) returns (sanitized: string)
    ensures sanitized == Sanitize(name)
    ensures IsSafe(sanitized)
  {
    sanitized := Clean(RawName(name));
    while sanitized != "" && IsTail(sanitized[|sanitized| - 1])
      invariant TrimTail(sanitized) == TrimTail(Clean(RawName(name)))
      decreases |sanitized|
    {
      sanitized := sanitized[..|sanitized| - 1];
    }
    if IsBlank(sanitized) {
      sanitized := FALLBACK;
    }
    if Upper(DeviceStem(sanitized)) in RESERVED {
      sanitized := "_" + sanitized;
    }
    SanitizeIsSafe(name);
  }

  /** A name that is a plain file name on every platform: visible, without separators, special or
      control characters, without a trailing dot or space, and not a Windows device. */
  ghost predicate IsSafe(s: string) {
    && s != ""
    && (forall c :: c in s ==> !IsForbidden(c))
    && !IsTail(s[|s| - 1])
    && !IsBlank(s)
    && !IsReserved(s)
  }

  lemma ReservedNames(s: string)
    requires s in RESERVED
    ensures 3 <= |s| <= 4
    ensures s[0] != '_' && '(' !in s
  {
  }

  /** Every sanitized name is safe, whatever the sender called the file. */
  lemma SanitizeIsSafe(name: string)
    ensures IsSafe(Sanitize(name))
  {
    var cleaned := Clean(RawName(name));
    var trimmed := TrimTail(cleaned);
    assert forall c :: c in trimmed ==> c in cleaned;
    ProtectIsSafe(trimmed);
  }

  lemma ProtectIsSafe(trimmed: string)
    requires forall c :: c in trimmed ==> !IsForbidden(c)
    requires trimmed != "" ==> !IsTail(trimmed[|trimmed| - 1])
    ensures IsSafe(Protect(trimmed))
  {
    FallbackIsSafe();
    var named := if IsBlank(trimmed) then FALLBACK else trimmed;
    if IsReserved(named) {
      UnderscoreProtects(named);
    }
  }

  lemma FallbackIsSafe()
    ensures IsSafe(FALLBACK)
  {
    var s := FALLBACK;
    assert forall i | 0 <= i < |s| :: s[i] == '_' || 'a' <= s[i] <= 'z';
    assert |s| == 12 && s[0] == 'u';
    LongWordIsSafe(s);
  }

  lemma LongWordIsSafe(s: string)
    requires |s| > 4 && s[0] != '_'
    requires forall i | 0 <= i < |s| :: s[i] == '_' || 'a' <= s[i] <= 'z'
    ensures IsSafe(s)
  {
    assert s[0] in s;
    DeviceStemWithoutDot(s);
    LongStemIsNotReserved(s);
  }

  lemma LongStemIsNotReserved(s: string)
    requires |DeviceStem(s)| > 4
    ensures !IsReserved(s)
  {
    if IsReserved(s) {
      ReservedNames(Upper(DeviceStem(s)));
    }
  }

  lemma {:induction false} DeviceStemWithoutDot(s: string)
    requires '.' !in s
    ensures DeviceStem(s) == s
  {
    if s != "" {
      DeviceStemWithoutDot(s[1..]);
      assert s == [s[0]] + s[1..];
    }
  }

  lemma UnderscoreProtects(named: string)
    requires named != "" && !IsBlank(named) && !IsTail(named[|named| - 1])
    requires forall c :: c in named ==> !IsForbidden(c)
    ensures IsSafe("_" + named)
  {
    var s := "_" + named;
    assert s[1..] == named;
    assert DeviceStem(s) == ['_'] + DeviceStem(named);
    assert Upper(DeviceStem(s))[0] == '_';
    if IsReserved(s) {
      ReservedNames(Upper(DeviceStem(s)));
    }
    var c :| c in named && c != '.' && c != '_' && c != ' ';
    assert c in s;
  }

  /** The safe names are exactly the names sanitizing leaves alone; so sanitizing is idempotent. */
  lemma SanitizeFixesExactlySafeNames(s: string)
    ensures Sanitize(s) == s <==> IsSafe(s)
    ensures Sanitize(Sanitize(s)) == Sanitize(s)
  {
    SanitizeIsSafe(s);
    if IsSafe(s) {
      SafeIsFixed(s);
    }
    SafeIsFixed(Sanitize(s));
  }

  lemma SafeIsFixed(s: string)
    requires IsSafe(s)
    ensures Sanitize(s) == s
  {
    assert '\\' !in s && '/' !in s;
    assert ForwardSlashes(s) == s;
    assert Split(s, '/') == [s];
    assert s != "." && s != "..";
    assert RawName(s) == s;
    assert Clean(s) == s;
    assert TrimTail(s) == s;
  }

  /** A safe name is one path component: not empty, not a dot entry, without separators. */
  lemma SafeIsOneComponent(s: string)
    requires IsSafe(s)
    ensures IsRealSegment(s) && '/' !in s && '\\' !in s && ':' !in s
    ensures forall c :: c in s ==> !IsControl(c)
  {
    assert IsBlank(".") && IsBlank("..");
  }

  // ----- Numbered names for collisions -----

  /** Index of the last dot, or -1. */
  function LastDot(s: string): (k: int)
    ensures -1 <= k < |s|
    ensures k >= 0 ==> s[k] == '.' && '.' !in s[k + 1..]
    ensures k == -1 ==> '.' !in s
  {
    if s == "" then -1
    else if s[|s| - 1] == '.' then |s| - 1
    else
      var k := LastDot(s[..|s| - 1]);
      assert s == s[..|s| - 1] + [s[|s| - 1]];
      assert k >= 0 ==> s[k + 1..] == s[..|s| - 1][k + 1..] + [s[|s| - 1]];
      k
  }

  /** Where a name is cut for its number: `Path::file_stem` and `Path::extension` split at the
      last dot unless that is the first character; an empty extension is dropped. */
  function NumberPrefix(name: string): string {
    var k := LastDot(name);
    if k > 0 then name[..k] else name
  }

  function NumberSuffix(name: string): string {
    var k := LastDot(name);
    if k > 0 && k + 1 < |name| then name[k..] else ""
  }

  /** The `n`-th name tried for a file: the plain name, then `stem(n).ext`. */
  function Candidate(name: string, n: nat): string {
    if n == 0 then name
    else NumberPrefix(name) + "(" + Decimal(n) + ")" + NumberSuffix(name)
  }

  lemma CandidateLength(name: string, n: nat)
    requires n > 0
    ensures |Candidate(name, n)| > |name|
  {
  }

  /** The names tried are pairwise distinct. */
  lemma CandidateInjective(name: string, a: nat, b: nat)
    requires Candidate(name, a) == Candidate(name, b)
    ensures a == b
  {
    if a > 0 && b > 0 {
      var before, after := NumberPrefix(name) + "(", ")" + NumberSuffix(name);
      NumberedSplit(name, a);
      NumberedSplit(name, b);
      Unwrap(before, Decimal(a), Decimal(b), after);
      DecimalInjective(a, b);
    } else if a > 0 {
      CandidateLength(name, a);
    } else if b > 0 {
      CandidateLength(name, b);
    }
  }

  /** The positive number between two texts, if there is one. */
  function NumberBetween(before: string, after: string, s: string): Option<nat> {
    if |s| < |before| + |after| || s[..|before|] != before || s[|s| - |after|..] != after then None
    else
      match ParseDecimal(s[|before|..|s| - |after|])
      case Some(n) => if n > 0 then Some(n) else None
      case None => None
  }

  lemma Framed(before: string, x: string, after: string, s: string)
    ensures s == before + x + after
            <==> && |s| >= |before| + |after| && s[..|before|] == before && s[|s| - |after|..] == after
                 && s[|before|..|s| - |after|] == x
  {
    if |s| >= |before| + |after| && s[..|before|] == before && s[|s| - |after|..] == after
       && s[|before|..|s| - |after|] == x {
      assert s == s[..|before|] + s[|before|..|s| - |after|] + s[|s| - |after|..];
    }
    if s == before + x + after {
      assert s[..|before|] == before && s[|s| - |after|..] == after && s[|before|..|s| - |after|] == x;
    }
  }

  lemma NumberBetweenExactly(before: string, after: string, s: string, n: nat)
    ensures NumberBetween(before, after, s) == Some(n) <==> n > 0 && s == before + Decimal(n) + after
  {
    Framed(before, Decimal(n), after, s);
    if |s| >= |before| + |after| {
      ParseDecimalExactly(s[|before|..|s| - |after|], n);
    }
  }

  /** The number under which a file of this name would be tried as `s`, if any: read off the text. */
  function NumberIn(name: string, s: string): Option<nat> {
    if s == name then Some(0) else NumberBetween(NumberPrefix(name) + "(", ")" + NumberSuffix(name), s)
  }

  /** A text is among the names tried exactly when a number can be read off it. */
  lemma NumberInExactly(name: string, s: string, n: nat)
    ensures NumberIn(name, s) == Some(n) <==> s == Candidate(name, n)
  {
    NumberBetweenExactly(NumberPrefix(name) + "(", ")" + NumberSuffix(name), s, n);
    if n > 0 {
      NumberedSplit(name, n);
      CandidateLength(name, n);
    }
  }

  lemma NumberedSplit(name: string, n: nat)
    requires n > 0
    ensures Candidate(name, n) == (NumberPrefix(name) + "(") + Decimal(n) + (")" + NumberSuffix(name))
  {
  }

  lemma Unwrap(before: string, x: string, y: string, after: string)
    ensures before + x + after == before + y + after ==> x == y
  {
    if before + x + after == before + y + after {
      var s, t := before + x + after, before + y + after;
      assert |x| == |y|;
      assert x == s[|before|..|before| + |x|];
      assert y == t[|before|..|before| + |y|];
    }
  }

  lemma HeadApart(a: string, head: char, rest: string, b: string)
    requires a == [head] + rest
    ensures a + b == [head] + (rest + b)
  {
  }

  lemma StemOfMore(s: string, head: char, rest: string)
    requires s == [head] + rest && head != '.'
    ensures DeviceStem(s) == [head] + DeviceStem(rest)
  {
    assert s[1..] == rest;
  }

  /** The stem of a text whose head stays the same: that of the head if it has a dot. */
  lemma {:induction false} DeviceStemOfConcat(a: string, b: string)
    ensures DeviceStem(a + b) == if '.' in a then DeviceStem(a) else a + DeviceStem(b)
    decreases |a|
  {
    if a == "" {
      assert a + b == b;
      assert a + DeviceStem(b) == DeviceStem(b);
    } else {
      var head, rest := a[0], a[1..];
      assert a == [head] + rest;
      HeadApart(a, head, rest, b);
      if head != '.' {
        DeviceStemOfConcat(rest, b);
        StemsGrow(a, head, rest, b, a + b, rest + b);
      }
    }
  }

  lemma StemsGrow(a: string, head: char, rest: string, b: string, s: string, tail: string)
    requires a == [head] + rest && head != '.' && s == [head] + tail
    requires DeviceStem(tail) == if '.' in rest then DeviceStem(rest) else rest + DeviceStem(b)
    ensures DeviceStem(s) == if '.' in a then DeviceStem(a) else a + DeviceStem(b)
  {
    StemOfMore(s, head, tail);
    if '.' in rest {
      StemOfMore(a, head, rest);
    } else {
      HeadApart(a, head, rest, DeviceStem(b));
    }
  }

  /** Numbering keeps a name safe. */
  lemma CandidateIsSafe(name: string, n: nat)
    requires IsSafe(name)
    ensures IsSafe(Candidate(name, n))
  {
    if n > 0 {
      var p, q := NumberPrefix(name), NumberSuffix(name);
      var middle := "(" + Decimal(n) + ")";
      PrefixAndSuffix(name, p, q);
      NumberIsPlain(Decimal(n), middle);
      NumberedInOne(p, "(", Decimal(n), ")", middle, q);
      NumberedIsSafe(name, p, middle, q, Candidate(name, n));
    }
  }

  lemma PrefixAndSuffix(name: string, p: string, q: string)
    requires name != "" && !IsTail(name[|name| - 1])
    requires p == NumberPrefix(name) && q == NumberSuffix(name)
    ensures name == p + q
  {
    var k := LastDot(name);
    if k > 0 {
      assert name == name[..k] + name[k..];
    }
  }

  lemma NumberedInOne(p: string, open: string, digits: string, close: string, middle: string, q: string)
    requires middle == open + digits + close
    ensures p + open + digits + close + q == p + middle + q
  {
    assert p + open + digits + close == p + middle;
  }

  /** A number in parentheses holds no character that a name may not have, and no dot. */
  ghost predicate IsPlain(middle: string) {
    && |middle| > 0 && middle[0] == '(' && middle[|middle| - 1] == ')'
    && forall c :: c in middle ==> !IsForbidden(c) && c != '.'
  }

  lemma NumberIsPlain(digits: string, middle: string)
    requires (forall c :: c in digits ==> IsDigit(c)) && middle == "(" + digits + ")"
    ensures IsPlain(middle)
  {
    forall c | c in middle
      ensures !IsForbidden(c) && c != '.'
    {
      assert c == '(' || c in digits || c == ')';
    }
  }

  lemma NumberedIsSafe(name: string, p: string, middle: string, q: string, s: string)
    requires IsSafe(name) && name == p + q && IsPlain(middle) && s == p + middle + q
    ensures IsSafe(s)
  {
    NumberedIsClean(name, p, middle, q, s);
    NumberedIsVisible(name, p, middle, q, s);
    NumberedIsNotReserved(name, p, middle, q, s);
  }

  lemma NumberedIsVisible(name: string, p: string, middle: string, q: string, s: string)
    requires IsPlain(middle) && name == p + q && s == p + middle + q && name != "" && !IsTail(name[|name| - 1])
    ensures s != "" && !IsTail(s[|s| - 1]) && !IsBlank(s)
  {
    assert s[|p|] == '(' && '(' in s;
    if q == "" {
      assert s[|s| - 1] == ')';
    } else {
      assert s[|s| - 1] == q[|q| - 1] == name[|name| - 1];
    }
  }

  lemma NumberedIsClean(name: string, p: string, middle: string, q: string, s: string)
    requires name == p + q && s == p + middle + q
    requires forall c :: c in name ==> !IsForbidden(c)
    requires forall c :: c in middle ==> !IsForbidden(c)
    ensures forall c :: c in s ==> !IsForbidden(c)
  {
    forall c | c in s
      ensures !IsForbidden(c)
    {
      assert c in p || c in middle || c in q;
      assert c in p || c in q ==> c in name;
    }
  }

  lemma NumberedIsNotReserved(name: string, p: string, middle: string, q: string, s: string)
    requires IsPlain(middle) && name == p + q && s == p + middle + q && !IsReserved(name)
    ensures !IsReserved(s)
  {
    Regrouped(p, middle, q);
    if '.' in p {
      DeviceStemOfConcat(p, middle + q);
      DeviceStemOfConcat(p, q);
    } else {
      StemHasParenthesis(p, middle, q, middle + q, s);
      ParenthesisProtects(s);
    }
  }

  lemma Regrouped(a: string, b: string, c: string)
    ensures a + b + c == a + (b + c)
  {
  }

  lemma StemOfPlain(middle: string, q: string)
    requires IsPlain(middle)
    ensures DeviceStem(middle + q) == middle + DeviceStem(q)
  {
    DeviceStemOfConcat(middle, q);
  }

  lemma StemHasParenthesis(p: string, middle: string, q: string, rest: string, s: string)
    requires '.' !in p && IsPlain(middle) && rest == middle + q && s == p + rest
    ensures '(' in DeviceStem(s)
  {
    StemOfPlain(middle, q);
    DeviceStemOfConcat(p, rest);
    ParenthesisInside(p, middle, DeviceStem(q), DeviceStem(s));
  }

  lemma ParenthesisInside(p: string, middle: string, tail: string, stem: string)
    requires middle != "" && middle[0] == '(' && stem == p + (middle + tail)
    ensures '(' in stem
  {
    assert stem[|p|] == '(';
  }

  lemma ParenthesisProtects(s: string)
    requires '(' in DeviceStem(s)
    ensures !IsReserved(s)
  {
    var stem := DeviceStem(s);
    var i :| 0 <= i < |stem| && stem[i] == '(';
    assert Upper(stem)[i] == '(';
    if Upper(stem) in RESERVED {
      ReservedNames(Upper(stem));
    }
  }

  // ----- Destination paths below the download folder -----

  /** A path below the download folder, one component at a time. */
  type Path = seq<string>

  /** A segment like `C:`, two bytes long. */
  predicate IsDrive(segment: string) {
    |segment| == 2 && segment[0] < '\U{0080}' && segment[1] == ':'
  }

  /** The path component kept for one segment of a relative path, if any. */
  function KeptComponent(segment: string): Option<string> {
    var trimmed := Trim(segment);
    if !IsRealSegment(trimmed) || IsDrive(trimmed) then None
    else
      var s := Sanitize(trimmed);
      if s != "" && s != FALLBACK then Some(s) else None
  }

  function KeptComponents(segments: seq<string>): (r: Path)
    ensures forall c :: c in r ==> IsSafe(c)
  {
    if segments == [] then []
    else
      var rest := KeptComponents(segments[..|segments| - 1]);
      match KeptComponent(segments[|segments| - 1])
      case None => rest
      case Some(c) => SanitizeIsSafe(Trim(segments[|segments| - 1])); rest + [c]
  }

  function SanitizeRelative(raw: string): Option<Path> {
    var kept := KeptComponents(Split(ForwardSlashes(raw), '/'));
    if kept == [] then None else Some(kept)
  }

  method SanitizeRelativePath(raw: string) returns (r: Option<Path>)
    ensures r == SanitizeRelative(raw)
    ensures r.Some? ==> r.value != [] && forall c :: c in r.value ==> IsSafe(c)
  {
    var segments := Split(ForwardSlashes(raw), '/');
    var path: Path := [];
    for i := 0 to |segments|
      invariant path == KeptComponents(segments[..i])
    {
      assert segments[..i + 1][..i] == segments[..i];
      var trimmed := Trim(segments[i]);
      if !IsRealSegment(trimmed) || IsDrive(trimmed) {
        continue;
      }
      var s := SanitizeFilename(trimmed);
      if s != "" && s != FALLBACK {
        path := path + [s];
      }
    }
    assert segments[..|segments|] == segments;
    r := if path == [] then None else Some(path);
  }

  /** Where a file is to be saved: its folder below the download folder, and its plain name. */
  datatype Target = Target(folder: Path, name: string)

  /** The folder and name `resolve_destination_path` settles on before looking for a free name. */
  function ResolveTarget(fileName: string, relative: Option<string>): (t: Target)
    ensures IsSafe(t.name) && forall c :: c in t.folder ==> IsSafe(c)
    ensures relative.Some? && SanitizeRelative(relative.value).Some? ==>
              t.folder + [t.name] == SanitizeRelative(relative.value).value
  {
    SanitizeIsSafe(fileName);
    match relative
    case None => Target([], Sanitize(fileName))
    case Some(raw) =>
      match SanitizeRelative(raw)
      case None => Target([], Sanitize(fileName))
      case Some(kept) => LastComponentTarget(kept)
  }

  /** The last component is sanitized once more, which changes nothing. */
  function LastComponentTarget(kept: Path): (t: Target)
    requires kept != [] && forall c :: c in kept ==> IsSafe(c)
    ensures IsSafe(t.name) && forall c :: c in t.folder ==> IsSafe(c)
    ensures t.folder + [t.name] == kept
  {
    LastStays(kept);
    Target(kept[..|kept| - 1], Sanitize(kept[|kept| - 1]))
  }

  lemma LastStays(kept: Path)
    requires kept != [] && IsSafe(kept[|kept| - 1])
    ensures kept[..|kept| - 1] + [Sanitize(kept[|kept| - 1])] == kept
    ensures Sanitize(kept[|kept| - 1]) == kept[|kept| - 1]
  {
    SafeIsFixed(kept[|kept| - 1]);
    LastApart(kept);
  }

  function DestPath(t: Target, n: nat): Path {
    t.folder + [Candidate(t.name, n)]
  }

  /** Every destination, numbered or not, lies strictly below the download folder and is made of
      safe components only. */
  lemma DestinationsStayBelow(fileName: string, relative: Option<string>, n: nat)
    ensures var dest := DestPath(ResolveTarget(fileName, relative), n);
            && |dest| > 0
            && (forall c :: c in dest ==> IsSafe(c) && IsRealSegment(c) && '/' !in c && '\\' !in c)
  {
    var t := ResolveTarget(fileName, relative);
    CandidateIsSafe(t.name, n);
    var dest := DestPath(t, n);
    forall c | c in dest
      ensures IsSafe(c) && IsRealSegment(c) && '/' !in c && '\\' !in c
    {
      SafeIsOneComponent(c);
    }
  }

  lemma DestPathInjective(t: Target, a: nat, b: nat)
    requires DestPath(t, a) == DestPath(t, b)
    ensures a == b
  {
    assert DestPath(t, a)[|t.folder|] == Candidate(t.name, a);
    assert DestPath(t, b)[|t.folder|] == Candidate(t.name, b);
    CandidateInjective(t.name, a, b);
  }

  // ----- Part files -----

  const PART_SUFFIX := ".part"

  /** The name of the partial file, built from the sanitized name and the file key. */
  function PartName(name: string, key: string): string {
    Sanitize(name) + "." + key + PART_SUFFIX
  }

  function PartPath(name: string, key: string): Path {
    [PartName(name, key)]
  }

  /** With keys of one length, a part file belongs to one sanitized name and one key. */
  lemma PartPathInjective(name1: string, key1: string, name2: string, key2: string)
    requires |key1| == |key2|
    ensures PartPath(name1, key1) == PartPath(name2, key2) <==> Sanitize(name1) == Sanitize(name2) && key1 == key2
  {
    if PartPath(name1, key1) == PartPath(name2, key2) {
      assert PartName(name1, key1) == PartPath(name1, key1)[0] && PartName(name2, key2) == PartPath(name2, key2)[0];
      JoinedApart(Sanitize(name1), key1, Sanitize(name2), key2, PART_SUFFIX);
    }
  }

  lemma JoinedApart(a: string, key1: string, b: string, key2: string, suffix: string)
    requires |key1| == |key2| && a + "." + key1 + suffix == b + "." + key2 + suffix
    ensures a == b && key1 == key2
  {
    var s, t := a + "." + key1 + suffix, b + "." + key2 + suffix;
    assert |a| == |b|;
    assert a == s[..|a|] && b == t[..|b|];
    assert key1 == s[|a| + 1..|a| + 1 + |key1|];
    assert key2 == t[|b| + 1..|b| + 1 + |key2|];
  }

  /** True when a name tried for the target, or the top folder made for it, could be a part file's
      name: what goes directly into the download folder is named like a part file. */
  predicate MayClashWithParts(t: Target) {
    EndsWith(if t.folder == [] then t.name else t.folder[0], PART_SUFFIX)
  }

  lemma PartNameEnds(name: string, key: string)
    ensures EndsWith(PartName(name, key), PART_SUFFIX)
  {
    var s := PartName(name, key);
    assert s[|s| - 5..] == PART_SUFFIX;
  }

  /** Such targets aside, no name tried for a file and no folder made for it is ever the path of a
      part file. */
  lemma DestinationIsNotAPart(t: Target, n: nat, name: string, key: string)
    requires !MayClashWithParts(t)
    ensures DestPath(t, n) != PartPath(name, key)
    ensures !(PartPath(name, key) <= t.folder)
  {
    PartNameEnds(name, key);
    assert PartPath(name, key)[0] == PartName(name, key);
    if DestPath(t, n) == PartPath(name, key) {
      assert |t.folder| == 0;
      assert DestPath(t, n)[0] == Candidate(t.name, n);
      NumberingKeepsPartSuffix(t.name, n);
    }
  }

  lemma NumberingKeepsPartSuffix(name: string, n: nat)
    requires EndsWith(Candidate(name, n), PART_SUFFIX)
    ensures EndsWith(name, PART_SUFFIX)
  {
    if n > 0 {
      var s, q, k := Candidate(name, n), NumberSuffix(name), LastDot(name);
      PartSuffixDot(s);
      if q == "" {
        UnsuffixedEnding(name, n);
        assert false;
      }
      assert q == name[k..] && s[|s| - |q|..] == q;
      assert q[1..] == name[k + 1..];
      assert s[|s| - |q| + 1..] == q[1..];
      SameLastDot(s, |s| - |q|, |s| - 5);
    }
  }

  lemma PartSuffixDot(s: string)
    requires EndsWith(s, PART_SUFFIX)
    ensures s[|s| - 5] == '.' && '.' !in s[|s| - 4..] && s[|s| - 1] == 't'
  {
    var tail := s[|s| - 5..];
    assert tail == ['.', 'p', 'a', 'r', 't'];
    assert s[|s| - 5] == tail[0] && s[|s| - 1] == tail[4];
    assert s[|s| - 4..] == tail[1..] == ['p', 'a', 'r', 't'];
  }

  lemma SameLastDot(s: string, i: nat, j: nat)
    requires i < |s| && j < |s| && s[i] == '.' && s[j] == '.'
    requires '.' !in s[i + 1..] && '.' !in s[j + 1..]
    ensures i == j
  {
    forall m | i < m < |s|
      ensures s[m] != '.'
    {
      assert s[m] == s[i + 1..][m - i - 1];
    }
    forall m | j < m < |s|
      ensures s[m] != '.'
    {
      assert s[m] == s[j + 1..][m - j - 1];
    }
  }

  lemma UnsuffixedEnding(name: string, n: nat)
    requires n > 0 && NumberSuffix(name) == ""
    ensures Candidate(name, n)[|Candidate(name, n)| - 1] == ')'
  {
  }

  lemma StemOfPart(base: string, rest: string)
    requires !IsReserved(base) && rest != "" && rest[0] == '.'
    ensures !IsReserved(base + rest)
  {
    DeviceStemOfConcat(base, rest);
    DeviceStemOfConcat(base, "");
    assert base + "" == base;
  }

  lemma PartNameIsVisible(base: string, rest: string)
    requires !IsBlank(base)
    ensures !IsBlank(base + rest)
  {
    var c :| c in base && c != '.' && c != '_' && c != ' ';
    assert c in base + rest;
  }

  lemma SuffixIsClean()
    ensures forall c :: c in PART_SUFFIX ==> !IsForbidden(c)
  {
  }

  lemma PartNameIsSafe(base: string, key: string)
    requires IsSafe(base) && forall c :: c in key ==> !IsForbidden(c)
    ensures IsSafe(base + "." + key + PART_SUFFIX) && EndsWith(base + "." + key + PART_SUFFIX, PART_SUFFIX)
  {
    var rest := "." + key + PART_SUFFIX;
    var s := base + "." + key + PART_SUFFIX;
    assert s == base + rest;
    assert s[|s| - 5..] == PART_SUFFIX;
    PartSuffixDot(s);
    StemOfPart(base, rest);
    PartNameIsVisible(base, rest);
    SuffixIsClean();
  }

  /** The name of a part file is one safe component exactly when its key has no character that a file name
      may not have: the key is not sanitized. */
  lemma PartNameIsSafeExactly(name: string, key: string)
    ensures IsSafe(PartName(name, key)) <==> forall c :: c in key ==> !IsForbidden(c)
  {
    SanitizeIsSafe(name);
    if forall c :: c in key ==> !IsForbidden(c) {
      PartNameIsSafe(Sanitize(name), key);
    } else {
      var c :| c in key && IsForbidden(c);
      assert c in PartName(name, key);
    }
  }

  lemma SafeNameIsItsTarget(s: string)
    requires IsSafe(s)
    ensures ResolveTarget(s, None) == Target([], s) && DestPath(Target([], s), 0) == [s]
  {
    SafeIsFixed(s);
    assert [] + [s] == [s];
  }

  /** The path is one that a file of this target may be tried at, read off the path. */
  predicate Meets(t: Target, p: Path) {
    p != [] && p[..|p| - 1] == t.folder && NumberIn(t.name, p[|p| - 1]).Some?
  }

  /** A target meets a path exactly when some number leads there. */
  lemma MeetsExactly(t: Target, p: Path)
    ensures Meets(t, p) <==> exists n :: DestPath(t, n) == p
  {
    if Meets(t, p) {
      var n := NumberIn(t.name, p[|p| - 1]).value;
      NumberInExactly(t.name, p[|p| - 1], n);
      assert DestPath(t, n) == p;
    }
    forall n | DestPath(t, n) == p
      ensures Meets(t, p)
    {
      assert p[|p| - 1] == Candidate(t.name, n) && p[..|p| - 1] == t.folder;
      NumberInExactly(t.name, p[|p| - 1], n);
    }
  }

  /** A target meets the part file of a file and key exactly when it has no folder and the part's name is its
      own, or its own with a number. */
  lemma MeetsPartExactly(t: Target, name: string, key: string)
    ensures (exists n :: DestPath(t, n) == PartPath(name, key))
            <==> t.folder == [] && NumberIn(t.name, PartName(name, key)).Some?
  {
    MeetsExactly(t, PartPath(name, key));
    assert PartPath(name, key)[..0] == [];
  }

  /** The clash is real: a file sent under the name of another file's partial file is to be saved
      at exactly that path. */
  lemma PartNameCanBeADestination(name: string, key: string)
    requires forall c :: c in key ==> !IsForbidden(c)
    ensures DestPath(ResolveTarget(PartName(name, key), None), 0) == PartPath(name, key)
    ensures MayClashWithParts(ResolveTarget(PartName(name, key), None))
  {
    SanitizeIsSafe(name);
    PartNameIsSafe(Sanitize(name), key);
    SafeNameIsItsTarget(PartName(name, key));
  }
}
