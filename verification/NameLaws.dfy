/** What sanitizing, numbering and relative paths mean, read off the texts (storage/file_manager.rs 56-221). */
module NameLaws {
  import opened Wrappers
  import opened Text
  import opened Names

  // ----- One name -----

  /** The text with backslashes read as slashes. */
  ghost predicate IsSlashed(raw: string, s: string) {
    |s| == |raw| && forall i :: 0 <= i < |s| ==> s[i] == if raw[i] == '\\' then '/' else raw[i]
  }

  /** The segments of a text: what lies between its slashes and backslashes. */
  ghost predicate AreSegments(raw: string, segments: seq<string>) {
    && segments != [] && IsSlashed(raw, Join(segments, '/'))
    && forall segment :: segment in segments ==> '/' !in segment
  }

  function SegmentsOf(raw: string): seq<string> {
    Split(ForwardSlashes(raw), '/')
  }

  /** The segments are given by the text, and there is no other way to cut it. */
  lemma SegmentsExactly(raw: string, segments: seq<string>)
    ensures AreSegments(raw, segments) <==> segments == SegmentsOf(raw)
  {
    SplitJoins(ForwardSlashes(raw), '/');
    assert IsSlashed(raw, ForwardSlashes(raw));
    if AreSegments(raw, segments) {
      var s := Join(segments, '/');
      assert s == ForwardSlashes(raw) by {
        assert forall i :: 0 <= i < |s| ==> s[i] == ForwardSlashes(raw)[i];
      }
      SplitOfJoin(segments, '/');
    }
  }

  ghost predicate IsUnreal(segment: string) {
    segment in {"", ".", ".."}
  }

  lemma {:induction false} LastRealExactly(segments: seq<string>) returns (k: int)
    ensures -1 <= k < |segments| && forall j :: k < j < |segments| ==> IsUnreal(segments[j])
    ensures k >= 0 ==> !IsUnreal(segments[k]) && LastRealSegment(segments) == Some(segments[k])
    ensures k == -1 ==> LastRealSegment(segments) == None
  {
    if segments == [] {
      k := -1;
    } else if IsRealSegment(segments[|segments| - 1]) {
      k := |segments| - 1;
    } else {
      var front := segments[..|segments| - 1];
      k := LastRealExactly(front);
      forall j | k < j < |segments|
        ensures IsUnreal(segments[j])
      {
        assert j < |front| ==> front[j] == segments[j];
      }
    }
  }

  /** The name is the last segment that names something. */
  lemma RawNameExactly(name: string, segments: seq<string>) returns (k: int)
    requires AreSegments(name, segments)
    ensures -1 <= k < |segments| && forall j :: k < j < |segments| ==> IsUnreal(segments[j])
    ensures k >= 0 ==> !IsUnreal(segments[k]) && RawName(name) == segments[k]
    ensures k == -1 ==> RawName(name) == FALLBACK
  {
    SegmentsExactly(name, segments);
    k := LastRealExactly(segments);
  }

  ghost predicate IsDots(c: char) {
    c == '.' || c == ' '
  }

  lemma {:induction false} TrimTailExactly(s: string)
    ensures |TrimTail(s)| <= |s| && TrimTail(s) == s[..|TrimTail(s)|]
    ensures forall i :: |TrimTail(s)| <= i < |s| ==> IsDots(s[i])
    ensures TrimTail(s) != "" ==> !IsDots(s[|TrimTail(s)| - 1])
    decreases |s|
  {
    if s != "" && IsTail(s[|s| - 1]) {
      var front := s[..|s| - 1];
      TrimTailExactly(front);
      forall i | |TrimTail(s)| <= i < |s|
        ensures IsDots(s[i])
      {
        assert i < |front| ==> front[i] == s[i];
      }
    }
  }

  /** The first n characters with underscores in the place of forbidden ones. */
  ghost predicate IsCleaned(s: string, t: string) {
    |t| <= |s| && forall i :: 0 <= i < |t| ==> t[i] == if IsForbidden(s[i]) then '_' else s[i]
  }

  /** No character a reader would see. */
  ghost predicate IsInvisible(t: string) {
    forall i :: 0 <= i < |t| ==> t[i] in {'.', '_', ' '}
  }

  lemma BlankIsInvisible(t: string)
    ensures IsBlank(t) <==> IsInvisible(t)
  {
    if IsBlank(t) {
      assert forall i :: 0 <= i < |t| ==> t[i] in t;
    }
  }

  lemma CleanAndTrim(segment: string, cleaned: string, t: string)
    requires cleaned == Clean(segment) && t == TrimTail(cleaned)
    ensures IsCleaned(segment, t) && (forall i :: |t| <= i < |segment| ==> IsDots(segment[i]))
    ensures t != "" ==> !IsDots(segment[|t| - 1])
  {
    TrimTailExactly(cleaned);
    forall i | |t| <= i < |segment|
      ensures IsDots(segment[i])
    {
      assert IsDots(cleaned[i]);
    }
    if t != "" {
      assert !IsDots(cleaned[|t| - 1]);
    }
  }

  lemma ProtectExactly(t: string)
    ensures Protect(t) == if IsInvisible(t) then "unnamed_file" else if IsReserved(t) then "_" + t else t
  {
    FallbackIsSafe();
    BlankIsInvisible(t);
  }

  /** A segment is cleaned and loses its trailing dots and spaces; then a blank name is replaced, and a device
      name gets an underscore in front. */
  lemma SanitizeExactly(name: string, segment: string) returns (t: string)
    requires RawName(name) == segment
    ensures IsCleaned(segment, t) && (forall i :: |t| <= i < |segment| ==> IsDots(segment[i]))
    ensures t != "" ==> !IsDots(segment[|t| - 1])
    ensures Sanitize(name) == if IsInvisible(t) then "unnamed_file" else if IsReserved(t) then "_" + t else t
  {
    t := TrimTail(Clean(segment));
    CleanAndTrim(segment, Clean(segment), t);
    ProtectExactly(t);
  }

  /** The characters a file name may not have on some platform, and those that hide or turn text around. */
  lemma SafeHasNoSpecials(s: string, c: char)
    requires IsSafe(s) && c in s
    ensures c !in "<>:\"/\\|?*" && '\U{001F}' < c && !('\U{007F}' <= c <= '\U{009F}')
    ensures !('\U{200B}' <= c <= '\U{200F}') && !('\U{202A}' <= c <= '\U{202E}') && !('\U{2066}' <= c <= '\U{2069}')
            && c != '\U{FEFF}'
  {
  }

  /** The device names, with the digits 1 to 9 behind COM and LPT. */
  ghost predicate IsDevice(w: string) {
    || w in {"CON", "PRN", "AUX", "NUL"}
    || (|w| == 4 && ((w[0], w[1], w[2]) == ('C', 'O', 'M') || (w[0], w[1], w[2]) == ('L', 'P', 'T')) && '1' <= w[3] <= '9')
  }

  lemma DigitOfDevice(w: string)
    requires |w| == 4 && IsDevice(w)
    ensures w in RESERVED
  {
    var k := (w[3] - '1') as nat;
    assert k in {0, 1, 2, 3, 4, 5, 6, 7, 8};
    assert w == RESERVED[(if w[0] == 'C' then 4 else 13) + k];
  }

  lemma DevicesAreReserved(w: string)
    ensures IsDevice(w) <==> w in RESERVED
  {
    if |w| == 4 && IsDevice(w) {
      DigitOfDevice(w);
    }
  }

  /** A name is reserved exactly when what lies before its first dot is a device name in some case. */
  lemma ReservedExactly(s: string, stem: string, rest: string)
    requires s == stem + rest && '.' !in stem && (rest != "" ==> rest[0] == '.')
    ensures IsReserved(s) <==> exists w :: IsDevice(w) && SameButCase(stem, w)
  {
    DeviceStemOfConcat(stem, rest);
    assert DeviceStem(rest) == "" && stem + "" == stem;
    if IsReserved(s) {
      var w := Upper(stem);
      DevicesAreReserved(w);
      UpperIsIdempotent(stem);
      UpperExactly(stem, w);
    }
    forall w | IsDevice(w) && SameButCase(stem, w)
      ensures IsReserved(s)
    {
      UpperExactly(stem, w);
      DevicesAreReserved(w);
      DevicesAreUpper(w);
    }
  }

  lemma UpperIsIdempotent(s: string)
    ensures Upper(Upper(s)) == Upper(s)
  {
  }

  lemma DevicesAreUpper(w: string)
    requires IsDevice(w)
    ensures Upper(w) == w
  {
    assert forall i :: 0 <= i < |w| ==> !('a' <= w[i] <= 'z');
  }

  // ----- Numbers -----

  lemma NoDotBehind(s: string, k: nat, i: nat)
    requires k < i < |s| && '.' !in s[k + 1..]
    ensures s[i] != '.'
  {
    assert s[i] == s[k + 1..][i - k - 1];
  }

  lemma LastDotExactly(s: string, stem: string, ext: string)
    requires s == stem + "." + ext && '.' !in ext
    ensures LastDot(s) == |stem|
  {
    var k := LastDot(s);
    assert s[|stem|] == '.' && s[|stem| + 1..] == ext;
    forall i: nat | k < i < |s|
      ensures s[i] != '.'
    {
      if k >= 0 {
        NoDotBehind(s, k, i);
      }
    }
    forall i: nat | |stem| < i < |s|
      ensures s[i] != '.'
    {
      NoDotBehind(s, |stem|, i);
    }
  }

  /** The number goes between the name and its extension. */
  lemma NumberGoesBeforeExtension(stem: string, ext: string, name: string, n: nat)
    requires n > 0 && stem != "" && ext != "" && '.' !in ext && name == stem + "." + ext
    ensures Candidate(name, 0) == name && Candidate(name, n) == stem + "(" + Decimal(n) + ")." + ext
  {
    LastDotExactly(name, stem, ext);
    assert name[..|stem|] == stem && name[|stem|..] == "." + ext;
    assert stem + "(" + Decimal(n) + ")" + ("." + ext) == stem + "(" + Decimal(n) + ")." + ext;
  }

  /** A name without an extension gets it at the end. */
  lemma NumberGoesToTheEnd(name: string, n: nat)
    requires n > 0 && (name == "" || '.' !in name[1..])
    ensures Candidate(name, 0) == name && Candidate(name, n) == name + "(" + Decimal(n) + ")"
  {
    forall i: nat | 0 < i < |name|
      ensures name[i] != '.'
    {
      NoDotBehind(name, 0, i);
    }
    assert name + "(" + Decimal(n) + ")" + "" == name + "(" + Decimal(n) + ")";
  }

  // ----- Relative paths -----

  /** A segment that is skipped: blank, a dot entry, a drive, or nothing a reader would see. */
  ghost predicate IsSkipped(segment: string) {
    var t := Trim(segment);
    t in {"", ".", ".."} || (|t| == 2 && t[0] < '\U{0080}' && t[1] == ':') || Sanitize(t) == FALLBACK
  }

  lemma KeptExactly(segment: string)
    ensures KeptComponent(segment) == if IsSkipped(segment) then None else Some(Sanitize(Trim(segment)))
  {
    SanitizeIsSafe(Trim(segment));
  }

  /** These positions go up. */
  ghost predicate Ascends(positions: seq<nat>) {
    forall i, j :: 0 <= i < j < |positions| ==> positions[i] < positions[j]
  }

  /** The path is made of the segments at these positions, trimmed and sanitized, and all others are skipped. */
  ghost predicate Selects(segments: seq<string>, positions: seq<nat>, path: Path) {
    && Ascends(positions) && |path| == |positions|
    && (forall i :: 0 <= i < |positions| ==>
          positions[i] < |segments| && !IsSkipped(segments[positions[i]])
          && path[i] == Sanitize(Trim(segments[positions[i]])))
    && forall k: nat :: k < |segments| && k !in positions ==> IsSkipped(segments[k])
  }

  lemma SelectsOneMore(segments: seq<string>, front: seq<string>, last: string, positions: seq<nat>, path: Path)
    requires segments == front + [last] && Selects(front, positions, path)
    ensures IsSkipped(last) ==> Selects(segments, positions, path)
    ensures !IsSkipped(last) ==> Selects(segments, positions + [|front|], path + [Sanitize(Trim(last))])
  {
    var n := |front|;
    forall k: nat | k < |segments| && k !in positions && k != n
      ensures IsSkipped(segments[k])
    {
      assert segments[k] == front[k];
    }
    assert n !in positions;
    assert forall k :: k in positions + [n] <==> k in positions || k == n;
  }

  lemma KeptOneMore(segments: seq<string>, front: seq<string>, last: string)
    requires segments == front + [last]
    ensures KeptComponents(segments)
            == if IsSkipped(last) then KeptComponents(front) else KeptComponents(front) + [Sanitize(Trim(last))]
  {
    assert segments[..|segments| - 1] == front && segments[|segments| - 1] == last;
    KeptExactly(last);
  }

  lemma {:induction false} KeptAreSelected(segments: seq<string>) returns (positions: seq<nat>)
    ensures Selects(segments, positions, KeptComponents(segments))
    decreases |segments|
  {
    if segments == [] {
      positions := [];
    } else {
      var front, last := segments[..|segments| - 1], segments[|segments| - 1];
      LastApart(segments);
      positions := KeptAreSelected(front);
      SelectsOneMore(segments, front, last, positions, KeptComponents(front));
      KeptOneMore(segments, front, last);
      if !IsSkipped(last) {
        positions := positions + [|front|];
      }
    }
  }

  /** A relative path keeps the segments that are not skipped, trimmed and sanitized, in their order. */
  lemma SanitizeRelativeExactly(raw: string, segments: seq<string>) returns (positions: seq<nat>, path: Path)
    requires AreSegments(raw, segments)
    ensures Selects(segments, positions, path)
    ensures SanitizeRelative(raw) == if path == [] then None else Some(path)
  {
    SegmentsExactly(raw, segments);
    path := KeptComponents(segments);
    positions := KeptAreSelected(segments);
  }

  /** A component that is left as it is: safe, trimmed, and not the fallback. */
  ghost predicate IsPlainComponent(c: string) {
    IsSafe(c) && Trim(c) == c && c != FALLBACK
  }

  lemma PlainIsKept(c: string)
    requires IsPlainComponent(c)
    ensures KeptComponent(c) == Some(c) && '/' !in c && '\\' !in c
  {
    SafeIsFixed(c);
    SafeIsOneComponent(c);
  }

  lemma OneMoreKept(p: Path, front: Path, last: string)
    requires p == front + [last] && KeptComponents(front) == front && KeptComponent(last) == Some(last)
    ensures KeptComponents(p) == p
  {
    assert p[..|p| - 1] == front && p[|p| - 1] == last;
  }

  ghost predicate IsKept(c: string) {
    KeptComponent(c) == Some(c)
  }

  ghost predicate AllKept(p: Path) {
    p != [] ==> IsKept(p[|p| - 1]) && AllKept(p[..|p| - 1])
  }

  lemma {:induction false} PlainAreKept(p: Path)
    requires AllKept(p)
    ensures KeptComponents(p) == p
    decreases |p|
  {
    if p != [] {
      var front, last := p[..|p| - 1], p[|p| - 1];
      PlainAreKept(front);
      LastApart(p);
      OneMoreKept(p, front, last);
    }
  }

  lemma {:induction false} AllPlainKept(p: Path)
    requires forall c :: c in p ==> IsPlainComponent(c)
    ensures AllKept(p)
    decreases |p|
  {
    if p != [] {
      PlainIsKept(p[|p| - 1]);
      AllPlainKept(p[..|p| - 1]);
    }
  }

  lemma {:induction false} JoinHasNo(p: Path, c: char)
    requires c != '/' && forall piece :: piece in p ==> c !in piece
    ensures c !in Join(p, '/')
    decreases |p|
  {
    if |p| > 1 {
      JoinHasNo(p[1..], c);
    }
  }

  /** A path of plain components comes back from its text unchanged. */
  lemma RelativePathRoundTrip(p: Path)
    requires p != [] && forall c :: c in p ==> IsPlainComponent(c)
    ensures SanitizeRelative(Join(p, '/')) == Some(p)
  {
    forall c | c in p
      ensures '/' !in c && '\\' !in c
    {
      PlainIsKept(c);
    }
    JoinHasNo(p, '\\');
    SplitOfJoin(p, '/');
    AllPlainKept(p);
    PlainAreKept(p);
  }

  lemma TargetOfRelative(fileName: string, raw: string, p: Path)
    requires p != [] && SanitizeRelative(raw) == Some(p)
    ensures ResolveTarget(fileName, Some(raw)) == Target(p[..|p| - 1], p[|p| - 1])
  {
    var t := ResolveTarget(fileName, Some(raw));
    assert (t.folder + [t.name])[..|t.folder|] == t.folder && (t.folder + [t.name])[|t.folder|] == t.name;
  }

  ghost predicate IsPlainPath(p: Path) {
    p != [] && forall c :: c in p ==> IsPlainComponent(c)
  }

  lemma PlainPathIsRead(p: Path, raw: string)
    requires IsPlainPath(p) && raw == Join(p, '/')
    ensures SanitizeRelative(raw) == Some(p)
  {
    RelativePathRoundTrip(p);
  }

  /** And a file sent under it is to be saved there. */
  lemma TargetExactly(fileName: string, p: Path, raw: string, t: Target)
    requires IsPlainPath(p) && raw == Join(p, '/') && t == ResolveTarget(fileName, Some(raw))
    ensures t.folder == p[..|p| - 1] && t.name == p[|p| - 1]
  {
    PlainPathIsRead(p, raw);
    TargetOfRelative(fileName, raw, p);
  }

  lemma SomeSelected(segments: seq<string>, positions: seq<nat>, path: Path)
    requires Selects(segments, positions, path) && path != []
    ensures exists s :: s in segments && !IsSkipped(s)
  {
    assert segments[positions[0]] in segments;
  }

  /** Without a relative path, or with one of which nothing is kept, a file is to be saved under its own name. */
  lemma TargetWithoutFolder(fileName: string, raw: string, segments: seq<string>)
    requires AreSegments(raw, segments) && forall s :: s in segments ==> IsSkipped(s)
    ensures ResolveTarget(fileName, Some(raw)) == ResolveTarget(fileName, None) == Target([], Sanitize(fileName))
  {
    var positions, path := SanitizeRelativeExactly(raw, segments);
    if path != [] {
      SomeSelected(segments, positions, path);
      assert false;
    }
  }

  /** A part is named after its file's sanitized name and the key. */
  lemma PartNameExactly(name: string, key: string)
    ensures PartPath(name, key) == [Sanitize(name) + "." + key + ".part"]
  {
  }
}
