/** Planning-relative paths: one portable spelling, and the paths that have it. */
module Layout {
  import opened Wrappers
  import opened Paths

  datatype Refusal = EmptyPath | NotContained | AbnormalSegment

  predicate Rooted(s: string)
  {
    s != "" && (s[0] == '/' || s[0] == '\\' || (|s| > 1 && s[1] == ':' && Letter(s[0])))
  }

  /** Both separators read as one. */
  function Slashed(s: string): string
  {
    if s == "" then "" else [if s[0] == '\\' then '/' else s[0]] + Slashed(s[1..])
  }

  function NonEmpty(parts: Parts): Parts
  {
    if parts == [] then []
    else (if parts[0] == "" then [] else [parts[0]]) + NonEmpty(parts[1..])
  }

  function Segments(s: string): Parts
  {
    NonEmpty(Split(Slashed(s)))
  }

  predicate Forbidden(c: char)
  {
    c < ' ' || c in "\"*:<>?|"
  }

  function Upper(s: string): string
  {
    if s == "" then "" else [if 'a' <= s[0] <= 'z' then (s[0] as int - 32) as char else s[0]] + Upper(s[1..])
  }

  /** What comes before the first dot. */
  function Basename(s: string): string
  {
    if s == "" || s[0] == '.' then "" else [s[0]] + Basename(s[1..])
  }

  const DEVICES := {"CON", "PRN", "AUX", "NUL", "CLOCK$", "CONIN$", "CONOUT$"}
  const PORTS := "123456789\U{b9}\U{b2}\U{b3}"

  predicate PortName(name: string)
  {
    |name| == 4 && (name[..3] == "COM" || name[..3] == "LPT") && name[3] in PORTS
  }

  /** A file name that every host accepts. */
  predicate PortableSegment(s: string)
  {
    && (s != "" ==> s[|s| - 1] != ' ' && s[|s| - 1] != '.')
    && (forall i :: 0 <= i < |s| ==> !Forbidden(s[i]))
    && Upper(Basename(s)) !in DEVICES && !PortName(Upper(Basename(s)))
  }

  predicate NormalSegment(s: string)
  {
    s != "." && s != ".." && PortableSegment(s)
  }

  function Normalize(path: string): Result<string, Refusal>
  {
    if path == "" then Err(EmptyPath)
    else if Rooted(path) then Err(NotContained)
    else
      var segments := Segments(path);
      if segments == [] || exists i :: 0 <= i < |segments| && !NormalSegment(segments[i]) then Err(AbnormalSegment)
      else Ok(Join(segments))
  }

  predicate SafeRelative(path: string)
  {
    Normalize(path) == Ok(path)
  }

  // ---- Segments ----

  predicate Clean(s: string)
  {
    '/' !in s && '\\' !in s && s != ""
  }

  lemma {:induction false} SlashedHasNoBackslash(s: string)
    ensures '\\' !in Slashed(s)
    ensures '\\' !in s ==> Slashed(s) == s
  {
    if s != "" {
      SlashedHasNoBackslash(s[1..]);
      assert s == [s[0]] + s[1..];
    }
  }

  lemma {:induction false} SplitKeepsCharacters(s: string, c: char)
    requires c !in s
    ensures forall i :: 0 <= i < |Split(s)| ==> c !in Split(s)[i]
  {
    if s != "" {
      assert c !in s[1..];
      SplitKeepsCharacters(s[1..], c);
    }
  }

  lemma {:induction false} NonEmptyKeeps(parts: Parts)
    ensures forall i :: 0 <= i < |NonEmpty(parts)| ==> NonEmpty(parts)[i] != "" && NonEmpty(parts)[i] in parts
    ensures (forall i :: 0 <= i < |parts| ==> parts[i] != "") ==> NonEmpty(parts) == parts
  {
    if parts != [] {
      NonEmptyKeeps(parts[1..]);
      assert parts == [parts[0]] + parts[1..];
    }
  }

  lemma SegmentsAreClean(s: string)
    ensures forall i :: 0 <= i < |Segments(s)| ==> Clean(Segments(s)[i])
  {
    SlashedHasNoBackslash(s);
    SplitsHaveNoSlash(Slashed(s));
    SplitKeepsCharacters(Slashed(s), '\\');
    NonEmptyKeeps(Split(Slashed(s)));
  }

  lemma {:induction false} JoinHolds(parts: Parts, c: char)
    requires |parts| > 0 && c != '/' && forall i :: 0 <= i < |parts| ==> c !in parts[i]
    ensures c !in Join(parts)
  {
    if |parts| > 1 {
      JoinHolds(parts[1..], c);
    }
  }

  lemma JoinStarts(parts: Parts)
    requires |parts| > 0 && parts[0] != ""
    ensures Join(parts) != "" && Join(parts)[0] == parts[0][0]
  {
  }

  /** Clean parts, joined, are read back as the same segments. */
  lemma SegmentsOfJoin(parts: Parts)
    requires |parts| > 0 && forall i :: 0 <= i < |parts| ==> Clean(parts[i])
    ensures Segments(Join(parts)) == parts && Split(Join(parts)) == parts && '\\' !in Join(parts)
  {
    JoinHolds(parts, '\\');
    SlashedHasNoBackslash(Join(parts));
    SplitJoin(parts);
    NonEmptyKeeps(parts);
  }

  lemma NoDrive(s: string)
    requires PortableSegment(s)
    ensures ':' !in s
  {
    assert Forbidden(':');
  }

  lemma JoinIsNotRooted(parts: Parts)
    requires |parts| > 0 && forall i :: 0 <= i < |parts| ==> Clean(parts[i]) && ':' !in parts[i]
    ensures Join(parts) != "" && !Rooted(Join(parts))
  {
    JoinStarts(parts);
    JoinHolds(parts, ':');
    assert Join(parts)[0] in parts[0];
  }

  lemma NormalizeFromSegments(path: string)
    requires path != "" && !Rooted(path) && Segments(path) != []
    requires forall i :: 0 <= i < |Segments(path)| ==> NormalSegment(Segments(path)[i])
    ensures Normalize(path) == Ok(Join(Segments(path)))
  {
  }

  /** Normal segments, joined, are a path of their own. */
  lemma NormalJoin(parts: Parts)
    requires |parts| > 0 && forall i :: 0 <= i < |parts| ==> Clean(parts[i]) && NormalSegment(parts[i])
    ensures Normalize(Join(parts)) == Ok(Join(parts))
  {
    SegmentsOfJoin(parts);
    forall i | 0 <= i < |parts| ensures ':' !in parts[i] {
      NoDrive(parts[i]);
    }
    JoinIsNotRooted(parts);
    NormalizeFromSegments(Join(parts));
  }

  // ---- The theorems ----

  /** A result splits into the very segments that were joined, all of them normal. */
  lemma ResultSplitsIntoSegments(path: string)
    requires Normalize(path).Ok?
    ensures Split(Normalize(path).value) == Segments(path)
    ensures forall i :: 0 <= i < |Segments(path)| ==> Clean(Segments(path)[i]) && NormalSegment(Segments(path)[i])
  {
    SegmentsAreClean(path);
    SegmentsOfJoin(Segments(path));
  }

  lemma NormalizeIsIdempotent(path: string)
    requires Normalize(path).Ok?
    ensures Normalize(Normalize(path).value) == Normalize(path)
  {
    ResultSplitsIntoSegments(path);
    NormalJoin(Segments(path));
  }

  /** The safe paths are exactly the results of normalization. */
  lemma SafeIffNormalized(q: string)
    ensures SafeRelative(q) <==> exists path :: Normalize(path) == Ok(q)
  {
    if path :| Normalize(path) == Ok(q) {
      NormalizeIsIdempotent(path);
    }
  }

  /** Said of the path itself: nonempty normal segments between forward slashes. */
  lemma SafeIffNormalSegments(q: string)
    ensures SafeRelative(q) <==>
      (forall i :: 0 <= i < |Split(q)| ==> Clean(Split(q)[i]) && NormalSegment(Split(q)[i]))
  {
    JoinSplit(q);
    if SafeRelative(q) {
      ResultSplitsIntoSegments(q);
    }
    if forall i :: 0 <= i < |Split(q)| ==> Clean(Split(q)[i]) && NormalSegment(Split(q)[i]) {
      NormalJoin(Split(q));
    }
  }

  // ---- What is refused ----

  /** Up to the case of letters the name is `upper`, whose letters are capital. */
  ghost predicate Spells(name: string, upper: string)
  {
    && |name| == |upper|
    && forall i :: 0 <= i < |upper| ==>
      name[i] == upper[i] || ('A' <= upper[i] <= 'Z' && name[i] as int == upper[i] as int + 32)
  }

  ghost predicate Device(name: string)
  {
    || Spells(name, "CON") || Spells(name, "PRN") || Spells(name, "AUX") || Spells(name, "NUL")
    || Spells(name, "CLOCK$") || Spells(name, "CONIN$") || Spells(name, "CONOUT$")
  }

  ghost predicate Port(name: string)
  {
    |name| == 4 && (Spells(name[..3], "COM") || Spells(name[..3], "LPT"))
      && ('1' <= name[3] <= '9' || name[3] == '\U{b9}' || name[3] == '\U{b2}' || name[3] == '\U{b3}')
  }

  /** What stands before the first dot names a device or a port of some host. */
  ghost predicate Reserved(s: string)
  {
    exists name :: '.' !in name && (s == name || name + "." <= s) && (Device(name) || Port(name))
  }

  lemma {:induction false} BasenameIs(s: string)
    ensures '.' !in Basename(s) && (s == Basename(s) || Basename(s) + "." <= s)
  {
    if s != "" && s[0] != '.' {
      BasenameIs(s[1..]);
      assert s == [s[0]] + s[1..];
      if s[1..] != Basename(s[1..]) {
        var rest := s[1..][|Basename(s[1..])| + 1..];
        assert s[1..] == Basename(s[1..]) + "." + rest;
        assert s == Basename(s) + "." + rest;
      }
    }
  }

  lemma {:induction false} OneBasename(s: string, name: string)
    requires '.' !in name && (s == name || name + "." <= s)
    ensures Basename(s) == name
  {
    if name != "" {
      assert name == [name[0]] + name[1..] && s[0] == name[0];
      OneBasename(s[1..], name[1..]);
    } else if s != "" {
      assert s[0] == '.';
    }
  }

  lemma {:induction false} UpperAt(s: string)
    ensures |Upper(s)| == |s|
    ensures forall i :: 0 <= i < |s| ==>
      Upper(s)[i] == if 'a' <= s[i] <= 'z' then (s[i] as int - 32) as char else s[i]
  {
    if s != "" {
      UpperAt(s[1..]);
    }
  }

  lemma UpperSpells(name: string, upper: string)
    requires forall i :: 0 <= i < |upper| ==> !('a' <= upper[i] <= 'z')
    ensures Upper(name) == upper <==> Spells(name, upper)
  {
    UpperAt(name);
    if Spells(name, upper) {
      forall i | 0 <= i < |upper| ensures Upper(name)[i] == upper[i] {
      }
    }
  }

  lemma DeviceIs(name: string)
    ensures Upper(name) in DEVICES <==> Device(name)
  {
    UpperSpells(name, "CON");
    UpperSpells(name, "PRN");
    UpperSpells(name, "AUX");
    UpperSpells(name, "NUL");
    UpperSpells(name, "CLOCK$");
    UpperSpells(name, "CONIN$");
    UpperSpells(name, "CONOUT$");
  }

  lemma PortIs(name: string)
    ensures PortName(Upper(name)) <==> Port(name)
  {
    UpperAt(name);
    if |name| == 4 {
      UpperAt(name[..3]);
      assert Upper(name)[..3] == Upper(name[..3]);
      UpperSpells(name[..3], "COM");
      UpperSpells(name[..3], "LPT");
    }
  }

  lemma ReservedIs(s: string)
    ensures Reserved(s) <==> Device(Basename(s)) || Port(Basename(s))
  {
    BasenameIs(s);
    forall name | '.' !in name && (s == name || name + "." <= s) ensures name == Basename(s) {
      OneBasename(s, name);
    }
  }

  ghost predicate Ordinary(c: char)
  {
    && c as int >= 32
    && c != '"' && c != '*' && c != ':' && c != '<' && c != '>' && c != '?' && c != '|'
  }

  /** A component that every host accepts: ordinary characters, no space or dot at the end, and
      no reserved name. */
  lemma PortableIff(s: string)
    ensures PortableSegment(s) <==>
      (forall c :: c in s ==> Ordinary(c)) && (s == "" || (s[|s| - 1] != ' ' && s[|s| - 1] != '.')) && !Reserved(s)
  {
    DeviceIs(Basename(s));
    PortIs(Basename(s));
    ReservedIs(s);
    forall c ensures Forbidden(c) <==> !Ordinary(c) {
    }
    assert forall i :: 0 <= i < |s| ==> s[i] in s;
  }

  lemma {:induction false} SlashedAt(s: string)
    ensures |Slashed(s)| == |s|
    ensures forall i :: 0 <= i < |s| ==> Slashed(s)[i] == if s[i] == '\\' then '/' else s[i]
  {
    if s != "" {
      SlashedAt(s[1..]);
    }
  }

  lemma {:induction false} NonEmptyHolds(parts: Parts)
    ensures forall x :: x in NonEmpty(parts) <==> x in parts && x != ""
  {
    if parts != [] {
      NonEmptyHolds(parts[1..]);
      assert parts == [parts[0]] + parts[1..];
    }
  }

  /** From a root or a drive. */
  ghost predicate Absolute(path: string)
  {
    path != "" && (path[0] == '/' || path[0] == '\\'
                   || (|path| > 1 && path[1] == ':' && ('a' <= path[0] <= 'z' || 'A' <= path[0] <= 'Z')))
  }

  /** Between slashes of either kind there is something, and all of it is portable and no dots. */
  ghost predicate NormalParts(path: string)
  {
    && (exists x :: x in Split(Slashed(path)) && x != "")
    && forall x :: x in Split(Slashed(path)) && x != "" ==> x != "." && x != ".." && PortableSegment(x)
  }

  lemma NormalPartsIs(path: string)
    ensures NormalParts(path) <==>
      Segments(path) != [] && forall i :: 0 <= i < |Segments(path)| ==> NormalSegment(Segments(path)[i])
  {
    var segments := Segments(path);
    NonEmptyHolds(Split(Slashed(path)));
    forall x ensures x in segments <==> x in Split(Slashed(path)) && x != "" {
    }
    if segments != [] {
      assert segments[0] in segments;
    }
    assert forall i :: 0 <= i < |segments| ==> segments[i] in segments;
  }

  /** What is refused, and why. */
  lemma NormalizeRefuses(path: string)
    ensures Normalize(path) == Err(EmptyPath) <==> path == ""
    ensures Normalize(path) == Err(NotContained) <==> Absolute(path)
    ensures Normalize(path).Ok? <==> path != "" && !Absolute(path) && NormalParts(path)
  {
    NormalPartsIs(path);
  }
}
