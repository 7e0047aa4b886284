/** The release tool's text functions: versions, comparison links and release notes. A text is handled as its lines,
    that is the pieces between its newlines. */
module Release {
  import opened Wrappers
  import opened Strings

  datatype ReleaseError =
    | BadVersion | NotGreater | NoUniqueUnreleased | LinkExists | MissingSection | DuplicateSection | EmptySection

  // ---- versions ------------------------------------------------------------------------------------------------

  datatype Version = Version(major: nat, minor: nat, patch: nat)

  /** stable_version: three canonical decimals separated by dots. */
  function StableVersion(value: string): Result<Version, ReleaseError> {
    var parts := Split(value, '.');
    if |parts| == 3 && CanonicalDecimal(parts[0]) && CanonicalDecimal(parts[1]) && CanonicalDecimal(parts[2])
    then Ok(Version(DigitsValue(parts[0]), DigitsValue(parts[1]), DigitsValue(parts[2])))
    else Err(BadVersion)
  }

  function Render(v: Version): string {
    Join([Decimal(v.major), Decimal(v.minor), Decimal(v.patch)], '.')
  }

  lemma CanonicalHasNo(s: string, c: char)
    requires CanonicalDecimal(s) && !IsDigit(c)
    ensures c !in s
  {
  }

  /** Version strings and versions are the same thing: parsing and rendering are inverse both ways. */
  lemma VersionsRoundTrip(v: Version, value: string)
    ensures StableVersion(Render(v)) == Ok(v)
    ensures StableVersion(value).Ok? ==> Render(StableVersion(value).value) == value
  {
    var pieces := [Decimal(v.major), Decimal(v.minor), Decimal(v.patch)];
    DecimalRoundTrip(v.major);
    DecimalRoundTrip(v.minor);
    DecimalRoundTrip(v.patch);
    forall i | 0 <= i < 3 ensures '.' !in pieces[i] { CanonicalHasNo(pieces[i], '.'); }
    SplitJoin(pieces, '.');
    var parts := Split(value, '.');
    if StableVersion(value).Ok? {
      NumeralRoundTrip(parts[0]);
      NumeralRoundTrip(parts[1]);
      NumeralRoundTrip(parts[2]);
      assert parts == [parts[0], parts[1], parts[2]];
      JoinSplit(value, '.');
    }
  }

  /** Tuple comparison. */
  predicate Less(a: Version, b: Version) {
    a.major < b.major || (a.major == b.major && (a.minor < b.minor || (a.minor == b.minor && a.patch < b.patch)))
  }

  /** validate_next_version: None when `version` is greater than `previous`. */
  function ValidateNext(version: string, previous: string): Option<ReleaseError> {
    match StableVersion(version)
    case Err(e) => Some(e)
    case Ok(new_) =>
      match StableVersion(previous)
      case Err(e) => Some(e)
      case Ok(old_) => if Less(old_, new_) then None else Some(NotGreater)
  }

  /** Accepted steps are strict, and they compose: so no chain of them returns to a version. */
  lemma StepsAreStrictOrder(a: string, b: string, c: string)
    requires ValidateNext(b, a).None?
    ensures a != b && ValidateNext(a, b).Some?
    ensures ValidateNext(c, b).None? ==> ValidateNext(c, a).None?
  {
  }

  /** Versions are compared part by part: a part decides when it differs and all before it are equal. */
  lemma EarlierPartsOutweigh(a: Version, b: Version)
    ensures a.major != b.major ==> (Less(a, b) <==> a.major < b.major)
    ensures a.major == b.major && a.minor != b.minor ==> (Less(a, b) <==> a.minor < b.minor)
    ensures a.major == b.major && a.minor == b.minor ==> (Less(a, b) <==> a.patch < b.patch)
    ensures a != b ==> (Less(a, b) <==> !Less(b, a))
  {
  }

  /** A step is refused for a version that is no version, else for one that is not greater, and for nothing else. */
  lemma StepIsValidIff(version: string, previous: string)
    ensures var new_, old_ := StableVersion(version), StableVersion(previous);
            ValidateNext(version, previous)
            == if new_.Err? || old_.Err? then Some(BadVersion)
               else if Less(old_.value, new_.value) then None else Some(NotGreater)
  {
  }

  lemma VersionCharacters(value: string)
    requires StableVersion(value).Ok?
    ensures value != "" && forall c :: c in value ==> IsDigit(c) || c == '.'
  {
    var parts := Split(value, '.');
    JoinSplit(value, '.');
    assert Join(parts[1..], '.') == parts[1] + ['.'] + parts[2] by { assert parts[1..][1..] == [parts[2]]; }
    assert value == parts[0] + ['.'] + (parts[1] + ['.'] + parts[2]);
  }

  // ---- line patterns -----------------------------------------------------------------------------------------------

  /** The three multi-line regular expressions of the tool: whether one matches at a line is decided by that line. */
  datatype Pattern = Definition(tag: string) | Heading(version: string) | Section

  predicate Dated(s: string) {
    && |s| == 10 && IsDigit(s[0]) && IsDigit(s[1]) && IsDigit(s[2]) && IsDigit(s[3]) && s[4] == '-'
    && IsDigit(s[5]) && IsDigit(s[6]) && s[7] == '-' && IsDigit(s[8]) && IsDigit(s[9])
  }

  /** A link definition stops at a carriage return; a heading carries a date; any "## [" opens a section. */
  predicate Matches(line: string, pattern: Pattern) {
    match pattern
    case Definition(tag) => "[" + tag + "]:" <= line && '\r' !in line
    case Heading(version) => "## [" + version + "] - " <= line && Dated(line[|version| + 8..])
    case Section => "## [" <= line
  }

  function Count(lines: seq<string>, pattern: Pattern): nat {
    if lines == [] then 0 else (if Matches(lines[0], pattern) then 1 else 0) + Count(lines[1..], pattern)
  }

  /** The first line that matches, or the number of lines. */
  function First(lines: seq<string>, pattern: Pattern): (i: nat)
    ensures i <= |lines|
    ensures i < |lines| ==> Matches(lines[i], pattern)
  {
    if lines == [] || Matches(lines[0], pattern) then 0 else 1 + First(lines[1..], pattern)
  }

  lemma {:induction false} CountConcat(a: seq<string>, b: seq<string>, pattern: Pattern)
    ensures Count(a + b, pattern) == Count(a, pattern) + Count(b, pattern)
  {
    hide Matches;
    if a == [] {
      assert a + b == b;
    } else {
      assert (a + b)[1..] == a[1..] + b;
      CountConcat(a[1..], b, pattern);
    }
  }

  lemma {:induction false} FirstIn(a: seq<string>, line: string, b: seq<string>, pattern: Pattern)
    requires Count(a, pattern) == 0 && Matches(line, pattern)
    ensures First(a + [line] + b, pattern) == |a|
  {
    hide Matches;
    var lines := a + [line] + b;
    if a != [] {
      assert lines[1..] == a[1..] + [line] + b;
      FirstIn(a[1..], line, b, pattern);
    }
  }

  /** A count of one splits the lines around the match. */
  lemma {:induction false} OneMatch(lines: seq<string>, pattern: Pattern)
    requires Count(lines, pattern) == 1
    ensures var i := First(lines, pattern);
            i < |lines| && Count(lines[..i], pattern) == 0 && Count(lines[i + 1..], pattern) == 0
  {
    hide Matches;
    if Matches(lines[0], pattern) {
      assert lines[..0] == [];
    } else {
      OneMatch(lines[1..], pattern);
      var i := First(lines[1..], pattern);
      assert lines[..i + 1] == [lines[0]] + lines[1..][..i];
      assert ([lines[0]] + lines[1..][..i])[1..] == lines[1..][..i];
      assert lines[i + 2..] == lines[1..][i + 1..];
    }
  }

  lemma CountOne(line: string, pattern: Pattern)
    ensures Count([line], pattern) == if Matches(line, pattern) then 1 else 0
  {
    assert [line][1..] == [];
  }

  // ---- comparison links ------------------------------------------------------------------------------------------

  function Host(): string {
    "https://github.com"
  }

  function Repository(): string {
    "/andy-takker/asyncly/compare"
  }

  function CompareRoot(): string {
    Host() + Repository()
  }

  /** The label of the definition that moves from release to release. */
  function Unreleased(): string {
    "Unreleased"
  }

  function UnreleasedLink(version: string): string {
    "[Unreleased]: " + CompareRoot() + "/" + version + "...HEAD"
  }

  function ReleaseLink(previous: string, version: string): string {
    "[" + version + "]: " + CompareRoot() + "/" + previous + "..." + version
  }

  function UpdateLines(lines: seq<string>, previous: string, version: string): Result<seq<string>, ReleaseError> {
    var i := First(lines, Definition(Unreleased()));
    var invalid := ValidateNext(version, previous);
    if invalid.Some? then Err(invalid.value)
    else if Count(lines, Definition(Unreleased())) != 1 || i == |lines| || lines[i] != UnreleasedLink(previous) then
      Err(NoUniqueUnreleased)
    else if Count(lines, Definition(version)) > 0 then Err(LinkExists)
    else Ok(lines[..i] + [UnreleasedLink(version), ReleaseLink(previous, version)] + lines[i + 1..])
  }

  /** update_comparison_links */
  function UpdateComparisonLinks(text: string, previous: string, version: string): Result<string, ReleaseError> {
    match UpdateLines(Split(text, '\n'), previous, version)
    case Err(e) => Err(e)
    case Ok(lines) => Ok(Join(lines, '\n'))
  }

  /** A label without brackets ends at the first closing bracket. */
  lemma LabelEnds(line: string, text: string)
    requires ']' !in text && "[" + text + "]:" <= line
    ensures |text| + 1 < |line| && line[|text| + 1] == ']' && line[1..|text| + 1] == text
    ensures forall i :: 1 <= i <= |text| ==> line[i] != ']'
  {
    var start := "[" + text + "]:";
    assert start == line[..|start|] && start[|text| + 1] == ']' && start[1..|text| + 1] == text;
    forall i | 1 <= i <= |text| ensures line[i] != ']' {
      assert line[i] == start[i] == text[i - 1] && text[i - 1] in text;
    }
  }

  /** So a line has at most one. */
  lemma LabelsClash(line: string, a: string, b: string)
    requires ']' !in a && ']' !in b && "[" + a + "]:" <= line && "[" + b + "]:" <= line
    ensures a == b
  {
    LabelEnds(line, a);
    LabelEnds(line, b);
  }

  predicate Plain(s: string) {
    '\n' !in s && '\r' !in s
  }

  lemma PlainConcat(a: string, b: string)
    requires Plain(a) && Plain(b)
    ensures Plain(a + b)
  {
  }

  lemma RootIsPlain()
    ensures Plain(CompareRoot())
  {
    hide Host, Repository;
    HostIsPlain();
    RepositoryIsPlain();
    PlainConcat(Host(), Repository());
  }

  lemma HostIsPlain()
    ensures Plain(Host())
  {
    assert Host() == "https://github.com";
  }

  lemma RepositoryIsPlain()
    ensures Plain(Repository())
  {
    assert Repository() == "/andy-takker" + "/asyncly/compare";
    assert forall c :: c in "/andy-takker" ==> c != '\n' && c != '\r';
    assert forall c :: c in "/asyncly/compare" ==> c != '\n' && c != '\r';
  }

  lemma UnreleasedIsLabel()
    ensures ']' !in Unreleased()
  {
  }

  lemma VersionIsPlain(version: string)
    requires StableVersion(version).Ok?
    ensures Plain(version) && ']' !in version && version != Unreleased()
  {
    VersionCharacters(version);
    assert Unreleased()[0] == 'U' && !IsDigit('U');
    assert version != "" && version[0] in version;
  }

  lemma UnreleasedLinkShape(version: string)
    requires Plain(version)
    ensures Plain(UnreleasedLink(version)) && "[" + Unreleased() + "]:" <= UnreleasedLink(version)
  {
    var a := "[Unreleased]: " + CompareRoot();
    RootIsPlain();
    PlainConcat("[Unreleased]: ", CompareRoot());
    PlainConcat(a, "/");
    PlainConcat(a + "/", version);
    PlainConcat(a + "/" + version, "...HEAD");
    assert "[" + Unreleased() + "]:" == "[Unreleased]:";
    assert "[Unreleased]: " == "[Unreleased]:" + " ";
  }

  lemma ReleaseLinkShape(previous: string, version: string)
    requires Plain(previous) && Plain(version)
    ensures Plain(ReleaseLink(previous, version)) && "[" + version + "]:" <= ReleaseLink(previous, version)
  {
    RootIsPlain();
    var a := "[" + version + "]: ";
    PlainConcat("[", version);
    PlainConcat("[" + version, "]: ");
    PlainConcat(a, CompareRoot());
    PlainConcat(a + CompareRoot(), "/");
    PlainConcat(a + CompareRoot() + "/", previous);
    PlainConcat(a + CompareRoot() + "/" + previous, "...");
    PlainConcat(a + CompareRoot() + "/" + previous + "...", version);
    assert a == "[" + version + "]:" + " ";
  }

  /** What the two written lines define. */
  lemma WrittenLines(previous: string, version: string, tag: string)
    requires StableVersion(previous).Ok? && StableVersion(version).Ok?
    requires ']' !in tag
    ensures Matches(UnreleasedLink(version), Definition(tag)) <==> tag == Unreleased()
    ensures Matches(ReleaseLink(previous, version), Definition(tag)) <==> tag == version
    ensures version != Unreleased()
    ensures '\n' !in UnreleasedLink(version) && '\n' !in ReleaseLink(previous, version)
  {
    hide StableVersion, UnreleasedLink, ReleaseLink;
    VersionIsPlain(previous);
    VersionIsPlain(version);
    UnreleasedLinkShape(version);
    ReleaseLinkShape(previous, version);
    UnreleasedIsLabel();
    var u, r := UnreleasedLink(version), ReleaseLink(previous, version);
    if Matches(u, Definition(tag)) { LabelsClash(u, Unreleased(), tag); }
    if Matches(r, Definition(tag)) { LabelsClash(r, version, tag); }
  }

  lemma UnreleasedLinkInjective(a: string, b: string)
    requires UnreleasedLink(a) == UnreleasedLink(b)
    ensures a == b
  {
    var prefix := "[Unreleased]: " + CompareRoot() + "/";
    assert UnreleasedLink(a) == prefix + a + "...HEAD" && UnreleasedLink(b) == prefix + b + "...HEAD";
    assert a == UnreleasedLink(a)[|prefix|..|UnreleasedLink(a)| - 7];
    assert b == UnreleasedLink(b)[|prefix|..|UnreleasedLink(b)| - 7];
  }

  /** Where line i starts in the text. */
  function LineStart(lines: seq<string>, i: nat): nat
    requires i <= |lines|
  {
    if i == 0 then 0 else |Join(lines[..i], '\n')| + 1
  }

  /** The piece stands in the text at `start`. */
  predicate StandsAt(text: string, start: nat, piece: string) {
    start + |piece| <= |text| && text[start..start + |piece|] == piece
  }

  /** The text with `length` characters from `start` on replaced, and every other one left alone. */
  function Spliced(text: string, start: nat, length: nat, piece: string): string
    requires start + length <= |text|
  {
    text[..start] + piece + text[start + length..]
  }

  /** Replacing line i of a text by some lines replaces its characters and leaves every other one alone. */
  lemma LineSplice(lines: seq<string>, i: nat, replacement: seq<string>)
    requires i < |lines| && replacement != []
    ensures var text, start := Join(lines, '\n'), LineStart(lines, i);
            && StandsAt(text, start, lines[i])
            && (start > 0 ==> text[start - 1] == '\n')
            && Join(lines[..i] + replacement + lines[i + 1..], '\n')
               == Spliced(text, start, |lines[i]|, Join(replacement, '\n'))
  {
    hide UnreleasedLink, ReleaseLink, CompareRoot, Unreleased, Matches, StandsAt, Spliced;
    var before, after := lines[..i], lines[i + 1..];
    var head := if before == [] then "" else Join(before, '\n') + ['\n'];
    var tail := if after == [] then "" else ['\n'] + Join(after, '\n');
    Sandwich(before, [lines[i]], after);
    assert before + [lines[i]] + after == lines;
    Sandwich(before, replacement, after);
    SplicedParts(head, lines[i], Join(replacement, '\n'), tail);
  }

  lemma SplicedParts(head: string, old_: string, new_: string, tail: string)
    ensures StandsAt(head + old_ + tail, |head|, old_)
    ensures Spliced(head + old_ + tail, |head|, |old_|, new_) == head + new_ + tail
  {
    var text := head + old_ + tail;
    assert text[..|head|] == head && text[|head|..|head| + |old_|] == old_ && text[|head| + |old_|..] == tail;
  }

  lemma Sandwich(before: seq<string>, middle: seq<string>, after: seq<string>)
    requires middle != []
    ensures Join(before + middle + after, '\n')
         == (if before == [] then "" else Join(before, '\n') + ['\n']) + Join(middle, '\n')
            + (if after == [] then "" else ['\n'] + Join(after, '\n'))
  {
    if before == [] {
      assert before + middle == middle;
    } else {
      JoinConcat(before, middle, '\n');
    }
    if after == [] {
      assert before + middle + after == before + middle;
    } else {
      JoinConcat(before + middle, after, '\n');
    }
  }

  /** A link update splices the one Unreleased definition and changes no other character. */
  lemma UpdateIsSplice(text: string, previous: string, version: string)
    requires UpdateComparisonLinks(text, previous, version).Ok?
    ensures var lines := Split(text, '\n');
            var i := First(lines, Definition(Unreleased()));
            var start, old_ := LineStart(lines, i), UnreleasedLink(previous);
            && StandsAt(text, start, old_)
            && UpdateComparisonLinks(text, previous, version).value
               == Spliced(text, start, |old_|, UnreleasedLink(version) + "\n" + ReleaseLink(previous, version))
  {
    hide UnreleasedLink, ReleaseLink, CompareRoot, Unreleased, Matches, Split, Join, LineStart, UpdateLines, First;
    hide UpdateComparisonLinks, Spliced, StandsAt;
    var lines := Split(text, '\n');
    var i := First(lines, Definition(Unreleased()));
    var written := [UnreleasedLink(version), ReleaseLink(previous, version)];
    JoinSplit(text, '\n');
    UpdateOfLines(text, previous, version);
    UpdatedLines(lines, previous, version);
    LineSplice(lines, i, written);
    JoinTwo(UnreleasedLink(version), ReleaseLink(previous, version));
    assert UpdateComparisonLinks(text, previous, version).value == Join(lines[..i] + written + lines[i + 1..], '\n');
  }

  /** The same, with the two definitions spelled out. */
  lemma UpdateWrites(text: string, previous: string, version: string)
    requires UpdateComparisonLinks(text, previous, version).Ok?
    ensures exists before, after ::
              && text == before + ("[Unreleased]: " + "https://github.com/andy-takker/asyncly/compare" + "/" + previous + "...HEAD")
                         + after
              && UpdateComparisonLinks(text, previous, version).value
                 == before
                    + (("[Unreleased]: " + "https://github.com/andy-takker/asyncly/compare" + "/" + version + "...HEAD") + "\n"
                       + ("[" + version + "]: " + "https://github.com/andy-takker/asyncly/compare" + "/" + previous + "..."
                          + version))
                    + after
  {
    hide UnreleasedLink, ReleaseLink, UpdateComparisonLinks, First, Split, LineStart;
    var lines := Split(text, '\n');
    var start, old_ := LineStart(lines, First(lines, Definition(Unreleased()))), UnreleasedLink(previous);
    UpdateIsSplice(text, previous, version);
    UnreleasedLinkIs(previous);
    UnreleasedLinkIs(version);
    ReleaseLinkIs(previous, version);
    var before, after := text[..start], text[start + |old_|..];
    assert text == before + old_ + after;
  }

  lemma {:induction false} NoneIff(lines: seq<string>, pattern: Pattern)
    ensures Count(lines, pattern) == 0 <==> forall j :: 0 <= j < |lines| ==> !Matches(lines[j], pattern)
  {
    hide Matches;
    if lines != [] {
      NoneIff(lines[1..], pattern);
      assert forall j :: 1 <= j < |lines| ==> lines[j] == lines[1..][j - 1];
    }
  }

  /** Line i is the one that matches. */
  ghost predicate Only(lines: seq<string>, pattern: Pattern, i: nat) {
    i < |lines| && Matches(lines[i], pattern) && forall j :: 0 <= j < |lines| && j != i ==> !Matches(lines[j], pattern)
  }

  lemma {:induction false} OnlyIff(lines: seq<string>, pattern: Pattern, i: nat)
    ensures Only(lines, pattern, i) <==> Count(lines, pattern) == 1 && First(lines, pattern) == i
  {
    hide Matches;
    if lines != [] {
      NoneIff(lines[1..], pattern);
      assert forall j :: 1 <= j < |lines| ==> lines[j] == lines[1..][j - 1];
      if i > 0 {
        OnlyIff(lines[1..], pattern, i - 1);
        assert Only(lines, pattern, i) <==> !Matches(lines[0], pattern) && Only(lines[1..], pattern, i - 1);
      }
    }
  }

  /** A line of a definition: it starts with the label and holds no carriage return. */
  ghost predicate Defines(line: string, tag: string) {
    |line| >= |tag| + 3 && line[0] == '[' && line[1..|tag| + 1] == tag && line[|tag| + 1] == ']' && line[|tag| + 2] == ':'
    && forall j :: 0 <= j < |line| ==> line[j] != '\r'
  }

  lemma DefinesIff(line: string, tag: string)
    ensures Matches(line, Definition(tag)) <==> Defines(line, tag)
  {
    var start := "[" + tag + "]:";
    assert |start| == |tag| + 3 && start[0] == '[' && start[|tag| + 1] == ']' && start[|tag| + 2] == ':';
    assert start[1..|tag| + 1] == tag;
    if Defines(line, tag) {
      forall j | 0 <= j < |start| ensures line[j] == start[j] {
        if 1 <= j <= |tag| { assert line[j] == line[1..|tag| + 1][j - 1] == tag[j - 1]; }
      }
      assert line[..|start|] == start;
    }
    if start <= line {
      assert line[..|start|] == start;
      assert line[1..|tag| + 1] == line[..|start|][1..|tag| + 1];
      assert forall j :: 0 <= j < |start| ==> line[j] == line[..|start|][j];
    }
  }

  /** The only definition of Unreleased is line i, which links from the previous version. */
  ghost predicate UnreleasedAt(lines: seq<string>, previous: string, i: nat) {
    && i < |lines| && lines[i] == "[Unreleased]: " + "https://github.com/andy-takker/asyncly/compare" + "/" + previous + "...HEAD"
    && Defines(lines[i], "Unreleased")
    && forall j :: 0 <= j < |lines| && j != i ==> !Defines(lines[j], "Unreleased")
  }

  /** When an update is accepted, and which error it is otherwise: a step between versions that is no step up; then anything
      but one definition of Unreleased, from the previous version; then a definition of the new version. */
  lemma UpdateSucceedsIff(text: string, previous: string, version: string)
    ensures var r, invalid, lines := UpdateComparisonLinks(text, previous, version), ValidateNext(version, previous),
                                     Split(text, '\n');
            if invalid.Some? then r == Err(invalid.value)
            else if !exists i: nat :: UnreleasedAt(lines, previous, i) then r == Err(NoUniqueUnreleased)
            else if exists j :: 0 <= j < |lines| && Defines(lines[j], version) then r == Err(LinkExists)
            else r.Ok?
  {
    hide CompareRoot, UnreleasedLink, ReleaseLink, Matches, Split, Join, ValidateNext, First, Count, UnreleasedAt;
    hide Defines, UpdateLines, UpdateComparisonLinks;
    var lines := Split(text, '\n');
    var i := First(lines, Definition(Unreleased()));
    UpdateOfLines(text, previous, version);
    SomeDefines(lines, version);
    if k: nat :| UnreleasedAt(lines, previous, k) {
      UnreleasedAtIff(lines, previous, k);
      OnlyIff(lines, Definition(Unreleased()), k);
    }
    UnreleasedAtIff(lines, previous, i);
    OnlyIff(lines, Definition(Unreleased()), i);
    UpdateLinesIs(lines, previous, version);
  }

  lemma SomeDefines(lines: seq<string>, tag: string)
    ensures Count(lines, Definition(tag)) > 0 <==> exists j :: 0 <= j < |lines| && Defines(lines[j], tag)
  {
    hide Matches, Defines, Count;
    NoneIff(lines, Definition(tag));
    forall j | 0 <= j < |lines| ensures Matches(lines[j], Definition(tag)) <==> Defines(lines[j], tag) {
      DefinesIff(lines[j], tag);
    }
  }

  lemma UpdateLinesIs(lines: seq<string>, previous: string, version: string)
    ensures var r, i := UpdateLines(lines, previous, version), First(lines, Definition(Unreleased()));
            var invalid := ValidateNext(version, previous);
            if invalid.Some? then r == Err(invalid.value)
            else if Count(lines, Definition(Unreleased())) != 1 || i == |lines| || lines[i] != UnreleasedLink(previous) then
              r == Err(NoUniqueUnreleased)
            else if Count(lines, Definition(version)) > 0 then r == Err(LinkExists) else r.Ok?
  {
    hide UnreleasedLink, ReleaseLink, Matches, ValidateNext, First, Count;
  }

  lemma UnreleasedAtIff(lines: seq<string>, previous: string, i: nat)
    ensures UnreleasedAt(lines, previous, i)
       <==> Only(lines, Definition(Unreleased()), i) && lines[i] == UnreleasedLink(previous)
  {
    hide Matches, Defines;
    UnreleasedLinkIs(previous);
    forall j | 0 <= j < |lines|
      ensures Matches(lines[j], Definition(Unreleased())) <==> Defines(lines[j], "Unreleased")
    {
      DefinesIff(lines[j], Unreleased());
    }
  }

  lemma UnreleasedLinkIs(version: string)
    ensures UnreleasedLink(version) == "[Unreleased]: " + "https://github.com/andy-takker/asyncly/compare" + "/" + version + "...HEAD"
  {
    RootIs();
  }

  lemma ReleaseLinkIs(previous: string, version: string)
    ensures ReleaseLink(previous, version)
         == "[" + version + "]: " + "https://github.com/andy-takker/asyncly/compare" + "/" + previous + "..." + version
  {
    RootIs();
  }

  lemma RootIs()
    ensures CompareRoot() == "https://github.com/andy-takker/asyncly/compare"
  {
    assert Host() + Repository() == "https://github.com/andy-takker/asyncly/compare";
  }

  lemma UpdateOfLines(text: string, previous: string, version: string)
    ensures var lines := UpdateLines(Split(text, '\n'), previous, version);
            UpdateComparisonLinks(text, previous, version)
            == if lines.Ok? then Ok(Join(lines.value, '\n')) else Err(lines.error)
  {
    hide UpdateLines, Split, Join;
  }

  lemma UpdatedLines(lines: seq<string>, previous: string, version: string)
    requires UpdateLines(lines, previous, version).Ok?
    ensures var i := First(lines, Definition(Unreleased()));
            i < |lines| && lines[i] == UnreleasedLink(previous)
            && UpdateLines(lines, previous, version).value
               == lines[..i] + [UnreleasedLink(version), ReleaseLink(previous, version)] + lines[i + 1..]
  {
    hide UnreleasedLink, ReleaseLink, CompareRoot, Unreleased, Matches, Count, ValidateNext, First;
  }

  lemma UpdateIsValid(lines: seq<string>, previous: string, version: string)
    requires UpdateLines(lines, previous, version).Ok?
    ensures StableVersion(previous).Ok? && StableVersion(version).Ok?
  {
    hide UnreleasedLink, ReleaseLink, CompareRoot, Unreleased, Matches, Count, First, StableVersion;
  }

  lemma JoinTwo(a: string, b: string)
    ensures Join([a, b], '\n') == a + "\n" + b
  {
    assert [a, b][1..] == [b];
  }

  // ---- a chain of releases -----------------------------------------------------------------------------------------

  /** One link update per release, from versions[0] on. */
  function Releases(text: string, versions: seq<string>): Result<string, ReleaseError>
    decreases |versions|
  {
    if |versions| <= 1 then Ok(text)
    else
      match UpdateComparisonLinks(text, versions[0], versions[1])
      case Err(e) => Err(e)
      case Ok(text') => Releases(text', versions[1..])
  }

  /** The telescoping links, newest first. */
  function Links(versions: seq<string>): seq<string> {
    if |versions| <= 1 then [] else Links(versions[1..]) + [ReleaseLink(versions[0], versions[1])]
  }

  /** Link k counts from the newest release back to the first. */
  lemma {:induction false} LinksTelescope(versions: seq<string>, k: nat)
    requires k + 1 < |versions|
    ensures |Links(versions)| == |versions| - 1
    ensures Links(versions)[k] == ReleaseLink(versions[|versions| - 2 - k], versions[|versions| - 1 - k])
  {
    hide ReleaseLink;
    if |versions| > 2 {
      LinksTelescope(versions[1..], if k + 2 < |versions| then k else 0);
    }
  }

  ghost predicate Increasing(versions: seq<string>) {
    (forall i :: 0 <= i < |versions| ==> StableVersion(versions[i]).Ok?)
    && forall i, j :: 0 <= i < j < |versions| ==> Less(StableVersion(versions[i]).value, StableVersion(versions[j]).value)
  }

  /** Lines of a text, around a definition of Unreleased. */
  ghost predicate ReadyAt(before: seq<string>, after: seq<string>, versions: seq<string>) {
    && versions != [] && Increasing(versions)
    && (forall i :: 0 <= i < |before| ==> '\n' !in before[i])
    && (forall i :: 0 <= i < |after| ==> '\n' !in after[i])
    && Count(before, Definition(Unreleased())) == 0 && Count(after, Definition(Unreleased())) == 0
    && forall i :: 1 <= i < |versions| ==>
         Count(before, Definition(versions[i])) == 0 && Count(after, Definition(versions[i])) == 0
  }

  predicate IsLine(s: string) {
    '\n' !in s
  }

  lemma LinesConcat(a: seq<string>, b: seq<string>)
    requires forall i :: 0 <= i < |a| ==> IsLine(a[i])
    requires forall i :: 0 <= i < |b| ==> IsLine(b[i])
    ensures forall i :: 0 <= i < |a + b| ==> IsLine((a + b)[i])
  {
    hide IsLine;
  }

  lemma SplitLines(before: seq<string>, line: string, after: seq<string>)
    requires '\n' !in line
    requires forall i :: 0 <= i < |before| ==> '\n' !in before[i]
    requires forall i :: 0 <= i < |after| ==> '\n' !in after[i]
    ensures Split(Join(before + [line] + after, '\n'), '\n') == before + [line] + after
  {
    hide UnreleasedLink, ReleaseLink, CompareRoot, Unreleased, Matches, Split, Join;
    assert forall i :: 0 <= i < |before| ==> IsLine(before[i]);
    assert forall i :: 0 <= i < |after| ==> IsLine(after[i]);
    assert IsLine([line][0]);
    LinesConcat(before, [line]);
    LinesConcat(before + [line], after);
    SplitIsInverse(before + [line] + after);
  }

  lemma SplitIsInverse(lines: seq<string>)
    requires lines != [] && forall i :: 0 <= i < |lines| ==> IsLine(lines[i])
    ensures Split(Join(lines, '\n'), '\n') == lines
  {
    hide Split, Join;
    SplitJoin(lines, '\n');
  }

  /** One update on lines around the definition. */
  lemma OneRelease(before: seq<string>, after: seq<string>, versions: seq<string>)
    requires ReadyAt(before, after, versions) && |versions| >= 2
    ensures UpdateComparisonLinks(Join(before + [UnreleasedLink(versions[0])] + after, '\n'), versions[0], versions[1])
         == Ok(Join(before + [UnreleasedLink(versions[1])] + ([ReleaseLink(versions[0], versions[1])] + after), '\n'))
    ensures ReadyAt(before, [ReleaseLink(versions[0], versions[1])] + after, versions[1..])
  {
    hide UnreleasedLink, ReleaseLink, CompareRoot, Unreleased, Matches, Split, Join, StableVersion, First, Count;
    var v0, v1 := versions[0], versions[1];
    var line, link := UnreleasedLink(v0), ReleaseLink(v0, v1);
    var lines := before + [line] + after;
    VersionIsPlain(v1);
    UnreleasedIsLabel();
    WrittenLines(v0, v0, Unreleased());
    WrittenLines(v0, v1, Unreleased());
    WrittenLines(v0, v0, v1);
    SplitLines(before, line, after);
    forall tag | tag == Unreleased() || tag == v1
      ensures Count(lines, Definition(tag)) == (if tag == Unreleased() then 1 else 0)
    {
      CountConcat(before + [line], after, Definition(tag));
      CountConcat(before, [line], Definition(tag));
      CountOne(line, Definition(tag));
    }
    FirstIn(before, line, after, Definition(Unreleased()));
    assert Less(StableVersion(v0).value, StableVersion(v1).value);
    assert lines[..|before|] == before && lines[|before| + 1..] == after && lines[|before|] == line;
    assert before + [UnreleasedLink(v1), link] + after == before + [UnreleasedLink(v1)] + ([link] + after);
    var rest := versions[1..];
    forall i | 1 <= i < |rest|
      ensures Count(before, Definition(rest[i])) == 0 && Count([link] + after, Definition(rest[i])) == 0
    {
      assert rest[i] == versions[i + 1];
      VersionIsPlain(rest[i]);
      assert Less(StableVersion(v1).value, StableVersion(versions[i + 1]).value);
      WrittenLines(v0, v1, rest[i]);
      CountConcat([link], after, Definition(rest[i]));
      CountOne(link, Definition(rest[i]));
    }
    CountConcat([link], after, Definition(Unreleased()));
    CountOne(link, Definition(Unreleased()));
    assert forall i :: 0 <= i < |rest| ==> rest[i] == versions[i + 1];
  }

  lemma {:induction false} ReleaseChainLines(before: seq<string>, after: seq<string>, versions: seq<string>)
    requires ReadyAt(before, after, versions) && versions != []
    ensures Releases(Join(before + [UnreleasedLink(versions[0])] + after, '\n'), versions)
         == Ok(Join(before + [UnreleasedLink(versions[|versions| - 1])] + (Links(versions) + after), '\n'))
    decreases |versions|
  {
    hide UnreleasedLink, ReleaseLink, CompareRoot, Unreleased, Matches, UpdateComparisonLinks, ReadyAt, Join;
    if |versions| == 1 {
      assert Links(versions) + after == after;
    } else {
      OneRelease(before, after, versions);
      var link := [ReleaseLink(versions[0], versions[1])];
      ReleaseChainLines(before, link + after, versions[1..]);
      assert Links(versions[1..]) + (link + after) == Links(versions) + after;
    }
  }

  /** Any number of releases: from a text whose one Unreleased definition links from v0, strictly increasing versions
      that have no link yet are all accepted, and leave the definition at the last version followed by the links
      v(n-1)...vn down to v0...v1, with every other character as it was. */
  lemma ReleaseChain(text: string, versions: seq<string>)
    requires |versions| >= 1 && Increasing(versions)
    requires Count(Split(text, '\n'), Definition(Unreleased())) == 1
    requires var lines := Split(text, '\n');
             var i := First(lines, Definition(Unreleased()));
             i < |lines| && lines[i] == UnreleasedLink(versions[0])
    requires forall i :: 1 <= i < |versions| ==> Count(Split(text, '\n'), Definition(versions[i])) == 0
    ensures var lines := Split(text, '\n');
            var start, old_ := LineStart(lines, First(lines, Definition(Unreleased()))), UnreleasedLink(versions[0]);
            && StandsAt(text, start, old_)
            && Releases(text, versions)
               == Ok(Spliced(text, start, |old_|, Join([UnreleasedLink(versions[|versions| - 1])] + Links(versions), '\n')))
  {
    hide UnreleasedLink, ReleaseLink, CompareRoot, Unreleased, Matches, Split, Join, First, Count, LineStart, StableVersion;
    var lines := Split(text, '\n');
    var i := First(lines, Definition(Unreleased()));
    OneMatch(lines, Definition(Unreleased()));
    var before, line, after := lines[..i], lines[i], lines[i + 1..];
    assert lines == before + [line] + after;
    forall k | 1 <= k < |versions|
      ensures Count(before, Definition(versions[k])) == 0 && Count(after, Definition(versions[k])) == 0
    {
      CountConcat(before + [line], after, Definition(versions[k]));
      CountConcat(before, [line], Definition(versions[k]));
    }
    JoinSplit(text, '\n');
    ReleaseChainLines(before, after, versions);
    var written := [UnreleasedLink(versions[|versions| - 1])] + Links(versions);
    assert before + [UnreleasedLink(versions[|versions| - 1])] + (Links(versions) + after) == before + written + after;
    LineSplice(lines, i, written);
  }

  /** A step cannot be repeated, nor another taken from the same previous version. */
  lemma StepsDoNotRepeat(text: string, previous: string, version: string, other: string)
    requires UpdateComparisonLinks(text, previous, version).Ok?
    ensures UpdateComparisonLinks(UpdateComparisonLinks(text, previous, version).value, previous, other).Err?
  {
    hide UnreleasedLink, ReleaseLink, CompareRoot, Unreleased, Matches, Split, Join, First, Count, StableVersion;
    var lines := Split(text, '\n');
    var i := First(lines, Definition(Unreleased()));
    var before, after := lines[..i], [ReleaseLink(previous, version)] + lines[i + 1..];
    UnreleasedIsLabel();
    WrittenLines(previous, version, Unreleased());
    OneMatch(lines, Definition(Unreleased()));
    assert before + [UnreleasedLink(version), ReleaseLink(previous, version)] + lines[i + 1..]
        == before + [UnreleasedLink(version)] + after;
    SplitLines(before, UnreleasedLink(version), after);
    FirstIn(before, UnreleasedLink(version), after, Definition(Unreleased()));
    if UnreleasedLink(version) == UnreleasedLink(previous) {
      UnreleasedLinkInjective(version, previous);
    }
  }
}
