/** Release notes: the section of a changelog that the release tool publishes, and what a link update does to it. */
module ReleaseNotes {
  import opened Wrappers
  import opened Strings
  import opened Release

  /** The lines from one heading to the next section, or to the end; a next section leaves the newline before it. */
  function SectionLines(rest: seq<string>): seq<string> {
    var next := First(rest, Section);
    if next == |rest| then rest else rest[..next] + [""]
  }

  /** The text of a section: `rest` are the lines after its heading. */
  function SectionText(rest: seq<string>): string {
    Join(SectionLines(rest), '\n')
  }

  function NotesIn(rest: seq<string>): Result<string, ReleaseError> {
    var notes := Strip(SectionText(rest));
    if notes == "" then Err(EmptySection) else Ok(notes + "\n")
  }

  /** The lines that end in a newline. */
  function Ended(lines: seq<string>): seq<string> {
    if lines == [] then [] else lines[..|lines| - 1]
  }

  /** The lines after the one heading of a version. */
  function AfterHeading(lines: seq<string>, version: string): Result<seq<string>, ReleaseError>
    requires lines != []
  {
    var found := Count(Ended(lines), Heading(version));
    if StableVersion(version).Err? then Err(BadVersion)
    else if found == 0 then Err(MissingSection)
    else if found != 1 then Err(DuplicateSection)
    else Ok(lines[First(Ended(lines), Heading(version)) + 1..])
  }

  function NotesOf(lines: seq<string>, version: string): Result<string, ReleaseError>
    requires lines != []
  {
    match AfterHeading(lines, version)
    case Err(e) => Err(e)
    case Ok(rest) => NotesIn(rest)
  }

  /** extract_release_notes */
  function ExtractNotes(text: string, version: string): Result<string, ReleaseError> {
    NotesOf(Split(text, '\n'), version)
  }

  // ---- extraction inverts rendering --------------------------------------------------------------------------------

  datatype Entry = Entry(version: string, date: string, body: seq<string>)

  function HeadingLine(entry: Entry): string {
    "## [" + entry.version + "] - " + entry.date
  }

  /** The lines of a list of entries. */
  function EntryLines(entries: seq<Entry>): seq<string> {
    if entries == [] then [] else [HeadingLine(entries[0])] + entries[0].body + EntryLines(entries[1..])
  }

  /** A changelog: what comes first, then its entries, then the final newline. */
  function Changelog(preamble: seq<string>, entries: seq<Entry>): string {
    Join(preamble + EntryLines(entries) + [""], '\n')
  }

  ghost predicate GoodEntry(entry: Entry) {
    && StableVersion(entry.version).Ok? && Dated(entry.date)
    && (forall i :: 0 <= i < |entry.body| ==> '\n' !in entry.body[i])
    && Count(entry.body, Section) == 0
  }

  ghost predicate GoodChangelog(preamble: seq<string>, entries: seq<Entry>) {
    && (forall i :: 0 <= i < |preamble| ==> '\n' !in preamble[i])
    && (forall k :: 0 <= k < |entries| ==> GoodEntry(entries[k]) && Count(preamble, Heading(entries[k].version)) == 0)
    && forall j, k :: 0 <= j < k < |entries| ==> entries[j].version != entries[k].version
  }

  lemma HeadingIsSection(line: string, version: string)
    requires Matches(line, Heading(version))
    ensures Matches(line, Section)
  {
    assert "## [" <= "## [" + version + "] - ";
  }

  lemma HeadingMatches(entry: Entry)
    requires StableVersion(entry.version).Ok? && Dated(entry.date)
    ensures '\n' !in HeadingLine(entry)
    ensures Matches(HeadingLine(entry), Section) && Matches(HeadingLine(entry), Heading(entry.version))
  {
    hide StableVersion, Dated;
    var line := HeadingLine(entry);
    VersionIsPlain(entry.version);
    DateIsPlain(entry.date);
    PlainConcat("## [", entry.version);
    PlainConcat("## [" + entry.version, "] - ");
    PlainConcat("## [" + entry.version + "] - ", entry.date);
    assert line[|entry.version| + 8..] == entry.date;
    HeadingIsSection(line, entry.version);
  }

  lemma DateIsPlain(date: string)
    requires Dated(date)
    ensures Plain(date)
  {
    assert forall i :: 0 <= i < |date| ==> IsDigit(date[i]) || date[i] == '-';
  }

  /** A heading names one version. */
  lemma HeadingsClash(line: string, a: string, b: string)
    requires Matches(line, Heading(a)) && Matches(line, Heading(b))
    ensures a == b
  {
    assert |line| == |a| + 18 && |line| == |b| + 18;
    assert line[4..|a| + 4] == a by { assert ("## [" + a + "] - ")[4..|a| + 4] == a; }
    assert line[4..|b| + 4] == b by { assert ("## [" + b + "] - ")[4..|b| + 4] == b; }
  }

  lemma {:induction false} NoHeadingsWithoutSections(lines: seq<string>, version: string)
    requires Count(lines, Section) == 0
    ensures Count(lines, Heading(version)) == 0
  {
    hide Matches;
    if lines != [] {
      if Matches(lines[0], Heading(version)) { HeadingIsSection(lines[0], version); }
      NoHeadingsWithoutSections(lines[1..], version);
    }
  }

  lemma {:induction false} EntriesConcat(a: seq<Entry>, b: seq<Entry>)
    ensures EntryLines(a + b) == EntryLines(a) + EntryLines(b)
  {
    hide HeadingLine;
    if a == [] {
      assert a + b == b;
    } else {
      assert (a + b)[1..] == a[1..] + b;
      EntriesConcat(a[1..], b);
    }
  }

  /** Lines of good entries hold no newline, and no heading of a version they do not name. */
  lemma {:induction false} EntryLinesAreGood(entries: seq<Entry>, version: string)
    requires forall k :: 0 <= k < |entries| ==> GoodEntry(entries[k]) && entries[k].version != version
    ensures forall i :: 0 <= i < |EntryLines(entries)| ==> '\n' !in EntryLines(entries)[i]
    ensures Count(EntryLines(entries), Heading(version)) == 0
  {
    hide HeadingLine, Matches, StableVersion, Dated;
    if entries != [] {
      var line, body := HeadingLine(entries[0]), entries[0].body;
      assert GoodEntry(entries[0]);
      HeadingMatches(entries[0]);
      if Matches(line, Heading(version)) { HeadingsClash(line, version, entries[0].version); }
      EntryLinesAreGood(entries[1..], version);
      NoHeadingsWithoutSections(body, version);
      CountOne(line, Heading(version));
      CountConcat([line], body, Heading(version));
      CountConcat([line] + body, EntryLines(entries[1..]), Heading(version));
    }
  }

  /** The section that follows a body ends where the next entry starts, or at the final newline. */
  lemma SectionOfBody(body: seq<string>, later: seq<Entry>)
    requires Count(body, Section) == 0
    requires forall k :: 0 <= k < |later| ==> GoodEntry(later[k])
    ensures SectionText(body + EntryLines(later) + [""]) == Join(body + [""], '\n')
  {
    hide HeadingLine, Matches, StableVersion, Dated, Join;
    SectionLinesAfter(body, EntryLines(later) + [""]);
    assert body + EntryLines(later) + [""] == body + (EntryLines(later) + [""]);
    if later == [] {
      assert EntryLines(later) + [""] == [""];
      EmptyLineIsPlain();
    } else {
      assert GoodEntry(later[0]);
      HeadingMatches(later[0]);
    }
  }

  lemma EmptyLineIsPlain()
    ensures SectionLines([""]) == [""]
  {
  }

  /** Lines that do not match are skipped. */
  lemma {:induction false} FirstSkips(a: seq<string>, b: seq<string>, pattern: Pattern)
    requires Count(a, pattern) == 0
    ensures First(a + b, pattern) == |a| + First(b, pattern)
  {
    hide Matches;
    if a == [] {
      assert a + b == b;
    } else {
      assert (a + b)[1..] == a[1..] + b;
      FirstSkips(a[1..], b, pattern);
    }
  }

  lemma {:induction false} FirstStays(a: seq<string>, b: seq<string>, pattern: Pattern)
    requires Count(a, pattern) > 0
    ensures First(a + b, pattern) == First(a, pattern) < |a|
  {
    hide Matches;
    assert (a + b)[1..] == a[1..] + b;
    if !Matches(a[0], pattern) { FirstStays(a[1..], b, pattern); }
  }

  lemma {:induction false} NoneBeforeFirst(lines: seq<string>, pattern: Pattern)
    ensures Count(lines[..First(lines, pattern)], pattern) == 0
  {
    hide Matches;
    if lines != [] && !Matches(lines[0], pattern) {
      NoneBeforeFirst(lines[1..], pattern);
      var n := First(lines[1..], pattern);
      assert First(lines, pattern) == n + 1;
      assert lines[..n + 1][1..] == lines[1..][..n];
    }
  }

  lemma SectionLinesAfter(a: seq<string>, b: seq<string>)
    requires Count(a, Section) == 0
    ensures SectionLines(a + b) == a + SectionLines(b)
  {
    hide Matches, Count, First;
    FirstSkips(a, b, Section);
    var next := First(b, Section);
    assert (a + b)[..|a| + next] == a + b[..next];
  }

  lemma SectionLinesWithin(a: seq<string>, b: seq<string>)
    requires Count(a, Section) > 0
    ensures SectionLines(a + b) == a[..First(a, Section)] + [""]
  {
    hide Matches, Count, First;
    FirstStays(a, b, Section);
    assert (a + b)[..First(a, Section)] == a[..First(a, Section)];
  }

  lemma {:induction false} StripNewline(s: string)
    ensures Strip(s + "\n") == Strip(s)
  {
    if s == "" {
      assert "\n"[1..] == "";
    } else if IsSpace(s[0]) {
      assert (s + "\n")[1..] == s[1..] + "\n";
      StripNewline(s[1..]);
    } else {
      assert (s + "\n")[..|s|] == s;
    }
  }

  /** Extraction inverts rendering: each version gets its own body, stripped, and an empty body is an error. */
  lemma ExtractionInvertsRendering(preamble: seq<string>, entries: seq<Entry>, k: nat)
    requires GoodChangelog(preamble, entries) && k < |entries|
    ensures var notes := Strip(Join(entries[k].body, '\n'));
            ExtractNotes(Changelog(preamble, entries), entries[k].version)
            == if notes == "" then Err(EmptySection) else Ok(notes + "\n")
  {
    hide HeadingLine, Matches, StableVersion, Dated, Join, Split, Strip, Count, First, SectionText;
    var entry, earlier, later := entries[k], entries[..k], entries[k + 1..];
    var version, body := entry.version, entry.body;
    assert GoodEntry(entry);
    HeadingMatches(entry);
    EntryLinesAreGood(earlier, version);
    EntryLinesAreGood(later, version);
    NoHeadingsWithoutSections(body, version);
    var before, line, after := preamble + EntryLines(earlier), HeadingLine(entry), body + EntryLines(later);
    SplitEntries(entries, k);
    assert preamble + EntryLines(entries) + [""] == before + [line] + (after + [""]);
    SplitLines(before, line, after + [""]);
    var lines := before + [line] + (after + [""]);
    assert Ended(lines) == before + [line] + after;
    CountConcat(preamble, EntryLines(earlier), Heading(version));
    CountConcat(body, EntryLines(later), Heading(version));
    OneHeading(before, line, after, version);
    assert lines[|before| + 1..] == body + EntryLines(later) + [""];
    SectionOfBody(body, later);
    BodyText(body);
  }

  // ---- what is extracted ---------------------------------------------------------------------------------------------

  /** Line i, which ends in a newline, is a heading of the version: its label, then a date. */
  ghost predicate HeadingAt(lines: seq<string>, version: string, i: nat) {
    && i + 1 < |lines| && |lines[i]| == |version| + 18 && lines[i][..|version| + 8] == "## [" + version + "] - "
    && IsDate(lines[i][|version| + 8..])
  }

  ghost predicate OnlyHeadingAt(lines: seq<string>, version: string, i: nat) {
    HeadingAt(lines, version, i) && forall k: nat :: HeadingAt(lines, version, k) ==> k == i
  }

  ghost predicate HasHeading(lines: seq<string>, version: string) {
    exists i: nat :: HeadingAt(lines, version, i)
  }

  /** Ten characters, digits but for two hyphens. */
  ghost predicate IsDate(s: string) {
    |s| == 10 && forall j :: 0 <= j < 10 ==> if j == 4 || j == 7 then s[j] == '-' else '0' <= s[j] <= '9'
  }

  /** The section after line i ends before line `end`: the next that opens one, or the end of the text. */
  ghost predicate EndsAt(lines: seq<string>, i: nat, end: nat) {
    && i < end <= |lines|
    && (forall j :: i < j < end ==> !("## [" <= lines[j]))
    && (end < |lines| ==> "## [" <= lines[end])
  }

  lemma HeadingAtIff(lines: seq<string>, version: string, i: nat)
    requires i + 1 < |lines|
    ensures HeadingAt(lines, version, i) <==> Matches(lines[i], Heading(version))
  {
    hide IsDate, Dated;
    var line, start := lines[i], "## [" + version + "] - ";
    assert |start| == |version| + 8;
    if |line| >= |start| {
      DatedIff(line[|start|..]);
      if |line| != |version| + 18 { DatedIsTen(line[|start|..]); }
      assert start <= line <==> line[..|start|] == start;
    }
  }

  lemma DatedIsTen(date: string)
    requires |date| != 10
    ensures !Dated(date)
  {
  }

  lemma DatedIff(date: string)
    ensures Dated(date) <==> IsDate(date)
  {
    if IsDate(date) {
      assert IsDigit(date[0]) && IsDigit(date[1]) && IsDigit(date[2]) && IsDigit(date[3]) && date[4] == '-';
      assert IsDigit(date[5]) && IsDigit(date[6]) && date[7] == '-' && IsDigit(date[8]) && IsDigit(date[9]);
    }
  }

  lemma HeadingsIn(lines: seq<string>, version: string, i: nat)
    requires lines != []
    ensures i < |Ended(lines)| && Matches(Ended(lines)[i], Heading(version)) <==> HeadingAt(lines, version, i)
  {
    hide Matches;
    if i + 1 < |lines| { HeadingAtIff(lines, version, i); }
  }

  lemma SectionLinesTo(lines: seq<string>, i: nat, end: nat)
    requires i < |lines| && EndsAt(lines, i, end)
    ensures Strip(SectionText(lines[i + 1..])) == Strip(Join(lines[i + 1..end], '\n'))
  {
    hide Strip, Split, Join, Matches;
    var rest, body := lines[i + 1..], lines[i + 1..end];
    forall j | 0 <= j < |body| ensures !Matches(body[j], Section) { NotSection(body[j]); }
    NoneIff(body, Section);
    if end < |lines| {
      IsSection(lines[end]);
      assert rest == body + [lines[end]] + lines[end + 1..];
      FirstIn(body, lines[end], lines[end + 1..], Section);
      assert rest[..|body|] == body;
    } else {
      assert rest == body;
      FirstOfNone(rest);
    }
    BodyOrEnd(body);
  }

  lemma NotSection(line: string)
    requires !("## [" <= line)
    ensures !Matches(line, Section)
  {
  }

  lemma IsSection(line: string)
    requires "## [" <= line
    ensures Matches(line, Section)
  {
  }

  lemma {:induction false} FirstOfNone(lines: seq<string>)
    requires Count(lines, Section) == 0
    ensures First(lines, Section) == |lines|
  {
    hide Matches;
    if lines != [] { FirstOfNone(lines[1..]); }
  }

  lemma BodyOrEnd(body: seq<string>)
    ensures Strip(Join(body + [""], '\n')) == Strip(Join(body, '\n'))
  {
    hide Strip;
    if body == [] {
      assert body + [""] == [""];
    } else {
      JoinConcat(body, [""], '\n');
      assert Join(body, '\n') + ['\n'] + "" == Join(body, '\n') + "\n";
      StripNewline(Join(body, '\n'));
    }
  }

  /** What extraction gives, of any text: the error of a version that is none, of a version without a heading, or of one
      with two; and otherwise the lines from its one heading to the next section, stripped, or the error that they are
      empty. */
  lemma ExtractionIff(text: string, version: string, i: nat, end: nat)
    ensures var r, lines := ExtractNotes(text, version), Split(text, '\n');
            && (r == Err(BadVersion) <==> StableVersion(version).Err?)
            && (r == Err(MissingSection) <==> StableVersion(version).Ok? && !HasHeading(lines, version))
            && (r == Err(DuplicateSection) <==>
                  StableVersion(version).Ok?
                  && exists j: nat, k: nat :: j < k && HeadingAt(lines, version, j) && HeadingAt(lines, version, k))
            && (StableVersion(version).Ok? && OnlyHeadingAt(lines, version, i) && EndsAt(lines, i, end) ==>
                  var notes := Strip(Join(lines[i + 1..end], '\n'));
                  r == if notes == "" then Err(EmptySection) else Ok(notes + "\n"))
  {
    hide StableVersion, Split, Join, Strip, Matches, HeadingAt, SectionText, First, Count, EndsAt, HasHeading, OnlyHeadingAt;
    var lines := Split(text, '\n');
    CountHeadings(lines, version);
    NotesByCount(lines, version);
    if OnlyHeadingAt(lines, version, i) && EndsAt(lines, i, end) {
      OnlyHeading(lines, version, i);
      SectionLinesTo(lines, i, end);
    }
  }

  lemma OnlyHeading(lines: seq<string>, version: string, i: nat)
    requires lines != [] && OnlyHeadingAt(lines, version, i)
    ensures Count(Ended(lines), Heading(version)) == 1 && First(Ended(lines), Heading(version)) == i && i < |lines|
  {
    hide Matches, Count, First;
    HeadingsIn(lines, version, i);
    forall k: nat | k < |Ended(lines)| && k != i ensures !Matches(Ended(lines)[k], Heading(version)) {
      HeadingsIn(lines, version, k);
    }
    OnlyIff(Ended(lines), Heading(version), i);
  }

  lemma CountHeadings(lines: seq<string>, version: string)
    requires lines != []
    ensures var n := Count(Ended(lines), Heading(version));
            && (n == 0 <==> !HasHeading(lines, version))
            && (n >= 2 <==> exists j: nat, k: nat :: j < k && HeadingAt(lines, version, j) && HeadingAt(lines, version, k))
  {
    hide Matches, HeadingAt, Count;
    NoneIff(Ended(lines), Heading(version));
    if Count(Ended(lines), Heading(version)) == 0 {
      forall k: nat ensures !HeadingAt(lines, version, k) { HeadingsIn(lines, version, k); }
    } else if Count(Ended(lines), Heading(version)) == 1 {
      OneHeadingAt(lines, version);
    } else {
      var j, k := TwoMatches(Ended(lines), Heading(version));
      HeadingsIn(lines, version, j);
      HeadingsIn(lines, version, k);
    }
  }

  lemma OneHeadingAt(lines: seq<string>, version: string)
    requires lines != [] && Count(Ended(lines), Heading(version)) == 1
    ensures var i := First(Ended(lines), Heading(version));
            HeadingAt(lines, version, i) && forall k: nat :: HeadingAt(lines, version, k) ==> k == i
  {
    hide Matches, HeadingAt, First, Count;
    var i := First(Ended(lines), Heading(version));
    OnlyIff(Ended(lines), Heading(version), i);
    HeadingsIn(lines, version, i);
    forall k: nat | HeadingAt(lines, version, k) ensures k == i { HeadingsIn(lines, version, k); }
  }

  lemma NotesByCount(lines: seq<string>, version: string)
    requires lines != []
    ensures var r, n := NotesOf(lines, version), Count(Ended(lines), Heading(version));
            && (r == Err(BadVersion) <==> StableVersion(version).Err?)
            && (r == Err(MissingSection) <==> StableVersion(version).Ok? && n == 0)
            && (r == Err(DuplicateSection) <==> StableVersion(version).Ok? && n >= 2)
            && (StableVersion(version).Ok? && n == 1 ==>
                  First(Ended(lines), Heading(version)) < |lines|
                  && r == NotesIn(lines[First(Ended(lines), Heading(version)) + 1..]))
  {
    hide StableVersion, First, Count, Strip, SectionText;
  }

  lemma {:induction false} TwoMatches(lines: seq<string>, pattern: Pattern) returns (j: nat, k: nat)
    requires Count(lines, pattern) >= 2
    ensures j < k < |lines| && Matches(lines[j], pattern) && Matches(lines[k], pattern)
  {
    hide Matches;
    if Matches(lines[0], pattern) {
      j := 0;
      NoneIff(lines[1..], pattern);
      var n :| 0 <= n < |lines[1..]| && Matches(lines[1..][n], pattern);
      k := n + 1;
    } else {
      j, k := TwoMatches(lines[1..], pattern);
      j, k := j + 1, k + 1;
    }
  }

  lemma SplitEntries(entries: seq<Entry>, k: nat)
    requires k < |entries|
    ensures EntryLines(entries)
         == EntryLines(entries[..k]) + [HeadingLine(entries[k])] + entries[k].body + EntryLines(entries[k + 1..])
  {
    hide HeadingLine, EntryLines;
    assert entries == entries[..k] + entries[k..];
    EntriesConcat(entries[..k], entries[k..]);
    FirstEntry(entries[k..]);
    assert entries[k..][1..] == entries[k + 1..];
    var a, b, c, d := EntryLines(entries[..k]), [HeadingLine(entries[k])], entries[k].body, EntryLines(entries[k + 1..]);
    assert a + (b + c + d) == a + b + c + d;
  }

  lemma FirstEntry(entries: seq<Entry>)
    requires entries != []
    ensures EntryLines(entries) == [HeadingLine(entries[0])] + entries[0].body + EntryLines(entries[1..])
  {
  }

  lemma OneHeading(before: seq<string>, line: string, after: seq<string>, version: string)
    requires Count(before, Heading(version)) == 0 && Count(after, Heading(version)) == 0
    requires Matches(line, Heading(version))
    ensures Count(before + [line] + after, Heading(version)) == 1
    ensures First(before + [line] + after, Heading(version)) == |before|
  {
    hide Matches;
    CountOne(line, Heading(version));
    CountConcat(before, [line], Heading(version));
    CountConcat(before + [line], after, Heading(version));
    FirstIn(before, line, after, Heading(version));
  }

  lemma BodyText(body: seq<string>)
    ensures Strip(Join(body + [""], '\n')) == Strip(Join(body, '\n'))
  {
    hide Strip;
    if body == [] {
      assert body + [""] == [""];
    } else {
      JoinConcat(body, [""], '\n');
      assert Join(body, '\n') + ['\n'] + "" == Join(body, '\n') + "\n";
      StripNewline(Join(body, '\n'));
    }
  }

  // ---- section openings in the notes ---------------------------------------------------------------------------------

  /** No line after the first opens a section. */
  predicate Closed(s: string) {
    Count(Split(s, '\n')[1..], Section) == 0
  }

  lemma FirstLineOpens(s: string)
    ensures Matches(s, Section) <==> Matches(Split(s, '\n')[0], Section)
  {
    hide Split;
    var lines := Split(s, '\n');
    JoinSplit(s, '\n');
    var first := lines[0];
    assert s == first || (s == first + ['\n'] + Join(lines[1..], '\n') && s[|first|] == '\n');
    assert Matches(s, Section) ==> |s| >= 4 && s[0] == '#' && s[1] == '#' && s[2] == ' ' && s[3] == '[';
  }

  lemma ClosedTail(s: string)
    requires s != "" && Closed(s)
    ensures Closed(s[1..])
  {
    hide Matches;
    var lines, rest := Split(s, '\n'), Split(s[1..], '\n');
    if s[0] == '\n' {
      assert lines[1..] == rest;
    } else {
      assert lines[1..] == rest[1..];
    }
  }

  lemma ClosedInit(s: string)
    requires s != "" && Closed(s)
    ensures Closed(s[..|s| - 1])
  {
    hide Matches, Split;
    var init := s[..|s| - 1];
    SplitAppend(init, s[|s| - 1]);
    assert init + [s[|s| - 1]] == s;
    var a, b := Split(init, '\n'), Split(s, '\n');
    if s[|s| - 1] == '\n' {
      assert b[1..] == a[1..] + [""];
      CountConcat(a[1..], [""], Section);
    } else if |a| > 1 {
      var last := a[|a| - 1];
      assert a[1..] == a[1..|a| - 1] + [last] && b[1..] == a[1..|a| - 1] + [last + [s[|s| - 1]]];
      CountConcat(a[1..|a| - 1], [last], Section);
      CountConcat(a[1..|a| - 1], [last + [s[|s| - 1]]], Section);
      CountOne(last, Section);
      CountOne(last + [s[|s| - 1]], Section);
      if Matches(last, Section) { LongerOpens(last, s[|s| - 1]); }
    }
  }

  lemma LongerOpens(line: string, c: char)
    requires Matches(line, Section)
    ensures Matches(line + [c], Section)
  {
  }

  lemma SplitAppend(s: string, c: char)
    ensures var a := Split(s, '\n');
            Split(s + [c], '\n') == if c == '\n' then a + [""] else a[..|a| - 1] + [a[|a| - 1] + [c]]
  {
    hide Split;
    var a := Split(s, '\n');
    var init, last := a[..|a| - 1], a[|a| - 1];
    JoinSplit(s, '\n');
    if c == '\n' {
      SplitConcat(s, "", '\n');
      SplitPlain("", '\n');
      assert s + [c] + "" == s + [c];
    } else {
      assert a == init + [last];
      JoinOntoLast(init, last, c);
      SplitJoin(init + [last + [c]], '\n');
    }
  }

  lemma JoinOntoLast(init: seq<string>, last: string, c: char)
    ensures Join(init + [last + [c]], '\n') == Join(init + [last], '\n') + [c]
  {
    if init == [] {
      assert init + [last] == [last] && init + [last + [c]] == [last + [c]];
    } else {
      JoinConcat(init, [last], '\n');
      JoinConcat(init, [last + [c]], '\n');
    }
  }

  // ---- stripping ---------------------------------------------------------------------------------------------------

  lemma {:induction false} ClosedLeft(s: string)
    requires Closed(s)
    ensures Closed(StripLeft(s))
  {
    hide Closed;
    if s != "" && IsSpace(s[0]) {
      ClosedTail(s);
      ClosedLeft(s[1..]);
    }
  }

  lemma {:induction false} ClosedRight(s: string)
    requires Closed(s)
    ensures Closed(StripRight(s))
    ensures Matches(StripRight(s), Section) <==> Matches(s, Section)
  {
    hide Closed;
    if s != "" && IsSpace(s[|s| - 1]) {
      ClosedInit(s);
      ClosedRight(s[..|s| - 1]);
      assert s[..|s| - 1] + [s[|s| - 1]] == s;
      SpaceOpensNothing(s);
    }
  }

  /** The opening of a section ends in a bracket, so dropping a final space cannot break it. */
  lemma SpaceOpensNothing(s: string)
    requires s != "" && IsSpace(s[|s| - 1])
    ensures Matches(s[..|s| - 1], Section) <==> Matches(s, Section)
  {
    if Matches(s, Section) {
      assert s[3] == "## ["[3] == '[';
    }
  }

  /** No line of a section opens another. */
  lemma SectionIsClosed(rest: seq<string>)
    requires rest != [] && forall i :: 0 <= i < |rest| ==> '\n' !in rest[i]
    ensures Count(Split(SectionText(rest), '\n'), Section) == 0
  {
    hide Matches, Split, Join, Count, First;
    var next := First(rest, Section);
    NoneBeforeFirst(rest, Section);
    SplitJoin(SectionLines(rest), '\n');
    if next == |rest| {
      assert rest[..next] == rest;
    } else {
      CountConcat(rest[..next], [""], Section);
      EmptyLineOpensNothing();
    }
  }

  lemma EmptyLineOpensNothing()
    ensures Count([""], Section) == 0 && !Matches("", Section)
  {
    CountOne("", Section);
  }

  /** The notes hold a line that opens a section exactly when the section, stripped on the left, starts with one: the
      first line that is not blank is then an indented "## [". Only the first line of the notes can be that. */
  lemma NotesOpenSectionIff(text: string, version: string)
    requires ExtractNotes(text, version).Ok?
    ensures AfterHeading(Split(text, '\n'), version).Ok?
    ensures var notes := ExtractNotes(text, version).value;
            var section := SectionText(AfterHeading(Split(text, '\n'), version).value);
            && Closed(notes)
            && (Count(Split(notes, '\n'), Section) > 0 <==> Matches(StripLeft(section), Section))
  {
    hide Matches, Split, StripLeft, StripRight, SectionText, StableVersion, Count, First;
    var rest := AfterHeading(Split(text, '\n'), version).value;
    OneMatch(Ended(Split(text, '\n')), Heading(version));
    var section := SectionText(rest);
    var stripped := Strip(section);
    SectionIsClosed(rest);
    DropFirst(Split(section, '\n'));
    ClosedLeft(section);
    ClosedRight(StripLeft(section));
    FirstLineOpens(stripped);
    DropFirst(Split(stripped, '\n'));
    SplitConcat(stripped, "", '\n');
    SplitPlain("", '\n');
    assert stripped + "\n" == stripped + ['\n'] + "";
    EmptyLineOpensNothing();
    CountConcat(Split(stripped, '\n'), [""], Section);
    CountConcat(Split(stripped, '\n')[1..], [""], Section);
    assert (Split(stripped, '\n') + [""])[1..] == Split(stripped, '\n')[1..] + [""];
  }

  lemma DropFirst(lines: seq<string>)
    requires lines != []
    ensures Count(lines, Section) == (if Matches(lines[0], Section) then 1 else 0) + Count(lines[1..], Section)
  {
  }

  /** Such a changelog: a body whose one line is an indented opening gives notes that open a section. */
  lemma NotesCanOpenSection()
    ensures var version := Render(Version(1, 0, 0));
            ExtractNotes(Changelog([], [Entry(version, "2026-01-01", ["  ## [x"])]), version) == Ok("## [x\n")
  {
    hide StableVersion, Render, ExtractNotes, Changelog, First, Dated, Strip, Matches;
    var version, body := Render(Version(1, 0, 0)), ["  ## [x"];
    var entry := Entry(version, "2026-01-01", body);
    VersionsRoundTrip(Version(1, 0, 0), version);
    IndentedOpening();
    CountOne(body[0], Section);
    ExtractionInvertsRendering([], [entry], 0);
    assert Join(body, '\n') == body[0];
    assert "## [x" + "\n" == "## [x\n";
  }

  lemma IndentedOpening()
    ensures Dated("2026-01-01")
    ensures '\n' !in "  ## [x" && !Matches("  ## [x", Section)
    ensures Strip("  ## [x") == "## [x" != ""
  {
    assert "  ## [x"[0] != "## ["[0];
    assert "  ## [x"[1..] == " ## [x" && " ## [x"[1..] == "## [x";
  }

  // ---- link updates and notes ----------------------------------------------------------------------------------------

  /** The section of a version holds line i. */
  predicate SectionHolds(lines: seq<string>, version: string, i: nat)
    requires lines != []
  {
    && AfterHeading(lines, version).Ok?
    && var h := First(Ended(lines), Heading(version));
       h < i < h + 1 + First(lines[h + 1..], Section)
  }

  lemma LinkOpensNothing(line: string, tag: string)
    requires "[" + tag + "]:" <= line
    ensures !Matches(line, Section)
  {
    assert line[0] == ("[" + tag + "]:")[0] != "## ["[0];
  }

  lemma EndedTail(a: seq<string>, middle: seq<string>, b: seq<string>)
    requires middle != []
    ensures Ended(a + middle + b) == if b == [] then a + Ended(middle) else a + (middle + Ended(b))
  {
  }

  lemma {:induction false} NoneWithin(lines: seq<string>, k: nat, pattern: Pattern)
    requires Count(lines, pattern) == 0 && k <= |lines|
    ensures Count(lines[..k], pattern) == 0
  {
    CountConcat(lines[..k], lines[k..], pattern);
    assert lines == lines[..k] + lines[k..];
  }

  /** Lines that open no section move no heading before them, and shift those after them. */
  lemma HeadingsAround(a: seq<string>, middle: seq<string>, b: seq<string>, version: string)
    requires middle != [] && Count(middle, Section) == 0
    ensures var ended, pattern := Ended(a + middle + b), Heading(version);
            && Count(ended, pattern) == Count(a, pattern) + Count(Ended(b), pattern)
            && (Count(a, pattern) > 0 ==> First(ended, pattern) == First(a, pattern) < |a|)
            && (Count(a, pattern) == 0 && Count(Ended(b), pattern) > 0 ==>
                 First(ended, pattern) == |a| + |middle| + First(Ended(b), pattern))
  {
    hide Matches, Count, First, Ended;
    var pattern := Heading(version);
    EndedTail(a, middle, b);
    NoHeadingsWithoutSections(middle, version);
    var rest := if b == [] then Ended(middle) else middle + Ended(b);
    assert Count(rest, pattern) == Count(Ended(b), pattern) by {
      if b == [] {
        NoneInEnded(middle, pattern);
      } else {
        CountConcat(middle, Ended(b), pattern);
      }
    }
    CountConcat(a, rest, pattern);
    if Count(a, pattern) > 0 {
      FirstStays(a, rest, pattern);
    } else if Count(Ended(b), pattern) > 0 {
      FirstSkips(a, rest, pattern);
      NoneInEnded(middle, pattern);
      FirstSkips(middle, Ended(b), pattern);
    }
  }

  lemma NoneInEnded(lines: seq<string>, pattern: Pattern)
    requires Count(lines, pattern) == 0
    ensures Count(Ended(lines), pattern) == 0 && Count([], pattern) == 0 && Ended([]) == []
  {
    if lines != [] { NoneWithin(lines, |lines| - 1, pattern); }
  }

  lemma {:induction false} StripLeftStops(x: string, rest: string)
    requires rest != "" && !IsSpace(rest[0])
    ensures StripLeft(x + rest) == StripLeft(x) + rest
  {
    if x == "" {
      assert x + rest == rest;
    } else {
      assert (x + rest)[1..] == x[1..] + rest;
      if IsSpace(x[0]) { StripLeftStops(x[1..], rest); }
    }
  }

  lemma {:induction false} StripRightStops(rest: string, y: string)
    requires rest != "" && !IsSpace(rest[|rest| - 1])
    ensures StripRight(rest + y) == rest + StripRight(y)
  {
    if y == "" {
      assert rest + y == rest;
    } else {
      assert (rest + y)[..|rest + y| - 1] == rest + y[..|y| - 1];
      if IsSpace(y[|y| - 1]) { StripRightStops(rest, y[..|y| - 1]); }
    }
  }

  /** What is not white space at its ends survives a strip. */
  lemma StripAround(x: string, middle: string, y: string)
    requires middle != "" && !IsSpace(middle[0]) && !IsSpace(middle[|middle| - 1])
    ensures Strip(x + middle + y) == StripLeft(x) + middle + StripRight(y)
  {
    assert x + middle + y == x + (middle + y);
    StripLeftStops(x, middle + y);
    assert StripLeft(x) + (middle + y) == (StripLeft(x) + middle) + y;
    StripRightStops(StripLeft(x) + middle, y);
  }

  lemma LinkEnds(previous: string, version: string)
    requires StableVersion(version).Ok?
    ensures var link, newer, release := UnreleasedLink(previous), UnreleasedLink(version), ReleaseLink(previous, version);
            && link != "" && newer != "" && release != ""
            && !IsSpace(link[0]) && !IsSpace(link[|link| - 1])
            && !IsSpace(newer[0]) && !IsSpace(release[|release| - 1])
            && |newer| + 1 + |release| > |link|
  {
    hide CompareRoot, StableVersion;
    VersionCharacters(version);
    assert version[|version| - 1] in version;
    var link, newer, release := UnreleasedLink(previous), UnreleasedLink(version), ReleaseLink(previous, version);
    assert link[0] == '[' && newer[0] == '[' && link[|link| - 1] == 'D';
    assert release[|release| - 1] == version[|version| - 1];
  }

  /** Inside one section, the update changes the notes. */
  lemma SectionTextsDiffer(p: seq<string>, b: seq<string>, previous: string, version: string)
    requires StableVersion(version).Ok?
    requires Count(p, Section) == 0
    requires !Matches(UnreleasedLink(previous), Section) && !Matches(UnreleasedLink(version), Section)
    requires !Matches(ReleaseLink(previous, version), Section)
    ensures NotesIn(p + [UnreleasedLink(previous)] + b)
         != NotesIn(p + [UnreleasedLink(version), ReleaseLink(previous, version)] + b)
  {
    hide Matches, Count, First, Join, Split, StripLeft, StripRight, Strip, SectionLines, UnreleasedLink, ReleaseLink, StableVersion;
    var link, newer, release := UnreleasedLink(previous), UnreleasedLink(version), ReleaseLink(previous, version);
    LinkEnds(previous, version);
    var spliced := newer + "\n" + release;
    JoinTwo(newer, release);
    NoSections(p, link, newer, release);
    SectionLinesAfter(p + [link], b);
    SectionLinesAfter(p + [newer, release], b);
    var after := SectionLines(b);
    Sandwich(p, [link], after);
    Sandwich(p, [newer, release], after);
    JoinOne(link);
    var x := if p == [] then "" else Join(p, '\n') + ['\n'];
    var y := if after == [] then "" else ['\n'] + Join(after, '\n');
    StripAround(x, link, y);
    StripAround(x, spliced, y);
    var old_, new_ := Strip(x + link + y), Strip(x + spliced + y);
    assert |new_| > |old_| > 0;
    assert SectionText(p + [link] + b) == x + link + y;
    assert SectionText(p + [newer, release] + b) == x + spliced + y;
    assert |new_ + "\n"| > |old_ + "\n"|;
  }

  lemma JoinOne(line: string)
    ensures Join([line], '\n') == line
  {
  }

  lemma NoSections(p: seq<string>, link: string, newer: string, release: string)
    requires Count(p, Section) == 0
    requires !Matches(link, Section) && !Matches(newer, Section) && !Matches(release, Section)
    ensures Count([link], Section) == 0 && Count([newer, release], Section) == 0
    ensures Count(p + [link], Section) == 0 && Count(p + [newer, release], Section) == 0
  {
    hide Matches;
    CountOne(link, Section);
    CountOne(newer, Section);
    CountOne(release, Section);
    assert [newer, release] == [newer] + [release];
    CountConcat([newer], [release], Section);
    CountConcat(p, [link], Section);
    CountConcat(p, [newer, release], Section);
  }

  /** What follows the heading of a version, when some lines that open no section stand in the middle. */
  lemma AfterHeadingAround(a: seq<string>, middle: seq<string>, b: seq<string>, v: string)
    requires middle != [] && Count(middle, Section) == 0 && StableVersion(v).Ok?
    requires Count(a, Heading(v)) + Count(Ended(b), Heading(v)) == 1
    ensures var h, j := First(a, Heading(v)), First(Ended(b), Heading(v));
            var lines := a + middle + b;
            if Count(a, Heading(v)) == 1
            then h < |a| && First(Ended(lines), Heading(v)) == h && AfterHeading(lines, v) == Ok(a[h + 1..] + middle + b)
            else j < |b| && First(Ended(lines), Heading(v)) > |a| && AfterHeading(lines, v) == Ok(b[j + 1..])
  {
    hide Matches, Count, First, StableVersion, Ended;
    var h, j := First(a, Heading(v)), First(Ended(b), Heading(v));
    HeadingsAround(a, middle, b, v);
    if Count(a, Heading(v)) == 1 {
      SliceBefore(a, middle, b, h + 1);
    } else {
      OneMatch(Ended(b), Heading(v));
      EndedIsShorter(b);
      SliceAfter(a, middle, b, j + 1);
    }
  }

  lemma EndedIsShorter(lines: seq<string>)
    ensures |Ended(lines)| <= |lines|
  {
  }

  lemma SliceBefore<T>(a: seq<T>, middle: seq<T>, b: seq<T>, k: nat)
    requires k <= |a|
    ensures (a + middle + b)[k..] == a[k..] + middle + b
  {
  }

  lemma SliceAfter<T>(a: seq<T>, middle: seq<T>, b: seq<T>, k: nat)
    requires k <= |b|
    ensures (a + middle + b)[|a| + |middle| + k..] == b[k..]
  {
  }

  /** The same on lines: the splice changes the notes of a version exactly when its section holds the spliced line. */
  lemma SpliceKeepsNotes(a: seq<string>, b: seq<string>, previous: string, version: string, v: string)
    requires StableVersion(version).Ok?
    requires !Matches(UnreleasedLink(previous), Section) && !Matches(UnreleasedLink(version), Section)
    requires !Matches(ReleaseLink(previous, version), Section)
    ensures var old_ := a + [UnreleasedLink(previous)] + b;
            var new_ := a + [UnreleasedLink(version), ReleaseLink(previous, version)] + b;
            NotesOf(new_, v) == NotesOf(old_, v) <==> !SectionHolds(old_, v, |a|)
  {
    hide Matches, Count, First, NotesIn, UnreleasedLink, ReleaseLink, StableVersion, Ended;
    var link, middle := [UnreleasedLink(previous)], [UnreleasedLink(version), ReleaseLink(previous, version)];
    var old_, new_ := a + link + b, a + middle + b;
    NoSections([], link[0], middle[0], middle[1]) by { EmptyCount(); }
    HeadingsAround(a, link, b, v);
    HeadingsAround(a, middle, b, v);
    if AfterHeading(old_, v).Ok? {
      hide AfterHeading;
      AfterHeadingAround(a, link, b, v);
      AfterHeadingAround(a, middle, b, v);
      if Count(a, Heading(v)) == 1 {
        var h := First(a, Heading(v));
        var p := a[h + 1..];
        assert old_[h + 1..] == p + link + b;
        if Count(p, Section) > 0 {
          SectionStays(p, link, middle, b);
        } else {
          SectionTextsDiffer(p, b, previous, version);
          NoSections(p, link[0], middle[0], middle[1]);
          FirstSkips(p + link, b, Section);
        }
      }
    }
  }

  lemma EmptyCount()
    ensures Count([], Section) == 0
  {
  }

  lemma SectionStays(p: seq<string>, link: seq<string>, middle: seq<string>, b: seq<string>)
    requires Count(p, Section) > 0
    ensures NotesIn(p + link + b) == NotesIn(p + middle + b)
    ensures First(p + link + b, Section) < |p|
  {
    hide Matches, Count, First;
    assert p + link + b == p + (link + b) && p + middle + b == p + (middle + b);
    SectionLinesWithin(p, link + b);
    SectionLinesWithin(p, middle + b);
    FirstStays(p, link + b, Section);
  }

  /** A link update leaves what is extracted for a version, notes or error, as it was exactly when the version's section
      does not hold the Unreleased definition. */
  lemma LinkUpdateKeepsNotesIff(text: string, previous: string, version: string, v: string)
    requires UpdateComparisonLinks(text, previous, version).Ok?
    ensures var lines := Split(text, '\n');
            ExtractNotes(UpdateComparisonLinks(text, previous, version).value, v) == ExtractNotes(text, v)
            <==> !SectionHolds(lines, v, First(lines, Definition(Unreleased())))
  {
    hide Matches, Count, First, AfterHeading, NotesIn, UnreleasedLink, ReleaseLink, StableVersion, Split, Join, UpdateLines, Unreleased;
    var lines := Split(text, '\n');
    var i := First(lines, Definition(Unreleased()));
    UpdatedLines(lines, previous, version);
    UpdateIsValid(lines, previous, version);
    var a, b := lines[..i], lines[i + 1..];
    var u, r := UnreleasedLink(version), ReleaseLink(previous, version);
    VersionIsPlain(previous);
    VersionIsPlain(version);
    UnreleasedLinkShape(previous);
    UnreleasedLinkShape(version);
    ReleaseLinkShape(previous, version);
    LinkOpensNothing(UnreleasedLink(previous), Unreleased());
    LinkOpensNothing(u, Unreleased());
    LinkOpensNothing(r, version);
    assert lines == a + [UnreleasedLink(previous)] + b;
    SplitJoin(a + [u, r] + b, '\n');
    SpliceKeepsNotes(a, b, previous, version, v);
  }
}
