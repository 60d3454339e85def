/**
 The image-scan exception gate (security/image-scan/gate.mjs): every entry of .trivyignore needs a reason on the line
 above and an expiry date at most 90 days out. `Date.parse` is a parameter; None stands for NaN.
 */
module ImageGate {
  import opened Common

  const MAX_EXCEPTION_DAYS := 90
  const DAY := 86_400_000

  /** text.split('\n') */
  function Lines(text: string): seq<string> {
    if text == "" then [""]
    else
      var rest := Lines(text[..|text| - 1]);
      if text[|text| - 1] == '\n' then rest + [""]
      else rest[..|rest| - 1] + [rest[|rest| - 1] + [text[|text| - 1]]]
  }

  /** White space and line terminators of ECMAScript: what `trim` removes and \s matches. */
  predicate IsSpace(c: char) {
    || '\t' <= c <= '\r' || c == ' ' || c == '\U{00A0}' || c == '\U{1680}' || '\U{2000}' <= c <= '\U{200A}'
    || c == '\U{2028}' || c == '\U{2029}' || c == '\U{202F}' || c == '\U{205F}' || c == '\U{3000}' || c == '\U{FEFF}'
  }

  /** Splitting at line breaks loses nothing: joined with line breaks the lines are the text, and no line has one. */
  lemma {:induction false} LinesJoinToText(text: string)
    ensures Lines(text) != [] && Joined(Lines(text)) == text
    ensures forall i :: 0 <= i < |Lines(text)| ==> '\n' !in Lines(text)[i]
  {
    if text != "" {
      var n := |text| - 1;
      LinesJoinToText(text[..n]);
      var rest := Lines(text[..n]);
      assert text == text[..n] + [text[n]];
      if text[n] == '\n' {
        assert (rest + [""])[..|rest|] == rest;
      } else {
        var last := rest[|rest| - 1];
        var lines := Lines(text);
        assert lines[..|rest| - 1] == rest[..|rest| - 1] && lines[|rest| - 1] == last + [text[n]];
        assert forall i :: 0 <= i < |rest| - 1 ==> lines[i] == rest[i];
      }
    }
  }

  function Joined(lines: seq<string>): string
    requires lines != []
  {
    if |lines| == 1 then lines[0] else Joined(lines[..|lines| - 1]) + "\n" + lines[|lines| - 1]
  }

  const SPACES := "\t\n\U{000B}\U{000C}\r \U{00A0}\U{1680}\U{2000}\U{2001}\U{2002}\U{2003}\U{2004}\U{2005}\U{2006}\U{2007}\U{2008}\U{2009}\U{200A}\U{2028}\U{2029}\U{202F}\U{205F}\U{3000}\U{FEFF}"

  lemma SpacesAreListed(c: char)
    ensures IsSpace(c) <==> c in SPACES
  {
    assert SPACES[0] == '\t' && SPACES[1] == '\n' && SPACES[2] == '\U{000B}' && SPACES[3] == '\U{000C}' && SPACES[4] == '\r';
    assert SPACES[5] == ' ' && SPACES[6] == '\U{00A0}' && SPACES[7] == '\U{1680}' && SPACES[8] == '\U{2000}';
    assert SPACES[9] == '\U{2001}' && SPACES[10] == '\U{2002}' && SPACES[11] == '\U{2003}' && SPACES[12] == '\U{2004}';
    assert SPACES[13] == '\U{2005}' && SPACES[14] == '\U{2006}' && SPACES[15] == '\U{2007}' && SPACES[16] == '\U{2008}';
    assert SPACES[17] == '\U{2009}' && SPACES[18] == '\U{200A}' && SPACES[19] == '\U{2028}' && SPACES[20] == '\U{2029}';
    assert SPACES[21] == '\U{202F}' && SPACES[22] == '\U{205F}' && SPACES[23] == '\U{3000}' && SPACES[24] == '\U{FEFF}';
  }

  predicate Blank(s: string) {
    forall i :: 0 <= i < |s| ==> IsSpace(s[i])
  }

  function TrimStart(s: string): string {
    if s != "" && IsSpace(s[0]) then TrimStart(s[1..]) else s
  }

  function TrimEnd(s: string): string {
    if s != "" && IsSpace(s[|s| - 1]) then TrimEnd(s[..|s| - 1]) else s
  }

  function Trim(s: string): string {
    TrimEnd(TrimStart(s))
  }

  lemma {:induction false} TrimStartSplits(s: string) returns (before: string)
    ensures s == before + TrimStart(s) && Blank(before) && (TrimStart(s) == "" || !IsSpace(TrimStart(s)[0]))
  {
    hide IsSpace;
    before := "";
    if s != "" && IsSpace(s[0]) {
      var rest := TrimStartSplits(s[1..]);
      before := [s[0]] + rest;
      assert s == [s[0]] + s[1..];
    }
  }

  lemma {:induction false} TrimEndSplits(s: string) returns (after: string)
    ensures s == TrimEnd(s) + after && Blank(after) && (TrimEnd(s) == "" || !IsSpace(TrimEnd(s)[|TrimEnd(s)| - 1]))
  {
    hide IsSpace;
    after := "";
    if s != "" && IsSpace(s[|s| - 1]) {
      var n := |s| - 1;
      var rest := TrimEndSplits(s[..n]);
      after := rest + [s[n]];
      assert s == s[..n] + [s[n]];
    }
  }

  /** Trimming removes white space at both ends, all of it and nothing else. */
  lemma TrimSplits(s: string) returns (before: string, after: string)
    ensures s == before + Trim(s) + after && Blank(before) && Blank(after)
    ensures Trim(s) == "" || (!IsSpace(Trim(s)[0]) && !IsSpace(Trim(s)[|Trim(s)| - 1]))
  {
    hide IsSpace, TrimStart, TrimEnd;
    before := TrimStartSplits(s);
    after := TrimEndSplits(TrimStart(s));
  }

  predicate IsComment(line: string) {
    var t := Trim(line);
    t != "" && t[0] == '#'
  }

  /** A line that is neither blank nor a comment. */
  predicate IsEntry(line: string) {
    Trim(line) != "" && !IsComment(line)
  }

  function CommentText(line: string): string
    requires IsComment(line)
  {
    Trim(Trim(line)[1..])
  }

  function FirstWord(s: string): string {
    if s == "" || IsSpace(s[0]) then "" else [s[0]] + FirstWord(s[1..])
  }

  /** The id of an entry: everything up to the first white space. */
  lemma {:induction false} FirstWordEndsAtSpace(s: string)
    ensures var word := FirstWord(s);
            && word <= s && (forall i :: 0 <= i < |word| ==> !IsSpace(word[i]))
            && (|word| < |s| ==> IsSpace(s[|word|]))
  {
    hide IsSpace;
    if s != "" && !IsSpace(s[0]) {
      FirstWordEndsAtSpace(s[1..]);
      assert s == [s[0]] + s[1..];
    }
  }

  predicate IsDigit(c: char) {
    '0' <= c <= '9'
  }

  predicate IsWordChar(c: char) {
    IsDigit(c) || 'a' <= c <= 'z' || 'A' <= c <= 'Z' || c == '_'
  }

  /** YYYY-MM-DD by shape only. */
  predicate IsDateShape(s: string) {
    && |s| == 10 && s[4] == '-' && s[7] == '-'
    && IsDigit(s[0]) && IsDigit(s[1]) && IsDigit(s[2]) && IsDigit(s[3])
    && IsDigit(s[5]) && IsDigit(s[6]) && IsDigit(s[8]) && IsDigit(s[9])
  }

  /** The pattern \bexp:(\d{4}-\d{2}-\d{2})\b matches at position `i`. */
  predicate ExpAt(line: string, i: int) {
    && 0 <= i && i + 14 <= |line|
    && (i == 0 || !IsWordChar(line[i - 1]))
    && line[i..i + 4] == "exp:"
    && IsDateShape(line[i + 4..i + 14])
    && (i + 14 == |line| || !IsWordChar(line[i + 14]))
  }

  /** A word character at position `j`; outside the line there is none. */
  predicate WordAt(line: string, j: int) {
    0 <= j < |line| && ('0' <= line[j] <= '9' || 'A' <= line[j] <= 'Z' || 'a' <= line[j] <= 'z' || line[j] == '_')
  }

  predicate DigitAt(line: string, j: int) {
    0 <= j < |line| && line[j] in {'0', '1', '2', '3', '4', '5', '6', '7', '8', '9'}
  }

  /** The pattern character by character; \b holds between two positions of which exactly one has a word character. */
  predicate PatternAt(line: string, i: int) {
    && 0 <= i && i + 14 <= |line| && WordAt(line, i - 1) != WordAt(line, i)
    && line[i] == 'e' && line[i + 1] == 'x' && line[i + 2] == 'p' && line[i + 3] == ':'
    && DigitAt(line, i + 4) && DigitAt(line, i + 5) && DigitAt(line, i + 6) && DigitAt(line, i + 7) && line[i + 8] == '-'
    && DigitAt(line, i + 9) && DigitAt(line, i + 10) && line[i + 11] == '-'
    && DigitAt(line, i + 12) && DigitAt(line, i + 13)
    && WordAt(line, i + 13) != WordAt(line, i + 14)
  }

  lemma ExpAtIsThePattern(line: string, i: int)
    ensures ExpAt(line, i) <==> PatternAt(line, i)
  {
    if 0 <= i && i + 14 <= |line| {
      var date := line[i + 4..i + 14];
      assert date[0] == line[i + 4] && date[1] == line[i + 5] && date[2] == line[i + 6] && date[3] == line[i + 7];
      assert date[4] == line[i + 8] && date[5] == line[i + 9] && date[6] == line[i + 10] && date[7] == line[i + 11];
      assert date[8] == line[i + 12] && date[9] == line[i + 13];
      ExpPrefix(line, i);
    }
  }

  lemma ExpPrefix(line: string, i: int)
    requires 0 <= i && i + 4 <= |line|
    ensures line[i..i + 4] == "exp:" <==> line[i] == 'e' && line[i + 1] == 'x' && line[i + 2] == 'p' && line[i + 3] == ':'
  {
    var four := line[i..i + 4];
    assert four[0] == line[i] && four[1] == line[i + 1] && four[2] == line[i + 2] && four[3] == line[i + 3];
    var exp := "exp:";
    assert exp[0] == 'e' && exp[1] == 'x' && exp[2] == 'p' && exp[3] == ':';
    if four[0] == 'e' && four[1] == 'x' && four[2] == 'p' && four[3] == ':' {
      assert forall j :: 0 <= j < 4 ==> four[j] == exp[j];
      assert four == exp;
    }
  }

  /** The first match from position `i` on. */
  function FindExp(line: string, i: nat): Option<string>
    decreases |line| + 1 - i
  {
    if i > |line| then None
    else if ExpAt(line, i) then Some(line[i + 4..i + 14])
    else FindExp(line, i + 1)
  }

  /** The search finds a date exactly when the pattern matches somewhere, and then the leftmost one. */
  lemma {:induction false} FindExpIsLeftmost(line: string, i: nat, k: int)
    requires i <= k && PatternAt(line, k) && forall j :: i <= j < k ==> !PatternAt(line, j)
    ensures FindExp(line, i) == Some(line[k + 4..k + 14])
    decreases k - i
  {
    hide ExpAt, PatternAt;
    ExpAtIsThePattern(line, i);
    assert k <= |line| by {
      PatternFits(line, k);
    }
    if i < k {
      FindExpIsLeftmost(line, i + 1, k);
    }
  }

  lemma {:induction false} FindExpFindsAMatch(line: string, i: nat)
    ensures FindExp(line, i).Some? ==> exists k :: i <= k && PatternAt(line, k)
    decreases |line| + 1 - i
  {
    hide ExpAt, PatternAt;
    ExpAtIsThePattern(line, i);
    if i <= |line| && !ExpAt(line, i) {
      FindExpFindsAMatch(line, i + 1);
    }
  }

  lemma PatternFits(line: string, k: int)
    requires PatternAt(line, k)
    ensures 0 <= k && k + 14 <= |line|
  {
  }

  datatype Entry = Entry(id: string, reason: Option<string>, exp: Option<string>, lineNo: nat)

  /** The declarative rule: the reason is the comment on the immediately preceding line, if there is one. */
  function ReasonAbove(lines: seq<string>, i: int): Option<string>
    requires 0 <= i <= |lines|
  {
    if i > 0 && IsComment(lines[i - 1]) then Some(CommentText(lines[i - 1])) else None
  }

  function EntryAt(lines: seq<string>, i: int): Entry
    requires 0 <= i < |lines|
  {
    var t := Trim(lines[i]);
    Entry(FirstWord(t), ReasonAbove(lines, i), FindExp(t, 0), i + 1)
  }

  /** One entry per entry line among the first `n` lines, in order. */
  function EntriesOf(lines: seq<string>, n: nat): seq<Entry>
    requires n <= |lines|
  {
    if n == 0 then []
    else EntriesOf(lines, n - 1) + if IsEntry(lines[n - 1]) then [EntryAt(lines, n - 1)] else []
  }

  /** parse: one variable carries the reason from line to line, and ends up with the declarative pairing. */
  method Parse(text: string) returns (entries: seq<Entry>)
    ensures entries == EntriesOf(Lines(text), |Lines(text)|)
  {
    var lines := Lines(text);
    var reason: Option<string> := None;
    entries := [];
    for i := 0 to |lines|
      invariant entries == EntriesOf(lines, i)
      invariant reason == ReasonAbove(lines, i)
    {
      var line := Trim(lines[i]);
      if line == "" {
        reason := None;
      } else if line[0] == '#' {
        reason := Some(Trim(line[1..]));
      } else {
        entries := entries + [Entry(FirstWord(line), reason, FindExp(line, 0), i + 1)];
        reason := None;
      }
    }
  }

  datatype Problem = NeedsReason | NeedsExp | TooFarOut

  /** What checkEntries reports for one entry; an unparsable date compares false and so is not reported. */
  function ProblemOf(e: Entry, today: int, parseDate: string -> Option<int>): Option<Problem> {
    if e.reason.None? || e.reason.value == "" then Some(NeedsReason)
    else if e.exp.None? then Some(NeedsExp)
    else
      var date := parseDate(e.exp.value);
      if date.Some? && date.value - today > MAX_EXCEPTION_DAYS * DAY then Some(TooFarOut) else None
  }

  method CheckEntries(entries: seq<Entry>, today: int, parseDate: string -> Option<int>) returns (problems: seq<Problem>)
    ensures problems == [] <==> forall e :: e in entries ==> ProblemOf(e, today, parseDate).None?
    ensures |problems| <= |entries|
  {
    problems := [];
    for i := 0 to |entries|
      invariant problems == [] <==> forall j :: 0 <= j < i ==> ProblemOf(entries[j], today, parseDate).None?
      invariant |problems| <= i
    {
      var problem := ProblemOf(entries[i], today, parseDate);
      if problem.Some? {
        problems := problems + [problem.value];
      }
    }
  }

  /** The documented rule for the entry on line `i`: a reason directly above and an expiry at most 90 days out. */
  predicate Documented(lines: seq<string>, i: int, today: int, parseDate: string -> Option<int>)
    requires 0 <= i < |lines|
  {
    var exp := FindExp(Trim(lines[i]), 0);
    && i > 0 && IsComment(lines[i - 1]) && CommentText(lines[i - 1]) != ""
    && exp.Some? && parseDate(exp.value).Some? && parseDate(exp.value).value - today <= 90 * 86_400_000
  }

  /** The date on line `i` has the shape of a date but is not one. */
  predicate FakeDate(lines: seq<string>, i: int, parseDate: string -> Option<int>)
    requires 0 <= i < |lines|
  {
    var exp := FindExp(Trim(lines[i]), 0);
    exp.Some? && parseDate(exp.value).None?
  }

  lemma {:induction false} EntriesAreLines(lines: seq<string>, n: nat, e: Entry)
    requires n <= |lines|
    ensures e in EntriesOf(lines, n) <==> exists i :: 0 <= i < n && IsEntry(lines[i]) && e == EntryAt(lines, i)
  {
    hide IsEntry, EntryAt;
    if n > 0 {
      EntriesAreLines(lines, n - 1, e);
    }
  }

  /** Line `i` has a reason directly above, but its date is not one. */
  predicate Overlooked(lines: seq<string>, i: int, parseDate: string -> Option<int>)
    requires 0 <= i < |lines|
  {
    FakeDate(lines, i, parseDate) && i > 0 && IsComment(lines[i - 1]) && CommentText(lines[i - 1]) != ""
  }

  /** evaluate: passes exactly when every entry line of the file meets the documented rule or is overlooked. */
  method Evaluate(text: string, today: int, parseDate: string -> Option<int>) returns (ok: bool)
    ensures Lines(text) != [] && Joined(Lines(text)) == text && forall l :: l in Lines(text) ==> '\n' !in l
    ensures var lines := Lines(text);
            ok <==> forall i :: 0 <= i < |lines| && IsEntry(lines[i]) ==>
                      Documented(lines, i, today, parseDate) || Overlooked(lines, i, parseDate)
  {
    hide IsEntry, EntryAt, ProblemOf, EntriesOf, Lines, Documented, Overlooked, Joined;
    LinesJoinToText(text);
    var entries := Parse(text);
    var problems := CheckEntries(entries, today, parseDate);
    ok := problems == [];
    ghost var lines := Lines(text);
    forall e
      ensures e in entries <==> exists i :: 0 <= i < |lines| && IsEntry(lines[i]) && e == EntryAt(lines, i)
    {
      EntriesAreLines(lines, |lines|, e);
    }
    assert forall i :: 0 <= i < |lines| && IsEntry(lines[i]) ==> EntryAt(lines, i) in entries;
    forall i | 0 <= i < |lines|
      ensures ProblemOf(EntryAt(lines, i), today, parseDate).None? <==>
                Documented(lines, i, today, parseDate) || Overlooked(lines, i, parseDate)
    {
      ReportedUnlessDocumented(lines, i, today, parseDate);
    }
  }

  /** An entry line is reported unless it meets the documented rule, except that a reasoned fake date slips through. */
  lemma ReportedUnlessDocumented(lines: seq<string>, i: int, today: int, parseDate: string -> Option<int>)
    requires 0 <= i < |lines|
    ensures ProblemOf(EntryAt(lines, i), today, parseDate).None? <==>
              || Documented(lines, i, today, parseDate)
              || Overlooked(lines, i, parseDate)
  {
    hide FindExp, IsComment, CommentText;
  }

  /** Which problem is reported for an entry line: the reason is checked first, then the date. */
  lemma WhatIsReported(lines: seq<string>, i: int, today: int, parseDate: string -> Option<int>)
    requires 0 <= i < |lines|
    ensures var problem := ProblemOf(EntryAt(lines, i), today, parseDate);
            var reasoned := i > 0 && IsComment(lines[i - 1]) && CommentText(lines[i - 1]) != "";
            && (problem == Some(NeedsReason) <==> !reasoned)
            && (problem == Some(NeedsExp) <==> reasoned && forall k :: k >= 0 ==> !PatternAt(Trim(lines[i]), k))
  {
    hide FindExp, IsComment, CommentText, PatternAt, Trim;
    var line := Trim(lines[i]);
    if exists k :: k >= 0 && PatternAt(line, k) {
      var k :| k >= 0 && PatternAt(line, k);
      MatchIsFound(line, 0, k);
    }
    FindExpFindsAMatch(line, 0);
  }

  lemma {:induction false} MatchIsFound(line: string, i: nat, k: int)
    requires i <= k && PatternAt(line, k)
    ensures FindExp(line, i).Some?
    decreases k - i
  {
    hide ExpAt, PatternAt;
    ExpAtIsThePattern(line, i);
    PatternFits(line, k);
    if i < k {
      MatchIsFound(line, i + 1, k);
    }
  }

  /** With calendar-valid dates the gate passes exactly the files in which every entry meets the documented rule. */
  lemma GateIsTheRule(lines: seq<string>, today: int, parseDate: string -> Option<int>)
    requires forall i :: 0 <= i < |lines| && IsEntry(lines[i]) ==> !FakeDate(lines, i, parseDate)
    ensures (forall i :: 0 <= i < |lines| && IsEntry(lines[i]) ==> ProblemOf(EntryAt(lines, i), today, parseDate).None?)
            <==> (forall i :: 0 <= i < |lines| && IsEntry(lines[i]) ==> Documented(lines, i, today, parseDate))
  {
    hide FindExp, IsComment, CommentText, IsEntry, EntryAt, ProblemOf, Documented, FakeDate;
    forall i | 0 <= i < |lines| && IsEntry(lines[i])
      ensures ProblemOf(EntryAt(lines, i), today, parseDate).None? <==> Documented(lines, i, today, parseDate)
    {
      ReportedUnlessDocumented(lines, i, today, parseDate);
    }
  }

  const FAKE := ["# why", "C exp:2026-13-45"]

  lemma FakeReason()
    ensures ReasonAbove(FAKE, 1) == Some("why")
  {
    assert TrimStart(FAKE[0]) == FAKE[0] && TrimEnd(FAKE[0]) == FAKE[0];
    assert FAKE[0][1..] == " why" && " why"[1..] == "why";
    assert TrimStart(" why") == TrimStart("why") == "why" && TrimEnd("why") == "why";
  }

  lemma FakeExp()
    ensures Trim(FAKE[1]) == FAKE[1] && IsEntry(FAKE[1])
    ensures FindExp(FAKE[1], 0) == Some("2026-13-45")
  {
    var line := FAKE[1];
    assert TrimStart(line) == line && TrimEnd(line) == line;
    FakeExpAt();
    FindExpIsLeftmost(line, 0, 2);
  }

  lemma FakeExpAt()
    ensures !ExpAt(FAKE[1], 0) && !ExpAt(FAKE[1], 1) && ExpAt(FAKE[1], 2)
    ensures FAKE[1][6..16] == "2026-13-45"
  {
    var line := FAKE[1];
    assert |line| == 16 && line[0] == 'C' && line[1] == ' ' && !IsWordChar(line[1]);
    assert line[0..4][0] == 'C' && line[1..5][0] == ' ' && "exp:"[0] == 'e';
    assert line[2..6] == "exp:";
    var date := "2026-13-45";
    assert |date| == 10 && date[4] == '-' && date[7] == '-';
    assert date[0] == '2' && date[1] == '0' && date[2] == '2' && date[3] == '6';
    assert date[5] == '1' && date[6] == '3' && date[8] == '4' && date[9] == '5';
    assert IsDateShape(date);
    assert line[6..16] == date;
  }

  /** A month 13 makes the entry permanent as far as this gate is concerned. */
  lemma FakeDatePasses(today: int, parseDate: string -> Option<int>)
    requires parseDate("2026-13-45") == None
    ensures IsEntry(FAKE[1]) && ProblemOf(EntryAt(FAKE, 1), today, parseDate).None?
    ensures !Documented(FAKE, 1, today, parseDate)
  {
    FakeReason();
    FakeExp();
    hide FindExp, IsComment, CommentText, Trim, IsEntry, ReasonAbove;
  }
}
