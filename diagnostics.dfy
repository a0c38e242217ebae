/** Turning the matches of the rule's `error-rx` pattern into diagnostics: trimmed
    texts, numbers parsed as unsigned 32-bit values, and 1-based positions made
    0-based. */
module Diagnostics {
  import opened Text
  import opened CodeGenerator

  /** One match of the pattern: whether it succeeded and the text of each named
      group that took part in it. */
  datatype Match = Match(success: bool, groups: map<string, string>)

  /** `m.Groups[name].Value`: the empty text for a group that is absent. */
  function Group(m: Match, name: string): string {
    if name in m.groups then m.groups[name] else ""
  }

  /** The record built for one successful match. */
  datatype Diagnostic = Diagnostic(filename: string, code: string, message: string, level: UInt32, row: UInt32, column: UInt32)

  /** A 1-based position made 0-based; 0 stays 0, so nothing underflows. */
  function ZeroBased(n: UInt32): (r: UInt32)
    ensures r as int == if n > 0 then n as int - 1 else 0
  {
    if n > 0 then n - 1 else 0
  }

  /** The diagnostic of one match: its texts trimmed, its level as parsed (0 when
      absent or unparsable) and its position made 0-based, so that neither row
      nor column can be the largest 32-bit value. */
  function DiagnosticOf(m: Match): (d: Diagnostic)
    ensures d.row < UInt32Limit - 1 && d.column < UInt32Limit - 1
  {
    Diagnostic(
      Trim(Group(m, "filename")),
      Trim(Group(m, "code")),
      Trim(Group(m, "message")),
      TryParseUInt32(Group(m, "level")),
      ZeroBased(TryParseUInt32(Group(m, "row"))),
      ZeroBased(TryParseUInt32(Group(m, "column"))))
  }

  /** Neither end of `s` is white space. */
  predicate IsTrimmed(s: string) {
    |s| > 0 ==> !IsWhiteSpace(s[0]) && !IsWhiteSpace(s[|s| - 1])
  }

  /** The texts of a diagnostic are the match's own groups with the surrounding
      white space removed (an absent group counts as empty). */
  lemma DiagnosticTextsTrimmed(m: Match)
    ensures var d := DiagnosticOf(m);
      && d.filename == Trim(Group(m, "filename"))
      && d.code == Trim(Group(m, "code"))
      && d.message == Trim(Group(m, "message"))
      && IsTrimmed(d.filename) && IsTrimmed(d.code) && IsTrimmed(d.message)
  {
  }

  /** The diagnostics of the matches, in match order, one per successful match. */
  function MatchDiagnostics(matches: seq<Match>): (r: seq<Diagnostic>)
    ensures |r| <= |matches|
  {
    if |matches| == 0 then []
    else
      var last := matches[|matches| - 1];
      MatchDiagnostics(matches[..|matches| - 1]) + (if last.success then [DiagnosticOf(last)] else [])
  }

  /** Every diagnostic is the diagnostic of a successful match. */
  lemma {:induction false} DiagnosticsFromSuccessfulMatches(matches: seq<Match>)
    ensures forall d :: d in MatchDiagnostics(matches) ==>
      exists m :: m in matches && m.success && d == DiagnosticOf(m)
  {
    if |matches| > 0 {
      var init := matches[..|matches| - 1];
      var last := matches[|matches| - 1];
      DiagnosticsFromSuccessfulMatches(init);
      forall d | d in MatchDiagnostics(matches)
        ensures exists m :: m in matches && m.success && d == DiagnosticOf(m)
      {
        if d in MatchDiagnostics(init) {
          var m :| m in init && m.success && d == DiagnosticOf(m);
          assert m in matches;
        } else {
          assert last in matches;
        }
      }
    }
  }

  /** The report `GeneratorError(level, message, row, column)` hands to the sink. */
  function ErrorReport(d: Diagnostic): ProgressReport {
    ProgressReport(0, d.level, d.message, d.row, d.column)
  }

  function ErrorReports(ds: seq<Diagnostic>): (r: seq<ProgressReport>)
    ensures |r| == |ds|
    ensures forall i :: 0 <= i < |ds| ==> r[i] == ErrorReport(ds[i])
  {
    if |ds| == 0 then [] else ErrorReports(ds[..|ds| - 1]) + [ErrorReport(ds[|ds| - 1])]
  }

  /** The level reported is the parsed `level` group, and 0 when that group is
      absent or does not parse: the initial 1 never survives. */
  lemma LevelOfMatch(m: Match)
    ensures ParseUInt32(Group(m, "level")).Some? ==> DiagnosticOf(m).level == ParseUInt32(Group(m, "level")).value
    ensures ParseUInt32(Group(m, "level")).None? ==> DiagnosticOf(m).level == 0
    ensures "level" !in m.groups ==> DiagnosticOf(m).level == 0
  {
    if "level" !in m.groups {
      ParseBlank(Group(m, "level"));
    }
  }

  /** A row (column) group holding the decimal text of `n` is reported as `n - 1`
      when `n > 0` and as 0 otherwise; an absent group is reported as 0. */
  lemma PositionOfMatch(m: Match, row: UInt32, column: UInt32)
    requires Group(m, "row") == DecimalString(row) && Group(m, "column") == DecimalString(column)
    ensures DiagnosticOf(m).row as int == if row > 0 then row as int - 1 else 0
    ensures DiagnosticOf(m).column as int == if column > 0 then column as int - 1 else 0
  {
    ParseDecimal(row);
    ParseDecimal(column);
  }

  /** Whatever the row (column) group holds: when `UInt32.TryParse` accepts it,
      the parsed value made 0-based is reported, and otherwise 0. */
  lemma PositionOfAnyMatch(m: Match)
    ensures var row := ParseUInt32(Group(m, "row"));
      && (row.Some? ==> DiagnosticOf(m).row == ZeroBased(row.value))
      && (row.None? ==> DiagnosticOf(m).row == 0)
    ensures var column := ParseUInt32(Group(m, "column"));
      && (column.Some? ==> DiagnosticOf(m).column == ZeroBased(column.value))
      && (column.None? ==> DiagnosticOf(m).column == 0)
  {
  }

  lemma AbsentPositionIsZero(m: Match)
    ensures "row" !in m.groups ==> DiagnosticOf(m).row == 0
    ensures "column" !in m.groups ==> DiagnosticOf(m).column == 0
  {
    ParseBlank("");
  }

  /** Matches are reported in order: the diagnostics of two runs of matches are the
      diagnostics of the first followed by those of the second. */
  lemma {:induction false} DiagnosticsAppend(a: seq<Match>, b: seq<Match>)
    ensures MatchDiagnostics(a + b) == MatchDiagnostics(a) + MatchDiagnostics(b)
  {
    if |b| == 0 {
      assert a + b == a;
    } else {
      var last := b[|b| - 1];
      assert (a + b)[..|a + b| - 1] == a + b[..|b| - 1];
      DiagnosticsAppend(a, b[..|b| - 1]);
    }
  }

  /** One more match adds the report of its diagnostic, when it succeeded. */
  lemma ReportsOfPrefix(start: seq<ProgressReport>, matches: seq<Match>, i: nat)
    requires i < |matches|
    ensures start + ErrorReports(MatchDiagnostics(matches[..i + 1]))
      == start + ErrorReports(MatchDiagnostics(matches[..i]))
         + (if matches[i].success then [ErrorReport(DiagnosticOf(matches[i]))] else [])
  {
    var ds := MatchDiagnostics(matches[..i]);
    var extra := if matches[i].success then [DiagnosticOf(matches[i])] else [];
    assert matches[..i + 1][..i] == matches[..i];
    assert MatchDiagnostics(matches[..i + 1]) == ds + extra;
    ReportsOfConcat(ds, extra);
  }

  /** The reports of two runs of diagnostics, one after the other. */
  lemma ReportsOfConcat(ds: seq<Diagnostic>, extra: seq<Diagnostic>)
    ensures ErrorReports(ds + extra) == ErrorReports(ds) + ErrorReports(extra)
  {
  }

  /** Exactly one diagnostic per successful match, none for a failed one. */
  lemma DiagnosticsOfOne(m: Match)
    ensures MatchDiagnostics([m]) == if m.success then [DiagnosticOf(m)] else []
  {
    assert [m][..0] == [];
  }

  function SuccessCount(matches: seq<Match>): nat {
    if |matches| == 0 then 0
    else SuccessCount(matches[1..]) + if matches[0].success then 1 else 0
  }

  /** There are as many diagnostics as successful matches. */
  lemma {:induction false} DiagnosticsCount(matches: seq<Match>)
    ensures |MatchDiagnostics(matches)| == SuccessCount(matches)
  {
    if |matches| > 0 {
      DiagnosticsCount(matches[1..]);
      DiagnosticsAppend([matches[0]], matches[1..]);
      DiagnosticsOfOne(matches[0]);
      assert [matches[0]] + matches[1..] == matches;
    }
  }

  /** When every match succeeded, the k-th diagnostic comes from the k-th match. */
  lemma {:induction false} DiagnosticsOfSuccessful(matches: seq<Match>, k: nat)
    requires forall i :: 0 <= i < |matches| ==> matches[i].success
    requires k < |matches|
    ensures |MatchDiagnostics(matches)| == |matches|
    ensures MatchDiagnostics(matches)[k] == DiagnosticOf(matches[k])
  {
    var init := matches[..|matches| - 1];
    if k < |matches| - 1 {
      DiagnosticsOfSuccessful(init, k);
    } else if |init| > 0 {
      DiagnosticsOfSuccessful(init, 0);
    }
  }

  /** A match of `file.xml(4,2): error E100: bad token` with row 4, column 2, code
      E100 and message " bad token", and no level group. */
  const ExampleMatch: Match :=
    Match(true, map["filename" := "file.xml", "row" := "4", "column" := "2", "code" := "E100", "message" := " bad token"])

  lemma ExamplePosition()
    ensures DiagnosticOf(ExampleMatch).row == 3 && DiagnosticOf(ExampleMatch).column == 1
  {
    var m := ExampleMatch;
    assert Group(m, "row") == "4" == DecimalString(4);
    assert Group(m, "column") == "2" == DecimalString(2);
    PositionOfMatch(m, 4, 2);
  }

  lemma ExampleTexts()
    ensures DiagnosticOf(ExampleMatch).filename == "file.xml"
    ensures DiagnosticOf(ExampleMatch).code == "E100"
    ensures DiagnosticOf(ExampleMatch).message == "bad token"
  {
    ExampleFileNameAndCode();
    ExampleMessage();
  }

  lemma ExampleFileNameAndCode()
    ensures Trim(Group(ExampleMatch, "filename")) == "file.xml"
    ensures Trim(Group(ExampleMatch, "code")) == "E100"
  {
    var m := ExampleMatch;
    assert Group(m, "filename") == "file.xml";
    TrimUntrimmed("file.xml");
    assert Group(m, "code") == "E100";
    TrimUntrimmed("E100");
  }

  lemma ExampleMessage()
    ensures Trim(Group(ExampleMatch, "message")) == "bad token"
  {
    assert Group(ExampleMatch, "message") == [' '] + "bad token";
    TrimLeadingBlank("bad token");
  }

  /** The example has no level group. */
  lemma ExampleHasNoLevel()
    ensures "level" !in ExampleMatch.groups
  {
    var keys := ["filename", "row", "column", "code", "message"];
    assert |"level"| == 5;
    assert |keys[0]| == 8 && |keys[1]| == 3 && |keys[2]| == 6 && |keys[3]| == 4 && |keys[4]| == 7;
    assert ExampleMatch.groups.Keys == {keys[0], keys[1], keys[2], keys[3], keys[4]};
  }

  /** It is reported at line 3, column 1, with level 0. */
  lemma ToolErrorExample()
    ensures DiagnosticOf(ExampleMatch) == Diagnostic("file.xml", "E100", "bad token", 0, 3, 1)
  {
    var d := DiagnosticOf(ExampleMatch);
    ExamplePosition();
    ExampleTexts();
    assert d.filename == "file.xml" && d.code == "E100" && d.message == "bad token";
    assert d.row == 3 && d.column == 1;
    ExampleHasNoLevel();
    LevelOfMatch(ExampleMatch);
    assert d == Diagnostic(d.filename, d.code, d.message, d.level, d.row, d.column);
  }
}
