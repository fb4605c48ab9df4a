/** Where one source's findings end and another's begin: which tools an ingest keeps apart. */
module SourceScope {
  import opened Common
  import opened Strings
  import opened Findings
  import opened SarifIngest
  import opened FindingHistory

  // ---------------------------------------------------------------------------------------
  // What it means to keep sources apart
  // ---------------------------------------------------------------------------------------

  /** A name as findings are filed under it: stripped and in lower case. */
  predicate IsToolName(tool: string) {
    Strip(tool) == tool && Lower(tool) == tool
  }

  /** A document filed under one tool, with at least one run. */
  ghost predicate IsReport(doc: Document, tool: string) {
    doc != [] && PlainPaths(doc) && forall run :: run in doc ==> ToolOf(run) == tool
  }

  /** A table as the native audit and earlier ingests leave it, at paths without a colon. */
  ghost predicate Fit(t: Table) {
    Keyed(t) && PlainTable(t)
  }

  /** What a document of the tool reports is open afterwards. */
  ghost predicate KeepsReported(tool: string) {
    forall t, repo, doc, now, f ::
      Fit(t) && IsReport(doc, tool) && f in ParsedFindings(doc) ==> Open(Ingested(t, repo, doc, now), KeyOf(repo, f))
  }

  /** What the tool reported before and does not report now is closed. */
  ghost predicate ClosesUnreported(tool: string) {
    forall t, repo, before, at, doc, now, f ::
      Fit(t) && IsReport(before, tool) && IsReport(doc, tool) && f in ParsedFindings(before)
      && KeyOf(repo, f) !in Seen(repo, Sightings(ParsedFindings(doc), now)) ==>
        !Open(Ingested(Ingested(t, repo, before, at), repo, doc, now), KeyOf(repo, f))
  }

  /** Native findings stay as they are. */
  ghost predicate LeavesNativeAlone(tool: string) {
    forall t: Table, repo, doc, now, fp ::
      Fit(t) && IsReport(doc, tool) && fp in t && t[fp].findingType in NATIVE_TYPES ==>
        fp in Ingested(t, repo, doc, now) && Ingested(t, repo, doc, now)[fp] == t[fp]
  }

  /** So does what any other tool has reported whose name holds no colon. */
  ghost predicate LeavesOthersAlone(tool: string) {
    forall t, repo, other, before, at, doc, now, f ::
      Fit(t) && other != tool && ':' !in other && IsReport(before, other) && IsReport(doc, tool)
      && f in ParsedFindings(before) ==>
        SameRow(Ingested(t, repo, before, at), Ingested(Ingested(t, repo, before, at), repo, doc, now), KeyOf(repo, f))
  }

  predicate SameRow(t: Table, t': Table, fp: Fingerprint) {
    fp in t && fp in t' && t'[fp] == t[fp]
  }

  // ---------------------------------------------------------------------------------------
  // A clean name keeps sources apart
  // ---------------------------------------------------------------------------------------

  /** Runs without a name, or with an empty one, are filed under this one. */
  const DEFAULT_TOOL := "external"

  lemma UnnamedIsExternal()
    ensures IsToolName(DEFAULT_TOOL) && CleanTool(DEFAULT_TOOL)
  {
    StripStrips(DEFAULT_TOOL);
    assert Lower(DEFAULT_TOOL) == DEFAULT_TOOL;
  }

  lemma RunsAreNamed(doc: Document, tool: string)
    requires IsReport(doc, tool) && tool != DEFAULT_TOOL
    ensures forall run :: run in doc ==> run.name != Some("") && ResolveNameOf(run) == tool
  {
    UnnamedIsExternal();
    forall run | run in doc
      ensures run.name != Some("") && ResolveNameOf(run) == tool
    {
      EmptyNameIsNeverResolved(run);
    }
  }

  lemma ReportOfCleanTool(doc: Document, tool: string)
    requires IsReport(doc, tool) && CleanTool(tool) && tool != DEFAULT_TOOL
    ensures CleanDocument(doc)
  {
    RunsAreNamed(doc, tool);
  }

  /** The resolve passes of a report are those of its tool and, if a run's name is empty, of the empty name. */
  lemma ResolvedNames(doc: Document, tool: string)
    requires IsReport(doc, tool)
    ensures ToolsIn(doc) <= {tool, ""}
  {
    hide ToolOf, ResolveNameOf;
    forall run | run in doc
      ensures ResolveNameOf(run) == tool || ResolveNameOf(run) == ""
    {
      EmptyNameIsNeverResolved(run);
      EmptyNameResolves(run);
    }
  }

  lemma EmptyNameResolves(run: SarifRun)
    ensures run.name == Some("") ==> ResolveNameOf(run) == ""
  {
  }

  /** The row of a reported finding: in this repository, plain, and with the tool in front. */
  lemma ReportedRow(t: Table, repo: RepoId, doc: Document, now: Time, f: Finding, tool: string)
    requires Fit(t) && IsReport(doc, tool) && f in ParsedFindings(doc) && ':' !in tool
    ensures var after, fp := Ingested(t, repo, doc, now), KeyOf(repo, f);
      && Fit(after) && fp in after && after[fp].repo == repo
      && PlainColumns(after[fp].path, after[fp].findingType) && FirstField(after[fp].findingType) == tool
    ensures KeyOf(repo, f) in Seen(repo, Sightings(ParsedFindings(doc), now))
  {
    hide Like, Key, KeyOf, ParsedFindings, PlainColumns, FirstField;
    var findings := ParsedFindings(doc);
    var sightings := Sightings(findings, now);
    var after, fp := Ingested(t, repo, doc, now), KeyOf(repo, f);
    var i :| 0 <= i < |findings| && findings[i] == f;
    assert sightings[i] == Sighting(f, now) && sightings[i] in sightings;
    AllUpsertedKeeps(t, repo, sightings);
    AllUpsertedOpens(t, repo, sightings);
    IngestKeeps(t, repo, doc, now);
    RowOfKey(after, repo, f, fp);
    ParsedIsPlain(doc, f);
    PlainPath(f.path, f.findingType);
    PlainPath(after[fp].path, after[fp].findingType);
    SameKeySameFront(repo, f, after[fp]);
    ParsedFront(doc, tool, f);
  }

  lemma RowOfKey(t: Table, repo: RepoId, f: Finding, fp: Fingerprint)
    requires Keyed(t) && fp in t && fp == KeyOf(repo, f)
    ensures KeyOf(repo, f) == Key(t[fp].repo, t[fp].path, t[fp].findingType, t[fp].ref)
  {
  }

  lemma ParsedFront(doc: Document, tool: string, f: Finding)
    requires IsReport(doc, tool) && f in ParsedFindings(doc) && ':' !in tool
    ensures FirstField(f.findingType) == tool
  {
    var run, result := ParsedComesFrom(doc, f);
    FirstFieldStops(tool, RuleOf(result));
  }

  lemma FiledUnderFront(findingType: string, tool: string)
    requires ':' !in tool && FiledUnder(findingType, tool)
    ensures FirstField(findingType) == tool && findingType !in NATIVE_TYPES
  {
    assert findingType == tool + ":" + findingType[|tool| + 1..];
    FirstFieldStops(tool, findingType[|tool| + 1..]);
    assert findingType[|tool|] == ':';
    if findingType in NATIVE_TYPES {
      NativeTypes(findingType);
    }
  }

  /** What an ingest of a clean tool, all of its runs named, does to a plain row. */
  lemma CleanIngest(t: Table, repo: RepoId, doc: Document, now: Time, tool: string, fp: Fingerprint)
    requires Fit(t) && CleanDocument(doc) && IsReport(doc, tool) && fp in t
    ensures var after := Ingested(t, repo, doc, now);
      fp in after && if t[fp].repo == repo && FiledUnder(t[fp].findingType, tool)
        then Open(after, fp) <==> fp in Seen(repo, Sightings(ParsedFindings(doc), now))
        else after[fp] == t[fp]
  {
    hide Like, Key, ParsedFindings, PlainColumns, Ingested, FiledUnder;
    ToolOfCleanReport(doc, tool);
    IngestKeeps(t, repo, doc, now);
    IngestIsScoped(t, repo, doc, now, fp);
  }

  lemma ToolOfCleanReport(doc: Document, tool: string)
    requires CleanDocument(doc) && IsReport(doc, tool)
    ensures ToolsIn(doc) == {tool}
  {
    forall run | run in doc
      ensures ResolveNameOf(run) == tool
    {
      EmptyNameIsNeverResolved(run);
    }
    assert doc[0] in doc;
  }

  /** What a report of a tool without a colon in its name says is open afterwards, wildcards or not. */
  lemma ColonFreeKeepsReported(tool: string)
    requires ':' !in tool
    ensures KeepsReported(tool)
  {
    hide Like, Key, KeyOf, ParsedFindings, PlainColumns, Ingested, FiledUnder, FirstField, Fit;
    forall t, repo, doc, now, f | Fit(t) && IsReport(doc, tool) && f in ParsedFindings(doc)
      ensures Open(Ingested(t, repo, doc, now), KeyOf(repo, f))
    {
      ReportIsOpen(t, repo, doc, now, f, tool);
    }
  }

  lemma ReportIsOpen(t: Table, repo: RepoId, doc: Document, now: Time, f: Finding, tool: string)
    requires Fit(t) && IsReport(doc, tool) && f in ParsedFindings(doc) && ':' !in tool
    ensures Open(Ingested(t, repo, doc, now), KeyOf(repo, f))
  {
    hide Like, PatternOf, Key, KeyOf, ParsedFindings, PlainColumns, FirstField, ToolsIn, AllUpserted, Seen, Sightings;
    var findings := ParsedFindings(doc);
    var u, fp := AllUpserted(t, repo, Sightings(findings, now)), KeyOf(repo, f);
    ReportedRow(t, repo, doc, now, f, tool);
    ParsedFront(doc, tool, f);
    AllUpsertedOpens(t, repo, Sightings(findings, now));
    ResolvedNames(doc, tool);
    assert fp in SeenFor(repo, findings, tool);
    if Like(PatternOf(""), u[fp].findingType) {
      UnnamedSelects(u[fp].findingType);
    }
  }

  lemma UnnamedSelects(findingType: string)
    requires Like(PatternOf(""), findingType)
    ensures FirstField(findingType) == ""
  {
  }

  lemma CleanToolClosesUnreported(tool: string)
    requires CleanTool(tool) && tool != DEFAULT_TOOL
    ensures ClosesUnreported(tool)
  {
    hide Like, Key, KeyOf, ParsedFindings, PlainColumns, Ingested, FiledUnder, FirstField, Seen, Sightings;
    forall t, repo, before, at, doc, now, f |
      Fit(t) && IsReport(before, tool) && IsReport(doc, tool) && f in ParsedFindings(before)
      && KeyOf(repo, f) !in Seen(repo, Sightings(ParsedFindings(doc), now))
      ensures !Open(Ingested(Ingested(t, repo, before, at), repo, doc, now), KeyOf(repo, f))
    {
      var u, fp := Ingested(t, repo, before, at), KeyOf(repo, f);
      ReportedRow(t, repo, before, at, f, tool);
      FrontIsTool(u[fp].path, u[fp].findingType, tool);
      ReportOfCleanTool(doc, tool);
      CleanIngest(u, repo, doc, now, tool, fp);
    }
  }

  lemma CleanToolLeavesOthersAlone(tool: string)
    requires CleanTool(tool) && tool != DEFAULT_TOOL
    ensures LeavesOthersAlone(tool)
  {
    hide Like, Key, KeyOf, ParsedFindings, PlainColumns, Ingested, FiledUnder, FirstField, Seen, Sightings;
    forall t, repo, other, before, at, doc, now, f |
      Fit(t) && other != tool && ':' !in other && IsReport(before, other) && IsReport(doc, tool)
      && f in ParsedFindings(before)
      ensures SameRow(Ingested(t, repo, before, at), Ingested(Ingested(t, repo, before, at), repo, doc, now),
                      KeyOf(repo, f))
    {
      var u, fp := Ingested(t, repo, before, at), KeyOf(repo, f);
      ReportedRow(t, repo, before, at, f, other);
      ReportOfCleanTool(doc, tool);
      CleanIngest(u, repo, doc, now, tool, fp);
      if FiledUnder(u[fp].findingType, tool) {
        FiledUnderFront(u[fp].findingType, tool);
      }
    }
  }

  // ---------------------------------------------------------------------------------------
  // Any other name does not
  // ---------------------------------------------------------------------------------------

  const WORKFLOW := ".github/workflows/ci.yml"

  function Hit(rule: string): SarifResult {
    SarifResult(Some(rule), None, None, Some(WORKFLOW), None, None)
  }

  /** One run of a tool: with one result, or with none. */
  function Loud(tool: string, rule: string): Document {
    [SarifRun(Some(tool), [], [Hit(rule)])]
  }

  function Quiet(tool: string): Document {
    [SarifRun(Some(tool), [], [])]
  }

  function Reported(tool: string, rule: string): Finding {
    Finding(Some(WORKFLOW), tool + ":" + rule, Some(rule), Medium, rule)
  }

  lemma NameIsTool(tool: string, run: SarifRun)
    requires IsToolName(tool) && tool != "" && run.name == Some(tool)
    ensures ToolOf(run) == tool && ResolveNameOf(run) == tool
  {
  }

  lemma LoudReport(tool: string, rule: string)
    requires IsToolName(tool) && tool != "" && rule != "" && Strip("") == ""
    ensures IsReport(Loud(tool, rule), tool) && ParsedFindings(Loud(tool, rule)) == [Reported(tool, rule)]
    ensures ToolsIn(Loud(tool, rule)) == {tool}
  {
    hide ToolOf, ResolveNameOf, Lower, Strip;
    var doc := Loud(tool, rule);
    NameIsTool(tool, doc[0]);
    assert ':' !in WORKFLOW;
    assert doc[..0] == [] && RunFindings(doc[0], 1) == RunFindings(doc[0], 0) + [FindingOf(doc[0], Hit(rule))];
    assert FindingOf(doc[0], Hit(rule)) == Reported(tool, rule);
    assert doc[0] in doc;
  }

  lemma QuietReport(tool: string)
    requires IsToolName(tool) && tool != ""
    ensures IsReport(Quiet(tool), tool) && ParsedFindings(Quiet(tool)) == [] && ToolsIn(Quiet(tool)) == {tool}
  {
    hide ToolOf, ResolveNameOf, Lower, Strip;
    var doc := Quiet(tool);
    NameIsTool(tool, doc[0]);
    assert doc[..0] == [] && RunFindings(doc[0], 0) == [];
    assert doc[0] in doc;
  }

  /** The one finding of a first ingest is open unless the resolve pass selects it and takes it for another tool's. */
  lemma AfterLoud(tool: string, rule: string)
    requires IsToolName(tool) && tool != "" && rule != ""
    ensures var after, fp := Ingested(map[], 0, Loud(tool, rule), 0), KeyOf(0, Reported(tool, rule));
      && fp in after && fp != "" && after[fp].repo == 0 && after[fp].findingType == tool + ":" + rule
      && (Open(after, fp) <==> !Like(PatternOf(tool), tool + ":" + rule) || FirstField(tool + ":" + rule) == tool)
    ensures Fit(map[])
  {
    hide Like, PatternOf, FirstField, Loud, IsToolName, ToolsIn, Strip, Lower, KeyOf, AllUpserted, SeenFor;
    var f, fp := Reported(tool, rule), KeyOf(0, Reported(tool, rule));
    StripEmpty();
    LoudReport(tool, rule);
    UpsertedOnce(f);
    SeenForOne(f, tool);
    assert tool in ToolsIn(Loud(tool, rule));
  }

  lemma StripEmpty()
    ensures Strip("") == ""
  {
  }

  lemma UpsertedOnce(f: Finding)
    ensures AllUpserted(map[], 0, Sightings([f], 0)) ==
      map[KeyOf(0, f) := Row(0, f.path, f.findingType, f.ref, f.severity, f.message, 0, 0, None)]
    ensures KeyOf(0, f) != "" && Fit(map[])
  {
    hide KeyOf;
    var sightings := Sightings([f], 0);
    assert sightings == [Sighting(f, 0)] && sightings[..0] == [];
    assert AllUpserted(map[], 0, sightings) == Upserted(AllUpserted(map[], 0, []), 0, f, 0);
    KeyIsNotEmpty(f);
  }

  lemma KeyIsNotEmpty(f: Finding)
    ensures KeyOf(0, f) != ""
  {
  }

  lemma SeenForOne(f: Finding, tool: string)
    ensures SeenFor(0, [f], tool) == if FirstField(f.findingType) == tool then {KeyOf(0, f)} else {}
  {
    assert f in [f];
  }

  /** A document without results closes what its pattern selects. */
  lemma AfterQuiet(t: Table, tool: string, fp: Fingerprint)
    requires IsToolName(tool) && tool != "" && fp in t && t[fp].repo == 0 && Open(t, fp) && fp != ""
    ensures Open(Ingested(t, 0, Quiet(tool), 1), fp) <==> !Like(PatternOf(tool), t[fp].findingType)
    ensures Seen(0, Sightings(ParsedFindings(Quiet(tool)), 1)) == {}
  {
    QuietReport(tool);
    hide Like, PatternOf, Quiet, IsToolName, ToolsIn, FirstField;
    assert Sightings([], 1) == [];
    assert SeenFor(0, [], tool) == {};
    assert tool in ToolsIn(Quiet(tool));
  }

  /** A wildcard absorbs anything put before what it matched. */
  lemma {:induction false} PercentAbsorbs(rest: string, y: string, s: string)
    requires Like("%" + rest, s)
    ensures Like("%" + rest, y + s)
  {
    if y == "" {
      assert y + s == s;
    } else {
      PercentAbsorbs(rest, y[1..], s);
      assert (y + s)[1..] == y[1..] + s;
    }
  }

  /** Where a pattern can be cut after one character of it. */
  lemma PatternTail(p: string, k: nat)
    requires k <= |p|
    ensures PatternOf(p)[k..] == PatternOf(p[k..])
  {
  }

  /**
   A name that its own pattern still matches, but not literally, has a pattern that matches
   another name: the two differ in one letter, or the other is cut off at a wildcard.
   */
  lemma {:induction false} OtherName(p: string, s: string, rule: string) returns (x: string, r: string)
    requires ':' !in p && ':' !in s && (p == s || |p| < |s|)
    requires |p| < |s| || HasWildcard(p) || '\\' in p
    requires Like(PatternOf(p), s + ":" + rule) && rule != ""
    ensures Like(PatternOf(p), x + ":" + r) && r != "" && x != s && x != "" && ':' !in x
    ensures forall c :: c in x ==> c in s || c == 'a' || c == 'b'
    ensures (x[0] == s[0] || x[0] == 'a' || x[0] == 'b') && (x[|x| - 1] == s[|s| - 1] || x[|x| - 1] in "ab")
    decreases |p|
  {
    x, r := "a", s + ":" + rule;
    NameIsMatched(p, s, rule);
    if p[0] == '%' {
      PatternTail(p, 1);
      assert PatternOf(p) == "%" + PatternOf(p[1..]);
      PercentAbsorbs(PatternOf(p[1..]), "a:", s + ":" + rule);
      assert "a:" + (s + ":" + rule) == x + ":" + r;
      assert p == s ==> s[0] == '%';
    } else {
      PatternTail(p, 1);
      assert (s + ":" + rule)[1..] == s[1..] + ":" + rule && (s + ":" + rule)[0] == s[0] && PatternOf(p)[0] == p[0];
      if p[0] == '_' {
        x := OneLetter(p, s, rule);
        r := rule;
      } else if p[0] == '\\' {
        assert PatternOf(p)[1] == (if |p| == 1 then ':' else p[1]) && s[0] in s;
        assert |p| > 1;
        PatternTail(p, 2);
        x, r := OtherName(p[2..], s[1..], rule);
        Prepended(p, 2, s, x, r);
        x := [s[0]] + x;
      } else {
        assert p == [p[0]] + p[1..];
        x, r := OtherName(p[1..], s[1..], rule);
        Prepended(p, 1, s, x, r);
        x := [s[0]] + x;
      }
    }
  }

  /** The colon of a pattern does not match inside a name. */
  lemma NameIsMatched(p: string, s: string, rule: string)
    requires ':' !in s && Like(PatternOf(p), s + ":" + rule)
    ensures p == "" ==> s == ""
  {
  }

  lemma OneLetter(p: string, s: string, rule: string) returns (x: string)
    requires p != "" && s != "" && p[0] == '_' && ':' !in s && Like(PatternOf(p), s + ":" + rule)
    ensures Like(PatternOf(p), x + ":" + rule) && x != s && x != "" && ':' !in x
    ensures forall c :: c in x ==> c in s || c == 'a' || c == 'b'
    ensures x[0] == 'a' || x[0] == 'b'
    ensures x[|x| - 1] == s[|s| - 1] || x[|x| - 1] in "ab"
  {
    x := [if s[0] == 'a' then 'b' else 'a'] + s[1..];
    assert (x + ":" + rule)[1..] == s[1..] + ":" + rule == (s + ":" + rule)[1..];
    assert x[0] in "ab";
  }

  /** One literal or escaped character in front of both. */
  lemma Prepended(p: string, k: nat, s: string, x: string, r: string)
    requires p != "" && s != "" && p[0] != '%' && p[0] != '_' && k <= |p|
    requires if p[0] == '\\' then k == 2 && p[1] == s[0] else k == 1 && p[0] == s[0]
    requires Like(PatternOf(p[k..]), x + ":" + r)
    ensures Like(PatternOf(p), ([s[0]] + x) + ":" + r)
  {
    PatternTail(p, k);
    assert (([s[0]] + x) + ":" + r)[1..] == x + ":" + r;
    assert PatternOf(p)[0] == p[0] && (k == 2 ==> PatternOf(p)[1] == p[1]);
  }

  lemma OtherIsToolName(tool: string, x: string)
    requires IsToolName(tool) && tool != "" && x != ""
    requires forall c :: c in x ==> c in tool || c == 'a' || c == 'b'
    requires x[0] == tool[0] || x[0] == 'a' || x[0] == 'b'
    requires x[|x| - 1] == tool[|tool| - 1] || x[|x| - 1] in "ab"
    ensures IsToolName(x)
  {
    StripStrips(tool);
    StripStrips(x);
    forall i | 0 <= i < |x|
      ensures LowerChar(x[i]) == x[i]
    {
      assert x[i] in x;
      if x[i] in tool {
        var j :| 0 <= j < |tool| && tool[j] == x[i];
        assert Lower(tool)[j] == tool[j];
      }
    }
  }

  /** A colon in the name, and a pattern that matches the name: what the tool has just reported is closed. */
  lemma OwnReportIsClosed(tool: string)
    requires IsToolName(tool) && ':' in tool && Like(PatternOf(tool), tool + ":" + "c")
    ensures !KeepsReported(tool)
  {
    hide Like, PatternOf, FirstField, Loud, IsToolName, Reported, Ingested, IsReport, Fit, KeyOf;
    var doc, f := Loud(tool, "c"), Reported(tool, "c");
    StripEmpty();
    LoudReport(tool, "c");
    AfterLoud(tool, "c");
    assert FirstField(tool + ":" + "c") != tool;
    assert f in ParsedFindings(doc);
    assert !Open(Ingested(map[], 0, doc, 0), KeyOf(0, f));
  }

  /** A pattern that does not match the name: what the tool no longer reports stays open. */
  lemma OldReportStaysOpen(tool: string)
    requires IsToolName(tool) && tool != "" && !Like(PatternOf(tool), tool + ":" + "c")
    ensures !ClosesUnreported(tool)
  {
    hide Like, PatternOf, FirstField, Loud, Quiet, IsToolName, Reported, Ingested, IsReport, Fit, KeyOf, Seen,
         Sightings;
    var before, doc, f := Loud(tool, "c"), Quiet(tool), Reported(tool, "c");
    StripEmpty();
    LoudReport(tool, "c");
    QuietReport(tool);
    AfterLoud(tool, "c");
    AfterQuiet(Ingested(map[], 0, before, 0), tool, KeyOf(0, f));
    assert f in ParsedFindings(before);
    assert Open(Ingested(Ingested(map[], 0, before, 0), 0, doc, 1), KeyOf(0, f));
  }

  /** A pattern that matches the name of another tool: an empty document closes what that tool has reported. */
  lemma OtherReportIsClosed(tool: string, other: string, rule: string)
    requires IsToolName(tool) && tool != "" && IsToolName(other) && other != "" && other != tool && ':' !in other
    requires rule != "" && Like(PatternOf(tool), other + ":" + rule)
    ensures !LeavesOthersAlone(tool)
  {
    hide Like, PatternOf, FirstField, Loud, Quiet, IsToolName, Reported, Ingested, IsReport, Fit, KeyOf, Seen,
         Sightings;
    var before, doc, f := Loud(other, rule), Quiet(tool), Reported(other, rule);
    StripEmpty();
    LoudReport(other, rule);
    QuietReport(tool);
    AfterLoud(other, rule);
    FirstFieldStops(other, rule);
    var u, fp := Ingested(map[], 0, before, 0), KeyOf(0, f);
    AfterQuiet(u, tool, fp);
    assert f in ParsedFindings(before);
    assert !SameRow(u, Ingested(u, 0, doc, 1), fp);
  }

  /** A run of the scanner without results, its name left empty. */
  const UNNAMED: Document := [SarifRun(Some(""), [], [])]

  /** It is filed under the default tool and reports nothing; yet what the default tool reported stays open. */
  lemma UnnamedRunClosesNothing(rule: string)
    requires rule != ""
    ensures var before := Loud(DEFAULT_TOOL, rule);
      var u, f := Ingested(map[], 0, before, 0), Reported(DEFAULT_TOOL, rule);
      && IsReport(before, DEFAULT_TOOL) && f in ParsedFindings(before)
      && IsReport(UNNAMED, DEFAULT_TOOL) && Seen(0, Sightings(ParsedFindings(UNNAMED), 1)) == {}
      && Open(u, KeyOf(0, f)) && Open(Ingested(u, 0, UNNAMED, 1), KeyOf(0, f))
  {
    hide Like, PatternOf, FirstField, Loud, IsToolName, CleanTool, ToolsIn, Reported, KeyOf, SeenFor;
    var before, f := Loud(DEFAULT_TOOL, rule), Reported(DEFAULT_TOOL, rule);
    StripEmpty();
    UnnamedIsExternal();
    LoudReport(DEFAULT_TOOL, rule);
    AfterLoud(DEFAULT_TOOL, rule);
    DefaultFront(rule);
    UnnamedReport();
    var u := Ingested(map[], 0, before, 0);
    assert Sightings([], 1) == [] && AllUpserted(u, 0, []) == u;
    if Like(PatternOf(""), DEFAULT_TOOL + ":" + rule) {
      UnnamedSelects(DEFAULT_TOOL + ":" + rule);
    }
    assert f in ParsedFindings(before);
  }

  lemma DefaultFront(rule: string)
    ensures FirstField(DEFAULT_TOOL + ":" + rule) == DEFAULT_TOOL != ""
  {
    FirstFieldStops(DEFAULT_TOOL, rule);
  }

  lemma UnnamedReport()
    ensures IsReport(UNNAMED, DEFAULT_TOOL) && ParsedFindings(UNNAMED) == [] && ToolsIn(UNNAMED) == {""}
  {
    UnnamedIsExternal();
    var run := UNNAMED[0];
    assert UNNAMED[..0] == [] && RunFindings(run, 0) == [];
    EmptyNameResolves(run);
    assert run in UNNAMED;
  }

  lemma DefaultToolStaysOpen()
    ensures !ClosesUnreported(DEFAULT_TOOL)
  {
    hide Loud, Reported, Ingested, IsReport, Fit, KeyOf, Seen, Sightings, ParsedFindings;
    UnnamedRunClosesNothing("c");
    EmptyTableIsFit();
    var before, f := Loud(DEFAULT_TOOL, "c"), Reported(DEFAULT_TOOL, "c");
    assert KeyOf(0, f) !in Seen(0, Sightings(ParsedFindings(UNNAMED), 1));
    assert Open(Ingested(Ingested(map[], 0, before, 0), 0, UNNAMED, 1), KeyOf(0, f));
  }

  lemma EmptyTableIsFit()
    ensures Fit(map[])
  {
  }

  /**
   Ingests filed under a tool leave what they report open, close what they no longer report, and
   leave the findings of tools without a colon in their name alone, in every table and for every
   document, exactly when the tool's name holds no colon, no wildcard of LIKE and no escape
   character and is not the name that runs with an empty one are filed under.
   */
  lemma ScopedIffClean(tool: string)
    requires IsToolName(tool)
    ensures CleanTool(tool) && tool != DEFAULT_TOOL <==>
      KeepsReported(tool) && ClosesUnreported(tool) && LeavesOthersAlone(tool)
  {
    hide IsToolName, KeepsReported, ClosesUnreported, LeavesOthersAlone, Like, PatternOf;
    if tool == DEFAULT_TOOL {
      DefaultToolStaysOpen();
    } else if CleanTool(tool) {
      ColonFreeKeepsReported(tool);
      CleanToolClosesUnreported(tool);
      CleanToolLeavesOthersAlone(tool);
    } else if !Like(PatternOf(tool), tool + ":" + "c") {
      OldReportStaysOpen(tool);
    } else if ':' in tool {
      OwnReportIsClosed(tool);
    } else {
      var other, rule := OtherName(tool, tool, "c");
      OtherIsToolName(tool, other);
      OtherReportIsClosed(tool, other, rule);
    }
  }

  // ---------------------------------------------------------------------------------------
  // Native findings
  // ---------------------------------------------------------------------------------------

  lemma ForeignNameLeavesNativeAlone(tool: string)
    requires FirstField(tool) !in NATIVE_TYPES
    ensures LeavesNativeAlone(tool)
  {
    hide FirstField, Ingested, PlainPaths, ToolOf;
    forall t: Table, repo, doc, now, fp |
      Fit(t) && IsReport(doc, tool) && fp in t && t[fp].findingType in NATIVE_TYPES
      ensures fp in Ingested(t, repo, doc, now) && Ingested(t, repo, doc, now)[fp] == t[fp]
    {
      NativeRowStays(t, repo, doc, now, tool, fp);
    }
  }

  lemma NativeRowStays(t: Table, repo: RepoId, doc: Document, now: Time, tool: string, fp: Fingerprint)
    requires Fit(t) && IsReport(doc, tool) && FirstField(tool) !in NATIVE_TYPES
    requires fp in t && t[fp].findingType in NATIVE_TYPES
    ensures fp in Ingested(t, repo, doc, now) && Ingested(t, repo, doc, now)[fp] == t[fp]
  {
    hide FirstField, Ingested, ToolOf, LeavesRowAlone, Key;
    var op := IngestOp(repo, doc, now);
    IngestKeeps(t, repo, doc, now);
    NativeRowIsLeftAlone(op, Ingested(t, repo, doc, now)[fp]);
    LeftAsItWas(t, op, fp);
  }

  /** A native row in which a tool reports a rule. */
  function NativeRow(tool: string, rest: string): Row {
    Row(0, Some(WORKFLOW), FirstField(tool), Some(rest), Info, "", 0, 0, None)
  }

  function NativeTable(tool: string, rule: string, rest: string): Table {
    map[KeyOf(0, Reported(tool, rule)) := NativeRow(tool, rest)]
  }

  /** A name that begins with a native type: there is a native row that a result of the tool overwrites. */
  lemma NativeRowIsOverwritten(tool: string, rule: string, rest: string)
    requires IsToolName(tool) && FirstField(tool) in NATIVE_TYPES && rule != ""
    requires tool + ":" + (rule + ":" + rule) == FirstField(tool) + ":" + rest
    ensures var t, fp := NativeTable(tool, rule, rest), KeyOf(0, Reported(tool, rule));
      && Fit(t) && IsReport(Loud(tool, rule), tool) && fp in t && t[fp] == NativeRow(tool, rest)
      && !SameRow(t, Ingested(t, 0, Loud(tool, rule), 1), fp)
  {
    hide Like, PatternOf, FirstField, Loud, IsToolName, Reported, IsReport, ToolsIn, SeenFor;
    var f, t := Reported(tool, rule), NativeTable(tool, rule, rest);
    NativeRowFits(tool, rule, rest);
    EmptyIsNotNative(tool);
    StripEmpty();
    LoudReport(tool, rule);
    assert Sightings([f], 1) == [Sighting(f, 1)] && [Sighting(f, 1)][..0] == [];
    assert AllUpserted(t, 0, Sightings([f], 1)) == Upserted(t, 0, f, 1);
    assert Ingested(t, 0, Loud(tool, rule), 1)[KeyOf(0, f)].lastSeen == 1;
  }

  lemma EmptyIsNotNative(tool: string)
    requires FirstField(tool) in NATIVE_TYPES
    ensures tool != ""
  {
    NativeTypes(FirstField(tool));
  }

  lemma {:induction false} FirstFieldCuts(s: string)
    requires ':' in s
    ensures |FirstField(s)| < |s| && s == FirstField(s) + ":" + s[|FirstField(s)| + 1..]
  {
    if s[0] != ':' {
      FirstFieldCuts(s[1..]);
    }
  }

  lemma NativeRowFits(tool: string, rule: string, rest: string)
    requires FirstField(tool) in NATIVE_TYPES && tool + ":" + (rule + ":" + rule) == FirstField(tool) + ":" + rest
    ensures Fit(NativeTable(tool, rule, rest))
  {
    hide FirstField;
    var f := Reported(tool, rule);
    assert f.findingType + ":" + rule == tool + ":" + (rule + ":" + rule);
    assert KeyOf(0, f) == Key(0, f.path, FirstField(tool), Some(rest));
    assert ':' !in WORKFLOW;
  }

  lemma NativeIsOverwritten(tool: string)
    requires IsToolName(tool) && FirstField(tool) in NATIVE_TYPES
    ensures !LeavesNativeAlone(tool)
  {
    hide FirstField, Loud, IsToolName, IsReport, Fit, Ingested, KeyOf, Reported;
    var whole, front := tool + ":" + ("c" + ":" + "c"), FirstField(tool);
    FirstFieldStops(tool, "c" + ":" + "c");
    FirstFieldCuts(whole);
    NativeRowIsOverwritten(tool, "c", whole[|front| + 1..]);
    var t := NativeTable(tool, "c", whole[|front| + 1..]);
    assert t[KeyOf(0, Reported(tool, "c"))].findingType in NATIVE_TYPES;
  }

  /**
   Rows of native types stay as they are, in every table and for every document filed under a tool,
   exactly when the tool's name, up to its first colon, is no native type. Wildcards do not matter.
   */
  lemma NativeAloneIff(tool: string)
    requires IsToolName(tool)
    ensures LeavesNativeAlone(tool) <==> FirstField(tool) !in NATIVE_TYPES
  {
    hide IsToolName, LeavesNativeAlone, FirstField;
    if FirstField(tool) in NATIVE_TYPES {
      NativeIsOverwritten(tool);
    } else {
      ForeignNameLeavesNativeAlone(tool);
    }
  }
}
