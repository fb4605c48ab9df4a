/**
 Ingesting a scanner's SARIF: every result becomes a finding filed under its tool, and a
 resolve pass per tool, selected with SQL's LIKE, closes what that tool no longer reports.
 */
module SarifIngest {
  import opened Common
  import opened Strings
  import opened Findings

  // ---------------------------------------------------------------------------------------
  // The document
  // ---------------------------------------------------------------------------------------

  /** `securitySeverity` is the score of result.properties when it is a number. */
  datatype SarifResult = SarifResult(ruleId: Option<string>, level: Option<string>, securitySeverity: Option<real>,
                                     uri: Option<string>, line: Option<nat>, text: Option<string>)
  datatype Rule = Rule(id: Option<string>, level: Option<string>)
  datatype SarifRun = SarifRun(name: Option<string>, rules: seq<Rule>, results: seq<SarifResult>)
  type Document = seq<SarifRun>

  /** The tool name findings are filed under. */
  function ToolOf(run: SarifRun): string {
    Lower(Strip(OrElse(run.name, "external")))
  }

  /** The tool name the resolve pass uses: here an empty name is not replaced. */
  function ResolveNameOf(run: SarifRun): string {
    Lower(Strip(if run.name.Some? then run.name.value else "external"))
  }

  function ToolsIn(doc: Document): set<string> {
    set run | run in doc :: ResolveNameOf(run)
  }

  /** Default levels by rule; a later definition of a rule replaces an earlier one. */
  function RuleLevels(rules: seq<Rule>): map<string, string> {
    if rules == [] then map[]
    else
      var last := rules[|rules| - 1];
      var levels := RuleLevels(rules[..|rules| - 1]);
      if OrElse(last.id, "") != "" && OrElse(last.level, "") != "" then levels[last.id.value := last.level.value]
      else levels
  }

  function LevelSeverity(level: string): Severity {
    if level == "error" then High
    else if level == "warning" then Medium
    else if level == "note" then Low
    else if level == "none" then Info
    else Medium
  }

  /** The result's own level, or else its rule's, or else "warning". */
  function LevelOf(result: SarifResult, levels: map<string, string>): string {
    var id := if result.ruleId.Some? then result.ruleId.value else "";
    OrElse(result.level, if id in levels then levels[id] else "warning")
  }

  function SeverityOf(result: SarifResult, levels: map<string, string>): Severity {
    match result.securitySeverity
    case Some(score) =>
      if score >= 9.0 then Critical else if score >= 7.0 then High else if score >= 4.0 then Medium else Low
    case None => LevelSeverity(LevelOf(result, levels))
  }

  function RuleOf(result: SarifResult): string {
    OrElse(result.ruleId, "unknown")
  }

  /** The rule and, when there is one, the line: two hits of a rule in one file are two findings. */
  function RefOf(result: SarifResult): string {
    match result.line
    case None => RuleOf(result)
    case Some(n) => RuleOf(result) + "@L" + Decimal(n)
  }

  function FindingOf(run: SarifRun, result: SarifResult): Finding {
    var text := Strip(if result.text.Some? then result.text.value else "");
    Finding(result.uri, ToolOf(run) + ":" + RuleOf(result), Some(RefOf(result)),
            SeverityOf(result, RuleLevels(run.rules)), if text != "" then text else RuleOf(result))
  }

  /** What a result becomes: filed under its tool and rule, at its file and line. */
  lemma FindingOfResult(run: SarifRun, result: SarifResult)
    ensures var f := FindingOf(run, result);
      var rule := if result.ruleId.Some? && result.ruleId.value != "" then result.ruleId.value else "unknown";
      var text := if result.text.Some? then Strip(result.text.value) else "";
      var name := if run.name.Some? && run.name.value != "" then run.name.value else "external";
      && f.path == result.uri && f.findingType == Lower(Strip(name)) + ":" + rule
      && f.ref == Some(if result.line.Some? then rule + "@L" + Decimal(result.line.value) else rule)
      && f.message == if text == "" then rule else text
  {
    hide Strip, Lower, Decimal, RuleLevels, SeverityOf;
    StripNothing();
  }

  lemma StripNothing()
    ensures Strip("") == ""
  {
  }

  /** A score decides on its own: 9, 7 and 4 are where the severities begin. */
  lemma ScoreDecides(result: SarifResult, levels: map<string, string>)
    requires result.securitySeverity.Some?
    ensures var score := result.securitySeverity.value;
      match SeverityOf(result, levels)
      case Critical => 9.0 <= score
      case High => 7.0 <= score < 9.0
      case Medium => 4.0 <= score < 7.0
      case Low => score < 4.0
      case Info => false
  {
  }

  /** The last rule of this id that has a level. */
  ghost predicate IsLastLevel(rules: seq<Rule>, id: string, i: int) {
    && 0 <= i < |rules| && HasLevel(rules[i], id) && forall j :: i < j < |rules| ==> !HasLevel(rules[j], id)
  }

  ghost predicate HasLevel(rule: Rule, id: string) {
    rule.id == Some(id) && rule.level.Some? && rule.level.value != ""
  }

  lemma {:induction false} RuleLevelsAre(rules: seq<Rule>, id: string)
    ensures id in RuleLevels(rules) <==> id != "" && exists i :: IsLastLevel(rules, id, i)
    ensures forall i :: id != "" && IsLastLevel(rules, id, i) ==> rules[i].level == Some(RuleLevels(rules)[id])
  {
    if rules != [] {
      var n := |rules| - 1;
      var before, last := rules[..n], rules[n];
      RuleLevelsAre(before, id);
      assert forall i :: 0 <= i < n ==> before[i] == rules[i];
      if HasLevel(last, id) {
        assert IsLastLevel(rules, id, n);
      } else {
        assert forall i :: IsLastLevel(rules, id, i) <==> IsLastLevel(before, id, i);
      }
    }
  }

  /** A result's level is its own; without one, that of the last rule of its id that has one; else "warning". */
  lemma LevelOfResult(run: SarifRun, result: SarifResult)
    ensures var level := LevelOf(result, RuleLevels(run.rules));
      if result.level.Some? && result.level.value != "" then level == result.level.value
      else if exists i, id :: id != "" && result.ruleId == Some(id) && IsLastLevel(run.rules, id, i)
      then forall i, id :: id != "" && result.ruleId == Some(id) && IsLastLevel(run.rules, id, i) ==>
             run.rules[i].level == Some(level)
      else level == "warning"
  {
    hide IsLastLevel, RuleLevels;
    RuleLevelsAre(run.rules, if result.ruleId.Some? then result.ruleId.value else "");
    assert forall i, id :: IsLastLevel(run.rules, id, i) ==> 0 <= i < |run.rules| by {
      LevelInRange(run.rules);
    }
    NoEmptyLevel(run.rules);
  }

  lemma LevelInRange(rules: seq<Rule>)
    ensures forall i, id :: IsLastLevel(rules, id, i) ==> 0 <= i < |rules|
  {
  }

  lemma {:induction false} NoEmptyLevel(rules: seq<Rule>)
    ensures forall id :: id in RuleLevels(rules) ==> id != "" && RuleLevels(rules)[id] != ""
  {
    if rules != [] {
      NoEmptyLevel(rules[..|rules| - 1]);
    }
  }

  /** Two hits of one rule in one file are one finding exactly when they are on the same line. */
  lemma HitsAreApartByLine(repo: RepoId, run: SarifRun, a: SarifResult, b: SarifResult)
    requires RuleOf(a) == RuleOf(b) && a.uri == b.uri
    ensures KeyOf(repo, FindingOf(run, a)) == KeyOf(repo, FindingOf(run, b)) <==> a.line == b.line
  {
    hide Decimal, ToolOf;
    var front := Decimal(repo) + ":" + (OrEmpty(a.uri) + ":" + (ToolOf(run) + ":" + RuleOf(a) + ":"));
    assert KeyOf(repo, FindingOf(run, a)) == front + RefOf(a);
    assert KeyOf(repo, FindingOf(run, b)) == front + RefOf(b);
    if front + RefOf(a) == front + RefOf(b) {
      SameTail(front, RefOf(a), RefOf(b));
      if a.line.Some? && b.line.Some? {
        SameTail(RuleOf(a) + "@L", Decimal(a.line.value), Decimal(b.line.value));
        DecimalIsInjective(a.line.value, b.line.value);
      }
    }
  }

  lemma SameTail(front: string, x: string, y: string)
    requires front + x == front + y
    ensures x == y
  {
    assert x == (front + x)[|front|..] && y == (front + y)[|front|..];
  }

  function RankOf(s: Severity): nat {
    match s
    case Info => 0
    case Low => 1
    case Medium => 2
    case High => 3
    case Critical => 4
  }

  /**
   A score is said to move a result's severity upward only. It does not lower what the level
   stands for exactly if it is at least 7 on an error, at least 4 on a warning or an unknown
   level, and anything on a note or on "none".
   */
  lemma ScoreMovesUpwardIff(result: SarifResult, levels: map<string, string>)
    requires result.securitySeverity.Some?
    ensures var level, score := LevelOf(result, levels), result.securitySeverity.value;
      RankOf(SeverityOf(result, levels)) >= RankOf(LevelSeverity(level)) <==>
        if level == "error" then score >= 7.0 else if level == "note" || level == "none" then true else score >= 4.0
  {
    hide LevelOf;
  }

  /** For one: an error with a score of 3 is a low finding, where one without a score is a high one. */
  lemma ScoreLowersAnError(result: SarifResult, levels: map<string, string>)
    requires result.level == Some("error") && result.securitySeverity == Some(3.0)
    ensures SeverityOf(result, levels) == Low && SeverityOf(result.(securitySeverity := None), levels) == High
  {
  }

  function RunFindings(run: SarifRun, k: nat): seq<Finding>
    requires k <= |run.results|
  {
    if k == 0 then [] else RunFindings(run, k - 1) + [FindingOf(run, run.results[k - 1])]
  }

  function ParsedFindings(doc: Document): seq<Finding> {
    if doc == [] then []
    else
      var last := doc[|doc| - 1];
      ParsedFindings(doc[..|doc| - 1]) + RunFindings(last, |last.results|)
  }

  /** How many results precede a run. */
  function Before(doc: Document, i: nat): nat
    requires i <= |doc|
  {
    if i == 0 then 0 else Before(doc, i - 1) + |doc[i - 1].results|
  }

  lemma {:induction false} RunFindingsStand(run: SarifRun, k: nat)
    requires k <= |run.results|
    ensures |RunFindings(run, k)| == k
    ensures forall j :: 0 <= j < k ==> RunFindings(run, k)[j] == FindingOf(run, run.results[j])
  {
    hide FindingOf;
    if k > 0 {
      RunFindingsStand(run, k - 1);
    }
  }

  ghost predicate StandsAt(out: seq<Finding>, doc: Document, i: nat, k: nat)
    requires i < |doc| && k < |doc[i].results|
  {
    Before(doc, i) + k < |out| && out[Before(doc, i) + k] == FindingOf(doc[i], doc[i].results[k])
  }

  /** The finding of a result stands where the result does, and there is no other finding. */
  ghost predicate StandInOrder(out: seq<Finding>, doc: Document) {
    && |out| == Before(doc, |doc|)
    && forall i, k :: 0 <= i < |doc| && 0 <= k < |doc[i].results| ==> StandsAt(out, doc, i, k)
  }

  lemma {:induction false} BeforeAppend(doc: Document, run: SarifRun, i: nat)
    requires i <= |doc|
    ensures Before(doc + [run], i) == Before(doc, i)
  {
    if i > 0 {
      BeforeAppend(doc, run, i - 1);
      assert (doc + [run])[i - 1] == doc[i - 1];
    }
  }

  lemma OneMoreRun(out: seq<Finding>, doc: Document, run: SarifRun)
    requires StandInOrder(out, doc)
    ensures StandInOrder(out + RunFindings(run, |run.results|), doc + [run])
  {
    hide FindingOf, Before, RunFindings;
    RunFindingsStand(run, |run.results|);
    var longer, all := doc + [run], out + RunFindings(run, |run.results|);
    BeforeLast(doc, run);
    assert longer[|doc|] == run && |all| == |out| + |run.results|;
    forall i, k | 0 <= i < |longer| && 0 <= k < |longer[i].results|
      ensures StandsAt(all, longer, i, k)
    {
      if i < |doc| {
        BeforeAppend(doc, run, i);
        assert StandsAt(out, doc, i, k);
      }
    }
  }

  lemma BeforeLast(doc: Document, run: SarifRun)
    ensures Before(doc + [run], |doc|) == Before(doc, |doc|)
    ensures Before(doc + [run], |doc| + 1) == Before(doc, |doc|) + |run.results|
  {
    BeforeAppend(doc, run, |doc|);
  }

  lemma {:induction false} ParsedInOrder(doc: Document)
    ensures StandInOrder(ParsedFindings(doc), doc)
  {
    hide StandInOrder;
    if doc == [] {
      NoFindings();
    } else {
      var before, last := doc[..|doc| - 1], doc[|doc| - 1];
      ParsedInOrder(before);
      OneMoreRun(ParsedFindings(before), before, last);
      assert before + [last] == doc;
    }
  }

  lemma NoFindings()
    ensures StandInOrder([], [])
  {
  }

  /** One finding per result, in document order. */
  method ParseSarif(doc: Document) returns (out: seq<Finding>)
    ensures out == ParsedFindings(doc)
    ensures StandInOrder(out, doc)
  {
    hide FindingOf, StandInOrder;
    ParsedInOrder(doc);
    out := [];
    assert doc[..|doc|] == doc;
    for i := 0 to |doc|
      invariant out == ParsedFindings(doc[..i])
    {
      var run := doc[i];
      assert doc[..i + 1][..i] == doc[..i];
      ghost var before := out;
      for k := 0 to |run.results|
        invariant out == before + RunFindings(run, k)
      {
        out := out + [FindingOf(run, run.results[k])];
      }
    }
  }

  // ---------------------------------------------------------------------------------------
  // LIKE
  // ---------------------------------------------------------------------------------------

  /** SQL LIKE with PostgreSQL's default escape character. */
  predicate Like(pattern: string, s: string)
    decreases |pattern| + |s|
  {
    if pattern == "" then s == ""
    else if pattern[0] == '%' then Like(pattern[1..], s) || (s != "" && Like(pattern, s[1..]))
    else if pattern[0] == '_' then s != "" && Like(pattern[1..], s[1..])
    else if pattern[0] == '\\' && |pattern| > 1 then s != "" && s[0] == pattern[1] && Like(pattern[2..], s[1..])
    else s != "" && s[0] == pattern[0] && Like(pattern[1..], s[1..])
  }

  predicate HasWildcard(s: string) {
    '%' in s || '_' in s
  }

  lemma {:induction false} PercentMatchesAll(s: string)
    ensures Like("%", s)
    decreases |s|
  {
    assert "%"[1..] == "";
    if s != "" {
      PercentMatchesAll(s[1..]);
    }
  }

  lemma {:induction false} PlainPatternIsPrefix(prefix: string, s: string)
    requires !HasWildcard(prefix) && '\\' !in prefix
    ensures Like(prefix + "%", s) <==> prefix <= s
  {
    if prefix == "" {
      assert prefix + "%" == "%";
      PercentMatchesAll(s);
    } else {
      assert prefix[0] in prefix;
      assert (prefix + "%")[1..] == prefix[1..] + "%";
      if s != "" && s[0] == prefix[0] {
        PlainPatternIsPrefix(prefix[1..], s[1..]);
        assert prefix <= s <==> prefix[1..] <= s[1..];
      }
    }
  }

  /** A string the pattern matches: wildcards become a letter, escaped characters stand for themselves. */
  function Sample(pattern: string): string
    decreases |pattern|
  {
    if pattern == "" then ""
    else if pattern[0] == '\\' && |pattern| > 1 then [pattern[1]] + Sample(pattern[2..])
    else [if HasWildcard([pattern[0]]) then 'a' else pattern[0]] + Sample(pattern[1..])
  }

  lemma {:induction false} SampleMatches(pattern: string)
    ensures Like(pattern, Sample(pattern)) && |Sample(pattern)| <= |pattern|
    decreases |pattern|
  {
    if pattern != "" {
      var s := Sample(pattern);
      assert pattern[0] in [pattern[0]];
      if pattern[0] == '\\' && |pattern| > 1 {
        SampleMatches(pattern[2..]);
        assert s[1..] == Sample(pattern[2..]);
      } else {
        SampleMatches(pattern[1..]);
        assert s[1..] == Sample(pattern[1..]);
        if pattern[0] == '%' {
          assert Like(pattern, s[1..]);
        }
      }
    }
  }

  /** Without escapes the sample is as long as the pattern and differs from it at every wildcard. */
  lemma {:induction false} SampleDiffers(pattern: string, i: nat)
    requires '\\' !in pattern && i < |pattern|
    ensures |Sample(pattern)| == |pattern|
    ensures HasWildcard([pattern[i]]) ==> Sample(pattern)[i] != pattern[i]
  {
    assert pattern[0] in pattern && pattern[0] in [pattern[0]];
    if i > 0 {
      SampleDiffers(pattern[1..], i - 1);
    } else if |pattern| > 1 {
      SampleDiffers(pattern[1..], 0);
    }
  }

  /** The pattern the resolve pass builds from a tool name. */
  function PatternOf(tool: string): string {
    tool + ":" + "%"
  }

  /** Whatever wildcards and escapes a name holds, its pattern selects only types with a colon. */
  lemma {:induction false} SelectedHoldsColon(tool: string, findingType: string)
    requires Like(PatternOf(tool), findingType)
    ensures ':' in findingType
    decreases |tool| + |findingType|
  {
    if tool == "" {
      assert PatternOf(tool)[0] == ':' && findingType[0] == ':';
    } else {
      assert PatternOf(tool)[1..] == PatternOf(tool[1..]);
      if tool[0] == '%' {
        if Like(PatternOf(tool[1..]), findingType) {
          SelectedHoldsColon(tool[1..], findingType);
        } else {
          SelectedHoldsColon(tool, findingType[1..]);
        }
      } else if tool[0] == '\\' {
        if |tool| == 1 {
          assert findingType[0] == PatternOf(tool)[1] == ':';
        } else {
          assert PatternOf(tool)[2..] == PatternOf(tool[2..]);
          SelectedHoldsColon(tool[2..], findingType[1..]);
        }
      } else {
        SelectedHoldsColon(tool[1..], findingType[1..]);
      }
    }
  }

  lemma SampleOfEnd()
    ensures Sample("%") == "a" && Sample(PatternOf("")) == ":a"
  {
    assert '%' in ['%'] && ':' !in ['%'] && PatternOf("")[1..] == "%";
  }

  lemma SampleStep(tool: string)
    requires tool != ""
    ensures var s := Sample(PatternOf(tool));
      if tool[0] != '\\' then s != "" && s[1..] == Sample(PatternOf(tool[1..]))
      else if |tool| == 1 then s == ":" + Sample("%")
      else s != "" && s[1..] == Sample(PatternOf(tool[2..]))
  {
    var pattern := PatternOf(tool);
    if tool[0] != '\\' {
      assert pattern[1..] == PatternOf(tool[1..]);
    } else if |tool| == 1 {
      assert pattern[2..] == "%" && pattern[1] == ':';
    } else {
      assert pattern[2..] == PatternOf(tool[2..]);
    }
  }

  /** The sample of such a pattern ends in a letter, and an escape in the name makes it shorter than the pattern. */
  lemma {:induction false} SampleEnds(tool: string)
    ensures var s := Sample(PatternOf(tool)); s != "" && s[|s| - 1] == 'a'
    ensures '\\' in tool ==> |Sample(PatternOf(tool))| < |PatternOf(tool)|
    decreases |tool|
  {
    hide Sample;
    SampleOfEnd();
    if tool != "" {
      SampleStep(tool);
      if tool[0] != '\\' {
        SampleEnds(tool[1..]);
        assert tool == [tool[0]] + tool[1..];
      } else if |tool| > 1 {
        SampleMatches(PatternOf(tool[2..]));
        SampleEnds(tool[2..]);
      }
    }
  }

  /** The resolve pass of this tool selects exactly the types filed under it. */
  ghost predicate SelectsOnlyOwn(tool: string) {
    forall t :: Like(PatternOf(tool), t) <==> tool + ":" <= t
  }

  /** Sources are kept apart exactly for the tool names free of LIKE's wildcards and of its escape. */
  lemma LikeIsScopedIff(tool: string)
    ensures SelectsOnlyOwn(tool) <==> !HasWildcard(tool) && '\\' !in tool
  {
    hide Like, Sample;
    var prefix, pattern, sample := tool + ":", PatternOf(tool), Sample(PatternOf(tool));
    if !HasWildcard(tool) && '\\' !in tool {
      forall t
        ensures Like(pattern, t) <==> prefix <= t
      {
        PlainPatternIsPrefix(prefix, t);
      }
    } else {
      SampleMatches(pattern);
      SampleEnds(tool);
      if '\\' !in tool {
        var i :| 0 <= i < |tool| && (tool[i] == '%' || tool[i] == '_');
        assert pattern[i] == tool[i] && tool[i] in [pattern[i]];
        SampleDiffers(pattern, i);
        assert sample[i] != prefix[i];
      }
      assert !(prefix <= sample);
    }
  }

  /** Findings are filed under the name the resolve pass uses, except those of a run whose name is the empty string. */
  lemma EmptyNameIsNeverResolved(run: SarifRun)
    ensures ToolOf(run) == ResolveNameOf(run) <==> run.name != Some("")
  {
  }

  // ---------------------------------------------------------------------------------------
  // The ingest
  // ---------------------------------------------------------------------------------------

  /** split(":", 1)[0] */
  function FirstField(s: string): (r: string)
    ensures ':' !in r
  {
    if s == "" || s[0] == ':' then "" else [s[0]] + FirstField(s[1..])
  }

  /** The fingerprints this document reports for a tool. */
  function SeenFor(repo: RepoId, findings: seq<Finding>, tool: string): set<Fingerprint> {
    set f | f in findings && FirstField(f.findingType) == tool :: KeyOf(repo, f)
  }

  predicate StaleFor(row: Row, fp: Fingerprint, repo: RepoId, tool: string, seen: set<Fingerprint>) {
    && row.repo == repo && row.resolvedAt.None?
    && Like(PatternOf(tool), row.findingType)
    && NotIn(fp, seen)
  }

  /** The table after the resolve passes of some tools, in whatever order they run. */
  function ResolvedFor(t: Table, repo: RepoId, findings: seq<Finding>, tools: set<string>, now: Time): Table {
    map fp | fp in t ::
      if exists tool :: tool in tools && StaleFor(t[fp], fp, repo, tool, SeenFor(repo, findings, tool)) then
        t[fp].(resolvedAt := Some(now))
      else t[fp]
  }

  function Sightings(findings: seq<Finding>, now: Time): seq<Sighting> {
    seq(|findings|, i requires 0 <= i < |findings| => Sighting(findings[i], now))
  }

  function Ingested(t: Table, repo: RepoId, doc: Document, now: Time): Table {
    ResolvedFor(AllUpserted(t, repo, Sightings(ParsedFindings(doc), now)), repo, ParsedFindings(doc), ToolsIn(doc), now)
  }

  lemma ResolveOneMore(t: Table, repo: RepoId, findings: seq<Finding>, tools: set<string>, tool: string, now: Time)
    ensures ResolvedFor(t, repo, findings, tools + {tool}, now) ==
      ResolvedFor(ResolvedFor(t, repo, findings, tools, now), repo, findings, {tool}, now)
  {
  }

  /** What the dictionary of seen fingerprints holds for a tool. */
  function SeenIn(seenByTool: map<string, set<Fingerprint>>, tool: string): set<Fingerprint> {
    if tool in seenByTool then seenByTool[tool] else {}
  }

  /** seen_by_tool.setdefault(tool, set()).add(fp) */
  function AddSeen(seenByTool: map<string, set<Fingerprint>>, tool: string, fp: Fingerprint)
    : map<string, set<Fingerprint>>
  {
    seenByTool[tool := SeenIn(seenByTool, tool) + {fp}]
  }

  lemma SeenForAppend(repo: RepoId, findings: seq<Finding>, f: Finding, tool: string)
    ensures SeenFor(repo, findings + [f], tool) ==
      SeenFor(repo, findings, tool) + if FirstField(f.findingType) == tool then {KeyOf(repo, f)} else {}
  {
    hide KeyOf, FirstField;
  }

  lemma OneMoreUpsert(start: Table, repo: RepoId, findings: seq<Finding>, k: nat, now: Time)
    requires k < |findings|
    ensures AllUpserted(start, repo, Sightings(findings[..k + 1], now)) ==
      Upserted(AllUpserted(start, repo, Sightings(findings[..k], now)), repo, findings[k], now)
  {
    hide Upserted;
    var after := Sightings(findings[..k + 1], now);
    assert after[..k] == Sightings(findings[..k], now) && after[k] == Sighting(findings[k], now);
  }

  lemma OneMoreSeen(repo: RepoId, findings: seq<Finding>, k: nat, seenByTool: map<string, set<Fingerprint>>,
                    after: map<string, set<Fingerprint>>)
    requires k < |findings|
    requires after == AddSeen(seenByTool, FirstField(findings[k].findingType), KeyOf(repo, findings[k]))
    requires forall tool :: SeenIn(seenByTool, tool) == SeenFor(repo, findings[..k], tool)
    ensures forall tool :: SeenIn(after, tool) == SeenFor(repo, findings[..k + 1], tool)
  {
    hide SeenFor, KeyOf, FirstField;
    var f := findings[k];
    assert findings[..k + 1] == findings[..k] + [f];
    forall tool
      ensures SeenIn(after, tool) == SeenFor(repo, findings[..k + 1], tool)
    {
      SeenForAppend(repo, findings[..k], f, tool);
    }
  }

  /** Upserts the findings in order and groups their fingerprints by tool. */
  method WriteFindings(db: FindingsTable, repo: RepoId, findings: seq<Finding>, now: Time)
      returns (seenByTool: map<string, set<Fingerprint>>)
    modifies db
    ensures db.rows == AllUpserted(old(db.rows), repo, Sightings(findings, now))
    ensures forall tool :: SeenIn(seenByTool, tool) == SeenFor(repo, findings, tool)
  {
    seenByTool := map[];
    assert findings[..|findings|] == findings;
    assert AllUpserted(db.rows, repo, Sightings([], now)) == db.rows;
    assert forall tool :: SeenIn(map[], tool) == SeenFor(repo, [], tool) == {};
    hide AllUpserted, Upserted;
    for k := 0 to |findings|
      invariant db.rows == AllUpserted(old(db.rows), repo, Sightings(findings[..k], now))
      invariant forall tool :: SeenIn(seenByTool, tool) == SeenFor(repo, findings[..k], tool)
    {
      var f := findings[k];
      var after := AddSeen(seenByTool, FirstField(f.findingType), KeyOf(repo, f));
      OneMoreUpsert(old(db.rows), repo, findings, k, now);
      OneMoreSeen(repo, findings, k, seenByTool, after);
      seenByTool := after;
      db.UpsertFinding(repo, f, now);
    }
  }

  /** Writes the document's findings and closes what its tools no longer report. */
  method IngestSarif(db: FindingsTable, repo: RepoId, doc: Document, now: Time) returns (ingested: nat, resolved: nat)
    modifies db
    ensures db.rows == Ingested(old(db.rows), repo, doc, now)
    ensures ingested == |ParsedFindings(doc)|
    ensures resolved == |Closed(AllUpserted(old(db.rows), repo, Sightings(ParsedFindings(doc), now)), db.rows)|
  {
    hide ResolvedFor, SeenFor, OnlyCloses, Closed;
    var findings := ParseSarif(doc);
    ingested := |findings|;
    var seenByTool := WriteFindings(db, repo, findings, now);
    ghost var upserted := db.rows;
    var left := ToolsIn(doc);
    ghost var done: set<string> := {};
    resolved := 0;
    NothingResolvedYet(upserted, repo, findings, now);
    while left != {}
      invariant done + left == ToolsIn(doc)
      invariant db.rows == ResolvedFor(upserted, repo, findings, done, now)
      invariant OnlyCloses(upserted, db.rows, now) && resolved == |Closed(upserted, db.rows)|
      decreases left
    {
      var tool :| tool in left;
      ghost var before := db.rows;
      ResolveOneMore(upserted, repo, findings, done, tool, now);
      var n := ResolveStaleForSource(db, repo, findings, tool, SeenIn(seenByTool, tool), now);
      ClosedAdds(upserted, before, db.rows, now);
      resolved := resolved + n;
      left := left - {tool};
      done := done + {tool};
    }
    assert done == ToolsIn(doc);
  }

  lemma NothingResolvedYet(t: Table, repo: RepoId, findings: seq<Finding>, now: Time)
    ensures ResolvedFor(t, repo, findings, {}, now) == t && OnlyCloses(t, t, now) && Closed(t, t) == {}
  {
  }

  /** UPDATE ... WHERE finding_type LIKE 'tool:%' AND NOT IN (seen or [""]). */
  method ResolveStaleForSource(db: FindingsTable, repo: RepoId, ghost findings: seq<Finding>, tool: string,
                               seen: set<Fingerprint>, now: Time)
      returns (count: nat)
    requires seen == SeenFor(repo, findings, tool)
    modifies db
    ensures db.rows == ResolvedFor(old(db.rows), repo, findings, {tool}, now)
    ensures OnlyCloses(old(db.rows), db.rows, now)
    ensures count == |Closed(old(db.rows), db.rows)|
    ensures Keyed(old(db.rows)) && CleanTool(tool) ==> forall fp :: fp in Closed(old(db.rows), db.rows) <==>
      && Open(old(db.rows), fp) && old(db.rows)[fp].repo == repo
      && FiledUnder(old(db.rows)[fp].findingType, tool) && fp !in seen
  {
    hide PatternOf, Like, SeenFor, Key, FiledUnder, CleanTool;
    ghost var was := db.rows;
    var stale := set fp | fp in db.rows && StaleFor(db.rows[fp], fp, repo, tool, seen);
    count := |stale|;
    db.rows := map fp | fp in db.rows :: if fp in stale then db.rows[fp].(resolvedAt := Some(now)) else db.rows[fp];
    assert Closed(was, db.rows) == stale;
    if Keyed(was) && CleanTool(tool) {
      StaleIsOwn(was, repo, tool, seen);
    }
  }

  /** With a clean name, what LIKE selects is what is filed under the tool. */
  lemma StaleIsOwn(t: Table, repo: RepoId, tool: string, seen: set<Fingerprint>)
    requires Keyed(t) && CleanTool(tool)
    ensures forall fp :: fp in t ==>
      (StaleFor(t[fp], fp, repo, tool, seen) <==>
        t[fp].resolvedAt.None? && t[fp].repo == repo && FiledUnder(t[fp].findingType, tool) && fp !in seen)
  {
    hide Like, Key;
    NoEmptyKey(t);
    forall fp | fp in t
      ensures Like(PatternOf(tool), t[fp].findingType) <==> FiledUnder(t[fp].findingType, tool)
    {
      PlainPatternIsPrefix(tool + ":", t[fp].findingType);
    }
  }

  /** The later table has the same rows, some of them closed. */
  ghost predicate OnlyCloses(t: Table, t': Table, now: Time) {
    && t'.Keys == t.Keys
    && forall fp :: fp in t ==> t'[fp] == t[fp] || (t[fp].resolvedAt.None? && t'[fp] == t[fp].(resolvedAt := Some(now)))
  }

  /** The findings open in the earlier table and not in the later one. */
  function Closed(t: Table, t': Table): set<Fingerprint> {
    set fp | fp in t && Open(t, fp) && !Open(t', fp)
  }

  lemma ClosedAdds(t: Table, t': Table, t'': Table, now: Time)
    requires OnlyCloses(t, t', now) && OnlyCloses(t', t'', now)
    ensures OnlyCloses(t, t'', now)
    ensures |Closed(t, t'')| == |Closed(t, t')| + |Closed(t', t'')|
  {
    assert Closed(t, t'') == Closed(t, t') + Closed(t', t'');
    assert Closed(t, t') !! Closed(t', t'');
  }

  // ---------------------------------------------------------------------------------------
  // Scope
  // ---------------------------------------------------------------------------------------

  /** A type is filed under a tool. */
  predicate FiledUnder(findingType: string, tool: string) {
    tool + ":" <= findingType
  }

  /** Paths without a colon; types that are either filed under a tool or native. */
  predicate PlainColumns(path: Option<string>, findingType: string) {
    ':' !in OrEmpty(path) && (':' in findingType || findingType in NATIVE_TYPES)
  }

  ghost predicate PlainTable(t: Table) {
    forall fp :: fp in t ==> PlainColumns(t[fp].path, t[fp].findingType)
  }

  ghost predicate PlainPaths(doc: Document) {
    forall run :: run in doc ==> forall result :: result in run.results ==> ':' !in OrEmpty(result.uri)
  }

  /** Names that are not the empty string, free of ':', of LIKE's wildcards and of its escape; paths without a colon. */
  ghost predicate CleanDocument(doc: Document) {
    PlainPaths(doc) && forall run :: run in doc ==> run.name != Some("") && CleanTool(ToolOf(run))
  }

  predicate CleanTool(tool: string) {
    ':' !in tool && !HasWildcard(tool) && '\\' !in tool
  }

  lemma {:induction false} FirstFieldStops(s: string, rest: string)
    ensures FirstField(s + ":" + rest) == FirstField(s)
    ensures ':' !in s ==> FirstField(s) == s
    ensures ':' in s ==> FirstField(s) + ":" <= s
  {
    if s == "" {
      assert (s + ":" + rest)[0] == ':';
    } else {
      assert (s + ":" + rest)[1..] == s[1..] + ":" + rest;
      FirstFieldStops(s[1..], rest);
    }
  }

  /** A type is filed under at most one tool. */
  lemma OneTool(findingType: string, a: string, b: string)
    requires ':' !in a && ':' !in b && FiledUnder(findingType, a) && FiledUnder(findingType, b)
    ensures a == b
  {
    FirstFieldIsUnique(a, findingType[|a| + 1..], b, findingType[|b| + 1..], ':');
  }

  lemma {:induction false} ParsedComesFrom(doc: Document, f: Finding) returns (run: SarifRun, result: SarifResult)
    requires f in ParsedFindings(doc)
    ensures run in doc && result in run.results && f == FindingOf(run, result)
  {
    var last := doc[|doc| - 1];
    if f in ParsedFindings(doc[..|doc| - 1]) {
      run, result := ParsedComesFrom(doc[..|doc| - 1], f);
    } else {
      run := last;
      result := RunComesFrom(last, |last.results|, f);
    }
  }

  lemma {:induction false} RunComesFrom(run: SarifRun, k: nat, f: Finding) returns (result: SarifResult)
    requires k <= |run.results| && f in RunFindings(run, k)
    ensures result in run.results && f == FindingOf(run, result)
  {
    if f in RunFindings(run, k - 1) {
      result := RunComesFrom(run, k - 1, f);
    } else {
      result := run.results[k - 1];
    }
  }

  /** What the document reports is filed under one of its tools, at a path without a colon. */
  lemma ParsedIsFiled(doc: Document, f: Finding) returns (tool: string)
    requires CleanDocument(doc) && f in ParsedFindings(doc)
    ensures tool in ToolsIn(doc) && CleanTool(tool)
    ensures FirstField(f.findingType) == tool && FiledUnder(f.findingType, tool)
    ensures PlainColumns(f.path, f.findingType)
  {
    var run, result := ParsedComesFrom(doc, f);
    tool := ToolOf(run);
    EmptyNameIsNeverResolved(run);
    assert ResolveNameOf(run) == tool;
    FirstFieldStops(tool, RuleOf(result));
    assert f.findingType == tool + ":" + RuleOf(result);
  }

  /** A row that shares its fingerprint with a reported finding is filed under the same tool. */
  lemma SameKeySameTool(repo: RepoId, f: Finding, tool: string, row: Row)
    requires KeyOf(repo, f) == Key(row.repo, row.path, row.findingType, row.ref)
    requires PlainColumns(f.path, f.findingType) && PlainColumns(row.path, row.findingType)
    requires FirstField(f.findingType) == tool && CleanTool(tool)
    ensures row.repo == repo && FiledUnder(row.findingType, tool)
  {
    hide KeyOf, Key, FirstField, PlainColumns;
    PlainPath(f.path, f.findingType);
    PlainPath(row.path, row.findingType);
    SameKeySameFront(repo, f, row);
    FrontIsTool(row.path, row.findingType, tool);
  }

  lemma PlainPath(path: Option<string>, findingType: string)
    requires PlainColumns(path, findingType)
    ensures ':' !in OrEmpty(path)
  {
  }

  /** No native type is the name of a clean tool. */
  lemma FrontIsTool(path: Option<string>, findingType: string, tool: string)
    requires PlainColumns(path, findingType) && CleanTool(tool) && FirstField(findingType) == tool
    ensures FiledUnder(findingType, tool)
  {
    FirstFieldStops(findingType, "");
    if findingType in NATIVE_TYPES {
      NativeTypes(findingType);
    }
  }

  /** Where no path holds a colon, equal keys agree on repository, path and everything after it. */
  lemma SameKeySameFront(repo: RepoId, f: Finding, row: Row)
    requires KeyOf(repo, f) == Key(row.repo, row.path, row.findingType, row.ref)
    requires ':' !in OrEmpty(f.path) && ':' !in OrEmpty(row.path)
    ensures row.repo == repo && OrEmpty(f.path) == OrEmpty(row.path)
    ensures FirstField(f.findingType) == FirstField(row.findingType)
    ensures f.findingType + ":" + OrEmpty(f.ref) == row.findingType + ":" + OrEmpty(row.ref)
  {
    hide FirstField;
    KeyNamesRepo(repo, f.path, f.findingType, f.ref, row.repo, row.path, row.findingType, row.ref);
    FirstFieldIsUnique(OrEmpty(f.path), f.findingType + ":" + OrEmpty(f.ref),
                       OrEmpty(row.path), row.findingType + ":" + OrEmpty(row.ref), ':');
    FirstFieldStops(f.findingType, OrEmpty(f.ref));
    FirstFieldStops(row.findingType, OrEmpty(row.ref));
    assert f.findingType + ":" + OrEmpty(f.ref) == f.findingType + (":" + OrEmpty(f.ref));
    assert row.findingType + ":" + OrEmpty(row.ref) == row.findingType + (":" + OrEmpty(row.ref));
  }

  lemma {:induction false} UpsertsStayPlain(t: Table, repo: RepoId, sightings: seq<Sighting>)
    requires PlainTable(t)
    requires forall s :: s in sightings ==> PlainColumns(s.finding.path, s.finding.findingType)
    ensures PlainTable(AllUpserted(t, repo, sightings))
  {
    hide PlainColumns, KeyOf;
    if sightings != [] {
      UpsertsStayPlain(t, repo, sightings[..|sightings| - 1]);
    }
  }

  /** The upsert half of an ingest, seen from the document's tools. */
  lemma UpsertedIsFiled(t: Table, repo: RepoId, doc: Document, now: Time, fp: Fingerprint)
      returns (tool: string)
    requires Keyed(t) && CleanDocument(doc)
    requires fp in Seen(repo, Sightings(ParsedFindings(doc), now))
    requires var u := AllUpserted(t, repo, Sightings(ParsedFindings(doc), now));
      fp in u ==> PlainColumns(u[fp].path, u[fp].findingType)
    ensures var u := AllUpserted(t, repo, Sightings(ParsedFindings(doc), now));
      fp in u && u[fp].repo == repo && FiledUnder(u[fp].findingType, tool)
    ensures tool in ToolsIn(doc) && CleanTool(tool) && fp in SeenFor(repo, ParsedFindings(doc), tool)
  {
    var findings := ParsedFindings(doc);
    var sightings := Sightings(findings, now);
    var u := AllUpserted(t, repo, sightings);
    AllUpsertedKeeps(t, repo, sightings);
    AllUpsertedOpens(t, repo, sightings);
    var s :| s in sightings && KeyOf(repo, s.finding) == fp;
    assert s.finding in findings;
    tool := ParsedIsFiled(doc, s.finding);
    SameKeySameTool(repo, s.finding, tool, u[fp]);
  }

  lemma ParsedIsPlain(doc: Document, f: Finding)
    requires PlainPaths(doc) && f in ParsedFindings(doc)
    ensures PlainColumns(f.path, f.findingType)
  {
    var run, result := ParsedComesFrom(doc, f);
    assert f.findingType[|ToolOf(run)|] == ':';
  }

  lemma UpsertedStaysPlain(t: Table, repo: RepoId, doc: Document, now: Time)
    requires PlainTable(t) && PlainPaths(doc)
    ensures PlainTable(AllUpserted(t, repo, Sightings(ParsedFindings(doc), now)))
  {
    var sightings := Sightings(ParsedFindings(doc), now);
    forall s | s in sightings
      ensures PlainColumns(s.finding.path, s.finding.findingType)
    {
      assert s.finding in ParsedFindings(doc);
      ParsedIsPlain(doc, s.finding);
    }
    UpsertsStayPlain(t, repo, sightings);
  }

  lemma CleanTools(doc: Document, tool: string)
    requires CleanDocument(doc) && tool in ToolsIn(doc)
    ensures CleanTool(tool)
  {
  }

  /** A row's type is filed under one of these tools. */
  predicate FiledUnderAny(findingType: string, tools: set<string>) {
    exists tool :: tool in tools && FiledUnder(findingType, tool)
  }

  lemma FiledUnderIsPrefix(findingType: string, tool: string)
    ensures FiledUnder(findingType, tool) <==> tool + ":" <= findingType
  {
  }

  /** The resolve passes, for one row. `own` is the tool that reports the row, if one does. */
  lemma ResolvedRow(u: Table, repo: RepoId, findings: seq<Finding>, tools: set<string>, now: Time, fp: Fingerprint,
                    seen: set<Fingerprint>, own: string)
    requires fp in u && fp != ""
    requires forall tool :: tool in tools ==>
      (Like(PatternOf(tool), u[fp].findingType) <==> FiledUnder(u[fp].findingType, tool))
    requires forall tool :: SeenFor(repo, findings, tool) <= seen
    requires fp in seen ==> u[fp].resolvedAt.None? && fp in SeenFor(repo, findings, own)
    requires fp in seen ==> forall tool :: tool in tools && FiledUnder(u[fp].findingType, tool) ==> tool == own
    ensures var row := ResolvedFor(u, repo, findings, tools, now)[fp];
      if u[fp].repo == repo && FiledUnderAny(u[fp].findingType, tools)
      then row.resolvedAt.None? <==> fp in seen
      else row == u[fp]
  {
    hide PatternOf, Like, FiledUnder, SeenFor;
  }

  /**
   Which rows an ingest ends with open: of the document's tools in this repository, exactly
   those the document reports. Every other row is as it was.
   */
  lemma IngestIsScoped(t: Table, repo: RepoId, doc: Document, now: Time, fp: Fingerprint)
    requires Keyed(t) && CleanDocument(doc)
    requires fp in Ingested(t, repo, doc, now)
    requires PlainColumns(Ingested(t, repo, doc, now)[fp].path, Ingested(t, repo, doc, now)[fp].findingType)
    ensures var row := Ingested(t, repo, doc, now)[fp];
      if row.repo == repo && FiledUnderAny(row.findingType, ToolsIn(doc))
      then row.resolvedAt.None? <==> fp in Seen(repo, Sightings(ParsedFindings(doc), now))
      else fp in t && row == t[fp]
  {
    hide Like, FiledUnder, ParsedFindings, Key, KeyOf, Sightings, AllUpserted, ToolsIn, PlainColumns, CleanDocument,
         Seen, SeenFor, StaleFor, Keeps, Keyed, PlainTable;
    var findings := ParsedFindings(doc);
    var sightings := Sightings(findings, now);
    var u := AllUpserted(t, repo, sightings);
    AllUpsertedOpens(t, repo, sightings);
    AllUpsertedKeeps(t, repo, sightings);
    NoEmptyKey(u);
    forall tool | tool in ToolsIn(doc)
      ensures Like(PatternOf(tool), u[fp].findingType) <==> FiledUnder(u[fp].findingType, tool)
    {
      CleanTools(doc, tool);
      PlainPatternIsPrefix(tool + ":", u[fp].findingType);
      FiledUnderIsPrefix(u[fp].findingType, tool);
    }
    var own := "";
    if fp in Seen(repo, sightings) {
      own := UpsertedIsFiled(t, repo, doc, now, fp);
      forall tool | tool in ToolsIn(doc) && FiledUnder(u[fp].findingType, tool)
        ensures tool == own
      {
        CleanTools(doc, tool);
        OneTool(u[fp].findingType, tool, own);
      }
    }
    SeenForIsSeen(repo, findings, now);
    ResolvedRow(u, repo, findings, ToolsIn(doc), now, fp, Seen(repo, sightings), own);
  }

  /** An ingest keeps what every write keeps, and leaves the table fit for the next ingest. */
  lemma IngestKeeps(t: Table, repo: RepoId, doc: Document, now: Time)
    requires Keyed(t)
    ensures Keeps(t, Ingested(t, repo, doc, now), repo)
    ensures PlainTable(t) && PlainPaths(doc) ==> PlainTable(Ingested(t, repo, doc, now))
  {
    var findings := ParsedFindings(doc);
    var u := AllUpserted(t, repo, Sightings(findings, now));
    AllUpsertedKeeps(t, repo, Sightings(findings, now));
    ResolvedForKeeps(u, repo, findings, ToolsIn(doc), now);
    KeepsTransitive(t, u, Ingested(t, repo, doc, now), repo);
    if PlainTable(t) && PlainPaths(doc) {
      UpsertedStaysPlain(t, repo, doc, now);
    }
  }

  lemma ResolvedForKeeps(t: Table, repo: RepoId, findings: seq<Finding>, tools: set<string>, now: Time)
    requires Keyed(t)
    ensures Keeps(t, ResolvedFor(t, repo, findings, tools, now), repo)
    ensures PlainTable(t) ==> PlainTable(ResolvedFor(t, repo, findings, tools, now))
  {
    hide Key, PlainColumns;
  }

  lemma SeenForIsSeen(repo: RepoId, findings: seq<Finding>, now: Time)
    ensures forall tool :: SeenFor(repo, findings, tool) <= Seen(repo, Sightings(findings, now))
  {
    forall tool, fp | fp in SeenFor(repo, findings, tool)
      ensures fp in Seen(repo, Sightings(findings, now))
    {
      var i :| 0 <= i < |findings| && KeyOf(repo, findings[i]) == fp;
      assert Sightings(findings, now)[i].finding == findings[i];
    }
  }
}
