/** When a finding of a scanner and one of the native audit share a fingerprint, and so a row. */
module SharedRows {
  import opened Common
  import opened Strings
  import opened Findings
  import opened SarifIngest
  import opened FindingHistory
  import opened SourceScope
  import opened NativeAudit
  import opened Pins
  import Operations

  /** This result shares its row with something an audit of these files reports. */
  ghost predicate SharesRow(repo: RepoId, files: seq<File>, s: Settings, run: SarifRun, result: SarifResult) {
    exists path, n ::
      Reports(files, s, path, n) && Key(repo, Some(path), n.findingType, n.ref) == KeyOf(repo, FindingOf(run, result))
  }

  ghost predicate PlainFiles(files: seq<File>) {
    forall f :: f in files ==> ':' !in f.path
  }

  /** Some repository, without colons in its paths, is audited to a finding in this result's row. */
  ghost predicate CanShare(repo: RepoId, s: Settings, run: SarifRun, result: SarifResult) {
    exists files :: AllListed(files) && PlainFiles(files) && SharesRow(repo, files, s, run, result)
  }

  // ---------------------------------------------------------------------------------------
  // Result by result
  // ---------------------------------------------------------------------------------------

  /** What a tool's name adds to the locus: all of it after its first colon, and a colon. */
  function Front(tool: string): string {
    if tool == "" then "" else if tool[0] == ':' then tool[1..] + ":" else Front(tool[1..])
  }

  function NativeType(run: SarifRun): string {
    FirstField(ToolOf(run))
  }

  /** The locus that a native finding in this result's row has. */
  function NativeLocus(run: SarifRun, result: SarifResult): string {
    Front(ToolOf(run)) + (RuleOf(result) + ":" + RefOf(result))
  }

  lemma {:induction false} FrontEnds(tool: string, end: string)
    ensures tool + ":" + end == FirstField(tool) + ":" + (Front(tool) + end)
    ensures Front(tool) != "" ==> Front(tool)[|Front(tool)| - 1] == ':'
    ensures ':' !in tool ==> Front(tool) == ""
  {
    if tool != "" && tool[0] != ':' {
      FrontEnds(tool[1..], end);
      assert tool + ":" + end == [tool[0]] + (tool[1..] + ":" + end);
    }
  }

  /** A result shares its row with the native findings whose type and locus, joined by a colon, spell its own. */
  lemma SameRowIff(repo: RepoId, run: SarifRun, result: SarifResult,
                   repo': RepoId, path: Option<string>, findingType: string, ref: Option<string>)
    requires ':' !in OrEmpty(result.uri) && ':' !in OrEmpty(path) && ':' !in findingType
    ensures Key(repo', path, findingType, ref) == KeyOf(repo, FindingOf(run, result)) <==>
      && repo' == repo && OrEmpty(path) == OrEmpty(result.uri)
      && findingType == NativeType(run) && OrEmpty(ref) == NativeLocus(run, result)
  {
    hide ToolOf, RuleOf, RefOf, SeverityOf, RuleLevels, FirstField, Front;
    var f := FindingOf(run, result);
    var end := RuleOf(result) + ":" + RefOf(result);
    var tail, tail' := f.findingType + ":" + OrEmpty(f.ref), findingType + ":" + OrEmpty(ref);
    FrontEnds(ToolOf(run), end);
    assert tail == ToolOf(run) + ":" + end == NativeType(run) + ":" + NativeLocus(run, result);
    if Key(repo', path, findingType, ref) == KeyOf(repo, f) {
      KeyNamesRepo(repo', path, findingType, ref, repo, f.path, f.findingType, f.ref);
      FirstFieldIsUnique(OrEmpty(path), tail', OrEmpty(f.path), tail, ':');
      FirstFieldIsUnique(findingType, OrEmpty(ref), NativeType(run), NativeLocus(run, result), ':');
    }
  }

  lemma ReportedTypes(s: Settings, path: string, n: Native)
    requires CanReport(s, path, n)
    ensures n.findingType in NATIVE_TYPES && n.findingType != "dangerous_secret_flow"
    ensures n.ref.Some? && n.ref.value != "" ==> n.findingType in LOCATED
  {
  }

  /**
   Without colons in paths, a result shares its row with something an audit can report exactly
   when it is at an audited path and the audit can report there, under the first field of the
   tool's name, the locus that the rest of the name, the rule and the result's locus spell.
   */
  lemma SharesIff(repo: RepoId, s: Settings, run: SarifRun, result: SarifResult)
    requires ':' !in OrEmpty(result.uri)
    ensures CanShare(repo, s, run, result) <==>
      result.uri.Some? && CanReport(s, result.uri.value, Native(NativeType(run), Some(NativeLocus(run, result))))
  {
    hide Reports, CanReport, AllListed, NativeType, NativeLocus, Key, FindingOf;
    if result.uri.Some? && CanReport(s, result.uri.value, Native(NativeType(run), Some(NativeLocus(run, result)))) {
      OfferedShares(repo, s, run, result);
    }
    if files :| AllListed(files) && PlainFiles(files) && SharesRow(repo, files, s, run, result) {
      var path, n :| Reports(files, s, path, n)
                     && Key(repo, Some(path), n.findingType, n.ref) == KeyOf(repo, FindingOf(run, result));
      ReportedCanBe(files, s, path, n);
      ReportedTypes(s, path, n);
      NativeTypes(n.findingType);
      ReportedPathIsPlain(files, s, path, n);
      SameRowIff(repo, run, result, repo, Some(path), n.findingType, n.ref);
      LocusIsNotEmpty(run, result);
      ListedIsNotEmpty(s, path, n);
    }
  }

  lemma OfferedShares(repo: RepoId, s: Settings, run: SarifRun, result: SarifResult)
    requires result.uri.Some? && ':' !in result.uri.value
    requires CanReport(s, result.uri.value, Native(NativeType(run), Some(NativeLocus(run, result))))
    ensures CanShare(repo, s, run, result)
  {
    hide Reports, CanReport, AllListed, NativeType, NativeLocus, Key, FindingOf;
    var n := Native(NativeType(run), Some(NativeLocus(run, result)));
    OffenderIsReported(s, result.uri.value, n);
    ReportedTypes(s, result.uri.value, n);
    NativeTypes(n.findingType);
    SameRowIff(repo, run, result, repo, result.uri, n.findingType, n.ref);
    assert PlainFiles([Offender(result.uri.value, n)]);
  }

  lemma ReportedPathIsPlain(files: seq<File>, s: Settings, path: string, n: Native)
    requires PlainFiles(files) && Reports(files, s, path, n)
    ensures ':' !in path
  {
  }

  lemma LocusIsNotEmpty(run: SarifRun, result: SarifResult)
    ensures NativeLocus(run, result) != ""
  {
    hide ToolOf, RuleOf, RefOf, Front;
  }

  lemma ListedIsNotEmpty(s: Settings, path: string, n: Native)
    requires CanReport(s, path, n)
    ensures path != ""
  {
  }

  /** For the type of unpinned references: exactly if the pin audit flags the reference they spell. */
  lemma UnpinnedSharesIff(repo: RepoId, s: Settings, run: SarifRun, result: SarifResult)
    requires ':' !in OrEmpty(result.uri) && ToolOf(run) == "unpinned_action"
    ensures CanShare(repo, s, run, result) <==>
      && result.uri.Some? && IsListed(result.uri.value)
      && Operations.Flag(RuleOf(result) + ":" + RefOf(result), s.immutable).Some?
  {
    hide *;
    SharesIff(repo, s, run, result);
    PlainName("unpinned_action");
    PlainLocus(run, result);
    LocusIsNotEmpty(run, result);
    if result.uri.Some? {
      UnpinnedReports(s, result.uri.value, RuleOf(result) + ":" + RefOf(result));
    }
  }

  lemma PlainName(tool: string)
    requires ':' !in tool
    ensures FirstField(tool) == tool && Front(tool) == ""
  {
    FirstFieldStops(tool, "");
    FrontEnds(tool, "");
  }

  lemma PlainLocus(run: SarifRun, result: SarifResult)
    ensures NativeType(run) == FirstField(ToolOf(run))
    ensures Front(ToolOf(run)) == "" ==> NativeLocus(run, result) == RuleOf(result) + ":" + RefOf(result)
  {
    hide ToolOf, RuleOf, RefOf, Front, FirstField;
    var end := RuleOf(result) + ":" + RefOf(result);
    assert "" + end == end;
  }

  lemma UnpinnedReports(s: Settings, path: string, ref: string)
    requires ref != ""
    ensures CanReport(s, path, Native("unpinned_action", Some(ref))) <==>
      IsListed(path) && Operations.Flag(ref, s.immutable).Some?
  {
    hide IsListed, Operations.Flag;
  }

  // ---------------------------------------------------------------------------------------
  // Tool by tool
  // ---------------------------------------------------------------------------------------

  /** Some result of the tool, at a path without a colon, can share a row; `checked` says whether publishers are. */
  ghost predicate ToolCanShare(repo: RepoId, tool: string, checked: bool) {
    exists s: Settings, run: SarifRun, result: SarifResult ::
      && s.publishers.Some? == checked && ToolOf(run) == tool && ':' !in OrEmpty(result.uri)
      && CanShare(repo, s, run, result)
  }

  /** A rule that any type with a locus can take. */
  const PROBE := "a/workflows/b.yml"
  const PROBED := PROBE + ":" + PROBE

  function Probing(checked: bool): Settings {
    Settings(if checked then Some({}) else None, {})
  }

  /** Neither a local path nor a Docker image. */
  predicate IsRemote(raw: string) {
    !("./" <= raw) && !("../" <= raw) && !("docker://" <= raw)
  }

  /** Text that ends in something other than a blank, with something put after it. */
  lemma StripFront(front: string, x: string)
    requires front != "" && front[|front| - 1] == ':'
    ensures var g := StripLeft(front);
      && Strip(front + x) == g + StripRight(x)
      && g != "" && g[|g| - 1] == ':'
  {
    StripLeftFront(front, x);
    Operations.StripRightKeeps(StripLeft(front), x);
  }

  lemma {:induction false} StripLeftFront(front: string, x: string)
    requires front != "" && front[|front| - 1] == ':'
    ensures var g := StripLeft(front);
      && StripLeft(front + x) == g + x && g != "" && g[|g| - 1] == ':'
  {
    assert (front + x)[0] == front[0] && (front + x)[1..] == front[1..] + x;
    if IsSpace(front[0]) {
      StripLeftFront(front[1..], x);
    }
  }

  /** What such text puts in front decides whether the whole is a path, unless a path follows it. */
  lemma FrontIsRemote(g: string, x: string)
    requires g != "" && g[|g| - 1] == ':'
    ensures IsRemote(g + x) ==> IsRemote(g)
    ensures IsRemote(g) && (x == "" || x[0] != '/') ==> IsRemote(g + x)
  {
    var here, up, docker := "./", "../", "docker://";
    assert here[0] == '.' && here[1] == '/' && up[0] == '.' && up[1] == '.' && up[2] == '/';
    assert forall i :: 0 <= i < |g| ==> (g + x)[i] == g[i];
    if docker <= g + x && |g| < 9 {
      assert g[|g| - 1] == docker[|g| - 1];
      assert |g| == 7;
      assert (g + x)[7] == x[0];
    }
  }

  lemma {:induction false} DottedEndsInDigit(s: string, more: nat)
    requires IsDotted(s, more)
    ensures s != "" && '0' <= s[|s| - 1] <= '9'
    decreases more
  {
    CutIsPartition(s, '.');
    var parts := Cut(s, '.');
    if parts.1.Some? {
      DottedEndsInDigit(parts.1.value, more - 1);
    } else {
      assert s[|s| - 1] in s;
    }
  }

  /** A remote reference that ends like no commit and no version is flagged, whatever is immutable. */
  lemma OddEndIsFlagged(uses: string, immutable: set<string>)
    requires var raw := Strip(uses); raw != "" && 'g' <= raw[|raw| - 1] <= 'z' && IsRemote(raw)
    ensures Operations.Flag(uses, immutable).Some?
  {
    hide Cut, SplitActionName, Strip;
    var raw := Strip(uses);
    CutIsPartition(raw, '@');
    var ref := Cut(raw, '@').1;
    if Truthy(ref) {
      assert ref.value[|ref.value| - 1] == raw[|raw| - 1];
      OddEndIsNoVersion(ref.value);
    }
  }

  lemma OddEndIsNoVersion(ref: string)
    requires ref != "" && 'g' <= ref[|ref| - 1] <= 'z'
    ensures ClassifyRef(ref) == BranchPinned || ClassifyRef(ref) == UnknownRef
  {
    var last := ref[|ref| - 1];
    assert last in ref && !IsHex(last) && BeforeFinalNewline(ref) == ref;
    if IsVersionTag(ref) {
      DottedEndsInDigit(if ref[0] == 'v' then ref[1..] else ref, 2);
    }
  }

  /** Local paths and Docker images are not flagged and have no owner. */
  lemma NotRemote(uses: string, immutable: set<string>)
    requires !IsRemote(Strip(uses))
    ensures Operations.Flag(uses, immutable).None? && Classify(uses).owner.None?
  {
    hide Cut, SplitActionName, Strip, ClassifyRef;
  }

  lemma ProbedChars()
    ensures PROBED != "" && PROBED[0] == 'a' && PROBED[|PROBED| - 1] == 'l' && '@' !in PROBED
  {
    assert PROBED == "a/workflows/b.yml:a/workflows/b.yml";
  }

  lemma ProbedText()
    ensures PROBED != "" && PROBED[0] == 'a' && PROBED[|PROBED| - 1] == 'l' && '@' !in PROBED
    ensures StripRight(PROBED) == PROBED && Strip(PROBED) == PROBED && IsRemote(PROBED)
  {
    hide PROBED;
    ProbedChars();
    StripRightStops(PROBED);
    StripLeftStops(PROBED);
  }

  /** If something can follow the front of a tool's name to be flagged, the probe can. */
  lemma ProbeIsFlagged(front: string, x: string, immutable: set<string>)
    requires front != "" ==> front[|front| - 1] == ':'
    requires Operations.Flag(front + x, immutable).Some?
    ensures Operations.Flag(front + PROBED, {}).Some?
  {
    hide StripLeft, StripRight, IsRemote, Operations.Flag, PROBED;
    ProbedText();
    if front == "" {
      assert front + PROBED == PROBED;
    } else {
      RemoteFront(front, x, immutable);
    }
    OddEndIsFlagged(front + PROBED, {});
  }

  /** The probe after a front that some reference after it leaves remote. */
  lemma RemoteFront(front: string, x: string, immutable: set<string>)
    requires front != "" && front[|front| - 1] == ':'
    requires Operations.Flag(front + x, immutable).Some? || Classify(front + x).owner.Some?
    ensures var raw := Strip(front + PROBED);
      raw == StripLeft(front) + PROBED && raw[|raw| - 1] == 'l' && IsRemote(raw)
    ensures IsRemote(Strip(front + x))
  {
    hide StripLeft, StripRight, IsRemote, Operations.Flag, Classify, PROBED;
    ProbedText();
    StripFront(front, x);
    StripFront(front, PROBED);
    var g := StripLeft(front);
    if !IsRemote(Strip(front + x)) {
      NotRemote(front + x, immutable);
    }
    FrontIsRemote(g, StripRight(x));
    FrontIsRemote(g, PROBED);
  }

  lemma {:induction false} CutAppend(a: string, b: string, sep: char)
    ensures sep in a ==> Cut(a + b, sep).0 == Cut(a, sep).0 && Cut(a + b, sep).1.Some?
    ensures sep !in a ==> Cut(a + b, sep) == (a + Cut(b, sep).0, Cut(b, sep).1)
  {
    if a == "" {
      assert a + b == b && a + Cut(b, sep).0 == Cut(b, sep).0;
    } else {
      assert (a + b)[1..] == a[1..] + b && a[0] in a;
      if a[0] != sep {
        CutAppend(a[1..], b, sep);
        assert [a[0]] + (a[1..] + Cut(b, sep).0) == a + Cut(b, sep).0;
      }
    }
  }

  /** The owner of a remote reference. */
  lemma OwnerOf(uses: string)
    requires IsRemote(Strip(uses))
    ensures Classify(uses).owner == SplitActionName(Cut(Strip(uses), '@').0).0
  {
    hide Cut, SplitActionName, Strip, ClassifyRef;
  }

  /** An owner is what precedes the first slash of the name. */
  lemma OwnerOfName(name: string)
    ensures Truthy(SplitActionName(name).0) <==> Cut(name, '/').1.Some? && Cut(name, '/').0 != ""
  {
    hide Cut;
  }

  lemma NameAfter(g: string, x: string)
    ensures var n, p := Cut(g + x, '@').0, Cut(g + PROBED, '@').0;
      Truthy(SplitActionName(n).0) && g != "" ==> Truthy(SplitActionName(p).0)
  {
    hide Cut, SplitActionName, PROBED;
    ProbedText();
    CutAppend(g, x, '@');
    CutAppend(g, PROBED, '@');
    var n, p := Cut(g + x, '@').0, Cut(g + PROBED, '@').0;
    if '@' !in g {
      CutMisses(PROBED, '@');
      CutAppend(g, Cut(x, '@').0, '/');
      CutAppend(g, PROBED, '/');
      ProbedOwner();
    }
    OwnerOfName(n);
    OwnerOfName(p);
  }

  lemma ProbedOwner()
    ensures Cut(PROBED, '/').0 == "a" && Cut(PROBED, '/').1.Some?
  {
    assert PROBED == "a" + ['/'] + "workflows/b.yml:a/workflows/b.yml";
    CutFinds("a", '/', "workflows/b.yml:a/workflows/b.yml");
  }

  lemma ProbeIsUntrusted(front: string, x: string, publishers: set<string>)
    requires front != "" ==> front[|front| - 1] == ':'
    requires IsUntrusted(front + x, publishers)
    ensures IsUntrusted(front + PROBED, {})
  {
    hide StripLeft, StripRight, IsRemote, Classify, Cut, SplitActionName, PROBED;
    ProbedText();
    if front == "" {
      assert front + PROBED == PROBED;
      CutMisses(PROBED, '@');
      ProbedOwner();
      OwnerOfName(PROBED);
      OwnerOf(PROBED);
    } else {
      RemoteFront(front, x, {});
      StripFront(front, x);
      OwnerOf(front + x);
      OwnerOf(front + PROBED);
      NameAfter(StripLeft(front), StripRight(x));
    }
  }

  lemma {:induction false} ContainsAfter(a: string, b: string, t: string)
    requires Contains(b, t)
    ensures Contains(a + b, t)
  {
    if a == "" {
      assert a + b == b;
    } else {
      assert (a + b)[1..] == a[1..] + b;
      ContainsAfter(a[1..], b, t);
    }
  }

  lemma ProbeHasBasename(front: string)
    ensures Basename(front + PROBED) == "b.yml" && Basename(WORKFLOW) == "ci.yml"
  {
    hide Basename;
    var before := front + "a/workflows/b.yml:a/workflows";
    assert front + PROBED == before + "/" + "b.yml";
    assert WORKFLOW == ".github/workflows" + "/" + "ci.yml";
    BasenameOf(before + "/", "b.yml");
    BasenameOf(".github/workflows" + "/", "ci.yml");
  }

  lemma ProbeNamesWorkflow(front: string)
    ensures NamesWorkflow(front + PROBED)
  {
    hide Contains, EndsWith, PROBED;
    ProbedContains();
    ProbedEnds();
    ContainsAfter(front, PROBED, "workflows");
    EndsAfter(front, PROBED, ".yml");
  }

  lemma ProbedContains()
    ensures Contains(PROBED, "workflows")
  {
    hide Contains;
    var end := "/b.yml:a/workflows/b.yml";
    assert PROBED == "a/" + ("workflows" + end);
    StartContains("workflows", end);
    ContainsAfter("a/", "workflows" + end, "workflows");
  }

  lemma ProbedEnds()
    ensures EndsWith(PROBED, ".yml")
  {
    assert PROBED == "a/workflows/b.yml:a/workflows/b" + ".yml";
    EndsAfter("a/workflows/b.yml:a/workflows/b", ".yml", ".yml");
  }

  lemma StartContains(t: string, b: string)
    ensures Contains(t + b, t)
  {
  }

  lemma EndsAfter(a: string, b: string, t: string)
    requires EndsWith(b, t)
    ensures EndsWith(a + b, t)
  {
  }

  lemma ProbeIsCall(front: string, x: string)
    requires IsCallPath(front + x) && (front == "" || front[|front| - 1] == ':')
    ensures IsCallPath(front + PROBED) && Basename(front + PROBED) != Basename(WORKFLOW)
  {
    hide NamesWorkflow, PROBED, Basename, WORKFLOW, IsRemote;
    ProbeHasBasename(front);
    ProbeNamesWorkflow(front);
    ProbedText();
    assert "b.yml"[0] != "ci.yml"[0];
    if front == "" {
      assert front + PROBED == PROBED;
    } else {
      assert (front + x)[0] == front[0] == (front + PROBED)[0];
    }
  }

  /** Where some result of a tool can be reported as native, one whose rule is the probe can. */
  lemma ProbeCanReport(s: Settings, path: string, findingType: string, front: string, x: string)
    requires front == "" || front[|front| - 1] == ':'
    requires CanReportAt(s, path, findingType, front + x)
    ensures CanReportAt(Probing(s.publishers.Some?), WORKFLOW, findingType, front + PROBED)
  {
    hide Operations.Flag, IsUntrusted, IsCallPath, Basename, PROBED, WORKFLOW, IsRemote;
    ProbedText();
    assert front + PROBED != "";
    if findingType == "unpinned_action" {
      ProbeIsFlagged(front, x, s.immutable);
    } else if findingType == "unverified_publisher" {
      ProbeIsUntrusted(front, x, s.publishers.value);
    } else if findingType == "missing_reusable_workflow" {
      ProbeIsCall(front, x);
    }
  }

  lemma WorkflowPath()
    ensures WORKFLOW == WORKFLOWS + "ci.yml" && ':' !in WORKFLOW
  {
  }

  lemma WorkflowIsListed()
    ensures IsListed(WORKFLOW) && ':' !in WORKFLOW
  {
    hide WORKFLOW, WORKFLOWS;
    WorkflowPath();
    assert WORKFLOW[|WORKFLOWS|..] == "ci.yml";
    EndsAfter("ci", ".yml", ".yml");
    assert "ci.yml" == "ci" + ".yml";
  }

  /**
   Some result of a tool shares its row with something an audit can report, without colons in
   any path, exactly when the audit can report, under the first field of the tool's name, what the
   rest of the name and the probe spell.
   */
  lemma ToolSharesIff(repo: RepoId, tool: string, checked: bool)
    requires IsToolName(tool)
    ensures ToolCanShare(repo, tool, checked) <==>
      CanReportAt(Probing(checked), WORKFLOW, FirstField(tool), Front(tool) + PROBED)
  {
    hide IsToolName, FirstField, Front, CanReportAt, CanShare, PROBED, WORKFLOW;
    FrontEnds(tool, "");
    if CanReportAt(Probing(checked), WORKFLOW, FirstField(tool), Front(tool) + PROBED) {
      ProbeShares(repo, tool, Probing(checked));
    }
    if s: Settings, run: SarifRun, result: SarifResult :|
      s.publishers.Some? == checked && ToolOf(run) == tool && ':' !in OrEmpty(result.uri)
      && CanShare(repo, s, run, result) {
      SharesIff(repo, s, run, result);
      ReportedAt(s, result.uri.value, run, result);
      ProbeCanReport(s, result.uri.value, FirstField(tool), Front(tool), RuleOf(result) + ":" + RefOf(result));
    }
  }

  lemma ReportedAt(s: Settings, path: string, run: SarifRun, result: SarifResult)
    requires CanReport(s, path, Native(NativeType(run), Some(NativeLocus(run, result))))
    ensures CanReportAt(s, path, FirstField(ToolOf(run)),
                        Front(ToolOf(run)) + (RuleOf(result) + ":" + RefOf(result)))
  {
    hide CanReportAt, ToolOf, FirstField, Front, RuleOf, RefOf;
  }

  lemma ProbeShares(repo: RepoId, tool: string, s: Settings)
    requires IsToolName(tool) && CanReportAt(s, WORKFLOW, FirstField(tool), Front(tool) + PROBED)
    ensures ToolCanShare(repo, tool, s.publishers.Some?)
  {
    hide IsToolName, FirstField, Front, CanShare, WORKFLOW, ToolOf, IsListed;
    var run, result := SarifRun(Some(tool), [], []), Hit(PROBE);
    assert tool != "" by { ReportedIsNamed(s, tool); }
    NameIsTool(tool, run);
    WorkflowIsListed();
    assert RuleOf(result) + ":" + RefOf(result) == PROBED;
    SharesIff(repo, s, run, result);
  }

  lemma ReportedIsNamed(s: Settings, tool: string)
    requires CanReportAt(s, WORKFLOW, FirstField(tool), Front(tool) + PROBED)
    ensures tool != ""
  {
  }

  /** Of the names without a colon these are exactly the types with a locus; publishers have to be checked for one. */
  lemma ColonFreeToolSharesIff(repo: RepoId, tool: string, checked: bool)
    requires IsToolName(tool) && ':' !in tool
    ensures ToolCanShare(repo, tool, checked) <==> tool in LOCATED && (tool == "unverified_publisher" ==> checked)
  {
    hide IsToolName, FirstField, Front, PROBED, WORKFLOW, ToolCanShare, Operations.Flag, IsUntrusted, IsCallPath;
    ToolSharesIff(repo, tool, checked);
    PlainName(tool);
    ProbedText();
    assert Front(tool) + PROBED == PROBED == "" + PROBED;
    ProbeIsEverything();
  }

  /** The probe is an unpinned reference, an untrusted one and a call. */
  lemma ProbeIsEverything()
    ensures Operations.Flag(PROBED, {}).Some? && IsUntrusted(PROBED, {})
    ensures IsCallPath(PROBED) && Basename(PROBED) != Basename(WORKFLOW)
  {
    hide Cut, SplitActionName, Operations.Flag, IsRemote, PROBED, WORKFLOW, Basename, NamesWorkflow;
    ProbedText();
    OddEndIsFlagged(PROBED, {});
    OwnerOf(PROBED);
    CutMisses(PROBED, '@');
    ProbedOwner();
    OwnerOfName(PROBED);
    assert "" + PROBED == PROBED && "b.yml"[0] != "ci.yml"[0];
    ProbeNamesWorkflow("");
    ProbeHasBasename("");
  }

  /** A row as an audit writes it. */
  ghost predicate IsReportable(checked: bool, row: Row) {
    row.path.Some? && exists s: Settings ::
      s.publishers.Some? == checked && CanReport(s, row.path.value, Native(row.findingType, row.ref))
  }

  /** Ingests filed under the tool leave every row as it is that an audit can have written. */
  ghost predicate LeavesReportableAlone(tool: string, checked: bool) {
    forall t: Table, repo, doc, now, fp ::
      Fit(t) && IsReport(doc, tool) && fp in t && IsReportable(checked, t[fp]) ==>
        SameRow(t, Ingested(t, repo, doc, now), fp)
  }

  /** A reported finding in the row of a reportable one makes the probe reportable. */
  lemma OverwriterIsProbed(s: Settings, repo: RepoId, run: SarifRun, result: SarifResult, path: string, row: Row)
    requires ':' !in OrEmpty(result.uri) && row.path == Some(path) && ':' !in path
    requires CanReport(s, path, Native(row.findingType, row.ref))
    requires KeyOfRow(row) == KeyOf(repo, FindingOf(run, result))
    ensures CanReportAt(Probing(s.publishers.Some?), WORKFLOW, FirstField(ToolOf(run)), Front(ToolOf(run)) + PROBED)
  {
    hide FirstField, Front, CanReportAt, PROBED, WORKFLOW, ToolOf, Key, KeyOf, FindingOf, IsListed, CanReport;
    var n, tool := Native(row.findingType, row.ref), ToolOf(run);
    ReportedTypes(s, path, n);
    NativeTypes(n.findingType);
    SameRowIff(repo, run, result, row.repo, row.path, n.findingType, n.ref);
    LocusIsNotEmpty(run, result);
    ReportedAt(s, path, run, result);
    FrontEnds(tool, "");
    ProbeCanReport(s, path, FirstField(tool), Front(tool), RuleOf(result) + ":" + RefOf(result));
  }

  lemma ReportableStays(tool: string, checked: bool, t: Table, repo: RepoId, doc: Document, now: Time, fp: Fingerprint)
    requires !CanReportAt(Probing(checked), WORKFLOW, FirstField(tool), Front(tool) + PROBED)
    requires Fit(t) && IsReport(doc, tool) && fp in t && IsReportable(checked, t[fp])
    ensures SameRow(t, Ingested(t, repo, doc, now), fp)
  {
    hide FirstField, Front, CanReportAt, PROBED, WORKFLOW, ToolOf, Ingested, Key, KeyOf, FindingOf, CanReport,
         ParsedFindings, Like, PatternOf, ToolsIn;
    IngestKeeps(t, repo, doc, now);
    var row := Ingested(t, repo, doc, now)[fp];
    var s: Settings :|
      s.publishers.Some? == checked && CanReport(s, row.path.value, Native(row.findingType, row.ref));
    ReportedTypes(s, row.path.value, Native(row.findingType, row.ref));
    NativeTypes(row.findingType);
    if KeyOfRow(row) in ReportedBy(repo, doc, now) {
      var x :| x in Sightings(ParsedFindings(doc), now) && KeyOf(repo, x.finding) == KeyOfRow(row);
      var run, result := ParsedComesFrom(doc, x.finding);
      OverwriterIsProbed(s, repo, run, result, row.path.value, row);
    }
    if Selects(doc, row.findingType) {
      var name :| name in ToolsIn(doc) && Like(PatternOf(name), row.findingType);
      SelectedHoldsColon(name, row.findingType);
    }
    LeftAsItWas(t, IngestOp(repo, doc, now), fp);
  }

  /**
   What an audit can write is left alone by every ingest filed under a tool, exactly when none of
   the tool's results can share a row with it.
   */
  lemma ReportableAloneIff(repo: RepoId, tool: string, checked: bool)
    requires IsToolName(tool)
    ensures LeavesReportableAlone(tool, checked) <==> !ToolCanShare(repo, tool, checked)
  {
    hide IsToolName, FirstField, Front, CanReportAt, PROBED, WORKFLOW, Ingested, IsReport, Fit, IsReportable,
         ToolCanShare;
    ToolSharesIff(repo, tool, checked);
    if CanReportAt(Probing(checked), WORKFLOW, FirstField(tool), Front(tool) + PROBED) {
      ReportableIsOverwritten(tool, checked);
    } else {
      forall t: Table, r, doc, now, fp |
        Fit(t) && IsReport(doc, tool) && fp in t && IsReportable(checked, t[fp])
        ensures SameRow(t, Ingested(t, r, doc, now), fp)
      {
        ReportableStays(tool, checked, t, r, doc, now, fp);
      }
    }
  }

  lemma ReportableIsOverwritten(tool: string, checked: bool)
    requires IsToolName(tool)
    requires CanReportAt(Probing(checked), WORKFLOW, FirstField(tool), Front(tool) + PROBED)
    ensures !LeavesReportableAlone(tool, checked)
  {
    hide IsToolName, FirstField, Front, CanReportAt, WORKFLOW, IsListed, Ingested, IsReport, Fit, KeyOf, Reported,
         Loud;
    var rest := Front(tool) + PROBED;
    WorkflowIsListed();
    ReportedTypes(Probing(checked), WORKFLOW, Native(FirstField(tool), Some(rest)));
    FrontEnds(tool, PROBED);
    NativeRowIsOverwritten(tool, PROBE, rest);
    assert IsReportable(checked, NativeRow(tool, rest));
  }

  /**
   For one: rule x of a tool called unpinned_action, and the audit's finding for `uses: x:x`. Rule
   ./x of that tool shares its row with nothing: `./x:./x` is a local path and is not flagged.
   */
  lemma UnpinnedActionShares(repo: RepoId, s: Settings)
    ensures var run := SarifRun(Some("unpinned_action"), [], []);
      && KeyOf(repo, FindingOf(run, Hit("x"))) == Key(repo, Some(WORKFLOW), "unpinned_action", Some("x:x"))
      && CanReport(s, WORKFLOW, Native("unpinned_action", Some("x:x")))
      && !CanShare(repo, s, run, Hit("./x"))
  {
    hide ToolOf, CanShare, CanReport, Operations.Flag, Key, KeyOf, FindingOf, WORKFLOW, IsListed, Strip, Front,
         RuleOf, RefOf, NativeType, Classify, IsRemote;
    var run := SarifRun(Some("unpinned_action"), [], []);
    assert "x" + ":" + "x" == "x:x" && "./x" + ":" + "./x" == "./x:./x";
    UnpinnedRun(run);
    WorkflowIsListed();
    UnpinnedHit(repo, run, "x");
    UnpinnedHit(repo, run, "./x");
    FlaggedAndNot(s.immutable);
    UnpinnedReports(s, WORKFLOW, "x:x");
    UnpinnedSharesIff(repo, s, run, Hit("./x"));
  }

  lemma UnpinnedRun(run: SarifRun)
    requires run.name == Some("unpinned_action")
    ensures ToolOf(run) == "unpinned_action"
  {
    hide ToolOf, ResolveNameOf;
    UnpinnedActionIsName();
    NameIsTool("unpinned_action", run);
  }

  lemma UnpinnedHit(repo: RepoId, run: SarifRun, rule: string)
    requires ToolOf(run) == "unpinned_action" && rule != ""
    ensures KeyOf(repo, FindingOf(run, Hit(rule))) ==
      Key(repo, Some(WORKFLOW), "unpinned_action", Some(rule + ":" + rule))
    ensures Hit(rule).uri == Some(WORKFLOW) && RuleOf(Hit(rule)) == RefOf(Hit(rule)) == rule
  {
    hide ToolOf, SeverityOf, RuleLevels, WORKFLOW;
    assert "unpinned_action" + ":" + rule + ":" + rule == "unpinned_action" + ":" + (rule + ":" + rule);
  }

  lemma FlaggedAndNot(immutable: set<string>)
    ensures Operations.Flag("x:x", immutable).Some? && Operations.Flag("./x:./x", immutable).None?
  {
    hide Operations.Flag, Strip;
    StripStrips("x:x");
    OddEndIsFlagged("x:x", immutable);
    StripStrips("./x:./x");
    assert "./" <= "./x:./x";
    NotRemote("./x:./x", immutable);
  }

  lemma UnpinnedActionIsName()
    ensures IsToolName("unpinned_action")
  {
    StripStrips("unpinned_action");
    assert Lower("unpinned_action") == "unpinned_action";
  }

  // ---------------------------------------------------------------------------------------
  // Colons in paths
  // ---------------------------------------------------------------------------------------

  function HitAt(rule: string, uri: string): SarifResult {
    SarifResult(Some(rule), None, None, Some(uri), None, None)
  }

  /** Whatever the tool: the uri of a result can pass for a path, a native type and the start of a locus. */
  lemma ColonInUriShares(repo: RepoId, s: Settings, run: SarifRun)
    ensures CanShare(repo, s, run, HitAt("x", WORKFLOW + ":unpinned_action:x"))
  {
    hide ToolOf, WORKFLOW, IsListed, Operations.Flag, Reports, CanReport, AllListed, Key, KeyOf, FindingOf;
    var ref := "x:" + (ToolOf(run) + ":x:x");
    var n := Native("unpinned_action", Some(ref));
    WorkflowIsListed();
    OddRefIsFlagged(ToolOf(run), s.immutable);
    UnpinnedReports(s, WORKFLOW, ref);
    OffenderIsReported(s, WORKFLOW, n);
    UriKey(repo, run);
    assert PlainFiles([Offender(WORKFLOW, n)]);
  }

  lemma UriKey(repo: RepoId, run: SarifRun)
    ensures Key(repo, Some(WORKFLOW), "unpinned_action", Some("x:" + (ToolOf(run) + ":x:x"))) ==
      KeyOf(repo, FindingOf(run, HitAt("x", WORKFLOW + ":unpinned_action:x")))
  {
    hide ToolOf, SeverityOf, RuleLevels, WORKFLOW;
    assert (ToolOf(run) + ":" + "x") + ":" + "x" == ToolOf(run) + ":x:x";
    assert WORKFLOW + ":unpinned_action:x" + ":" + (ToolOf(run) + ":x:x") ==
      WORKFLOW + ":" + ("unpinned_action" + ":" + ("x:" + (ToolOf(run) + ":x:x")));
  }

  lemma OddRefIsFlagged(tool: string, immutable: set<string>)
    ensures Operations.Flag("x:" + (tool + ":x:x"), immutable).Some?
  {
    hide Operations.Flag, Strip;
    var ref := "x:" + (tool + ":x:x");
    assert ref[0] == 'x' && ref[1] == ':' && ref[|ref| - 1] == 'x';
    StripStrips(ref);
    OddEndIsFlagged(ref, immutable);
  }

  /** Some result of this run, at a path without a colon, shares its row with a finding at a path with one. */
  ghost predicate SharesWithColonPath(repo: RepoId, s: Settings, run: SarifRun) {
    exists result: SarifResult, path, n :: ':' !in OrEmpty(result.uri) && ':' in path && CanReport(s, path, n)
      && Key(repo, Some(path), n.findingType, n.ref) == KeyOf(repo, FindingOf(run, result))
  }

  /**
   Without colons in the scanner's paths and the tool's name, a native finding at a path with a
   colon can be in a result's row exactly when the tool's name can be part of a file's.
   */
  lemma ColonInNativePathIff(repo: RepoId, s: Settings, run: SarifRun)
    requires ':' !in ToolOf(run)
    ensures SharesWithColonPath(repo, s, run) <==> '/' !in ToolOf(run)
  {
    hide ToolOf, CanReport, Key, KeyOf, FindingOf;
    if '/' !in ToolOf(run) {
      FileNamedAfterTool(repo, s, run);
    }
    if result: SarifResult, path, n :|
      ':' !in OrEmpty(result.uri) && ':' in path && CanReport(s, path, n)
      && Key(repo, Some(path), n.findingType, n.ref) == KeyOf(repo, FindingOf(run, result)) {
      ToolIsInPath(repo, s, run, result, path, n);
    }
  }

  function FileNamedAfter(tool: string): string {
    WORKFLOWS + "a" + ":" + (tool + ":" + "x.yml")
  }

  const RULE_IN_PATH := "x.yml" + ":" + "unpinned_action"

  lemma FileNamedAfterTool(repo: RepoId, s: Settings, run: SarifRun)
    requires '/' !in ToolOf(run)
    ensures SharesWithColonPath(repo, s, run)
  {
    hide ToolOf, Operations.Flag, IsListed, CanReport, Key, KeyOf, FindingOf, FileNamedAfter, Strip, IsRemote;
    var ref := RULE_IN_PATH;
    var result := HitAt(ref, WORKFLOWS + "a");
    var path, n := FileNamedAfter(ToolOf(run)), Native("unpinned_action", Some(ref));
    NamedFileIsListed(ToolOf(run));
    NamedFileIsFlagged(s.immutable);
    UnpinnedReports(s, path, ref);
    NamedFileKey(repo, run);
    assert ':' !in OrEmpty(result.uri);
  }

  lemma NamedFileIsFlagged(immutable: set<string>)
    ensures Operations.Flag(RULE_IN_PATH, immutable).Some?
  {
    hide Operations.Flag, Strip;
    StripStrips(RULE_IN_PATH);
    OddEndIsFlagged(RULE_IN_PATH, immutable);
  }

  lemma NamedFileKey(repo: RepoId, run: SarifRun)
    ensures Key(repo, Some(FileNamedAfter(ToolOf(run))), "unpinned_action", Some(RULE_IN_PATH)) ==
      KeyOf(repo, FindingOf(run, HitAt(RULE_IN_PATH, WORKFLOWS + "a")))
  {
    hide ToolOf, SeverityOf, RuleLevels, WORKFLOWS, RULE_IN_PATH;
    assert RULE_IN_PATH == "x.yml" + ":" + "unpinned_action" != "" by { RuleInPath(); }
    Regrouped(WORKFLOWS + "a", ToolOf(run), "x.yml", "unpinned_action");
  }

  lemma RuleInPath()
    ensures RULE_IN_PATH == "x.yml" + ":" + "unpinned_action" != ""
  {
  }

  lemma Regrouped(uri: string, tool: string, file: string, findingType: string)
    ensures var rule := file + ":" + findingType;
      uri + ":" + (tool + ":" + file) + ":" + (findingType + ":" + rule) ==
        uri + ":" + ((tool + ":" + rule) + ":" + rule)
  {
  }

  lemma NamedFileIsListed(tool: string)
    requires '/' !in tool
    ensures IsListed(FileNamedAfter(tool)) && ':' in FileNamedAfter(tool)
  {
    var name := "a:" + (tool + ":x.yml");
    assert FileNamedAfter(tool) == WORKFLOWS + name && name[1] == ':';
    assert FileNamedAfter(tool)[|WORKFLOWS|..] == name;
    assert name == "a:" + tool + ":x" + ".yml";
    EndsAfter("a:" + tool + ":x", ".yml", ".yml");
    assert FileNamedAfter(tool)[|WORKFLOWS| + 1] == ':';
  }

  lemma ToolIsInPath(repo: RepoId, s: Settings, run: SarifRun, result: SarifResult, path: string, n: Native)
    requires ':' !in ToolOf(run) && ':' !in OrEmpty(result.uri) && ':' in path && CanReport(s, path, n)
    requires Key(repo, Some(path), n.findingType, n.ref) == KeyOf(repo, FindingOf(run, result))
    ensures '/' !in ToolOf(run)
  {
    hide ToolOf, RuleOf, RefOf, FirstField, CanReportAt, IsListed, Key, KeyOf, FindingOf;
    var front := FirstField(path);
    FirstFieldCuts(path);
    var rest := path[|front| + 1..];
    AfterPath(repo, run, result, path, front, rest, n);
    NameHoldsRest(path, rest, front);
    FieldIsPrefix(rest);
    assert forall c :: c in FirstField(rest) ==> c in rest;
  }

  lemma AfterPath(repo: RepoId, run: SarifRun, result: SarifResult, path: string, front: string, rest: string,
                  n: Native)
    requires ':' !in ToolOf(run) && ':' !in OrEmpty(result.uri) && path == front + ":" + rest && ':' !in front
    requires Key(repo, Some(path), n.findingType, n.ref) == KeyOf(repo, FindingOf(run, result))
    ensures FirstField(rest) == ToolOf(run)
  {
    hide ToolOf, SeverityOf, RuleLevels, RuleOf, RefOf, FirstField, Key, KeyOf;
    var f := FindingOf(run, result);
    var end, tail := RuleOf(result) + ":" + RefOf(result), n.findingType + ":" + OrEmpty(n.ref);
    KeyTail(repo, path, n, f);
    assert f.findingType + ":" + OrEmpty(f.ref) == ToolOf(run) + ":" + end;
    assert path + ":" + tail == front + ":" + (rest + ":" + tail);
    FirstFieldIsUnique(front, rest + ":" + tail, OrEmpty(result.uri), ToolOf(run) + ":" + end, ':');
    FirstFieldStops(rest, tail);
    FirstFieldStops(ToolOf(run), end);
  }

  lemma KeyTail(repo: RepoId, path: string, n: Native, f: Finding)
    requires Key(repo, Some(path), n.findingType, n.ref) == KeyOf(repo, f)
    ensures path + ":" + (n.findingType + ":" + OrEmpty(n.ref)) ==
      OrEmpty(f.path) + ":" + (f.findingType + ":" + OrEmpty(f.ref))
  {
    KeyNamesRepo(repo, Some(path), n.findingType, n.ref, repo, f.path, f.findingType, f.ref);
  }

  lemma FieldIsPrefix(s: string)
    ensures FirstField(s) <= s
  {
    if ':' in s {
      FirstFieldCuts(s);
    } else {
      FirstFieldStops(s, "");
    }
  }

  /** What follows the first colon of an audited path lies within the file's name. */
  lemma NameHoldsRest(path: string, rest: string, front: string)
    requires IsListed(path) && path == front + ":" + rest
    ensures '/' !in rest
  {
    assert path[|front|] == ':' && ':' !in WORKFLOWS;
    assert |front| >= |WORKFLOWS|;
    var name := path[|WORKFLOWS|..];
    forall i | 0 <= i < |rest|
      ensures rest[i] != '/'
    {
      assert rest[i] == name[|front| + 1 - |WORKFLOWS| + i];
    }
  }
}
