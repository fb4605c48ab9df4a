/** The findings table over any run of audits and ingests. */
module FindingHistory {
  import opened Findings
  import opened SarifIngest

  datatype Op =
    | AuditOp(audit: Audit)
    | IngestOp(repo: RepoId, doc: Document, at: Time)

  function RepoOf(op: Op): RepoId {
    match op
    case AuditOp(a) => a.repo
    case IngestOp(repo, _, _) => repo
  }

  function Apply(t: Table, op: Op): Table {
    match op
    case AuditOp(a) => Audited(t, a)
    case IngestOp(repo, doc, at) => Ingested(t, repo, doc, at)
  }

  function After(t: Table, ops: seq<Op>): Table {
    if ops == [] then t else Apply(After(t, ops[..|ops| - 1]), ops[|ops| - 1])
  }

  lemma ApplyKeeps(t: Table, op: Op)
    requires Keyed(t)
    ensures Keeps(t, Apply(t, op), RepoOf(op))
  {
    match op {
      case AuditOp(a) => AuditOpensExactlySeen(t, a);
      case IngestOp(repo, doc, at) => IngestKeeps(t, repo, doc, at);
    }
  }

  lemma {:induction false} RunIsKeyed(t: Table, ops: seq<Op>)
    requires Keyed(t)
    ensures Keyed(After(t, ops))
  {
    if ops != [] {
      RunIsKeyed(t, ops[..|ops| - 1]);
      ApplyKeeps(After(t, ops[..|ops| - 1]), ops[|ops| - 1]);
    }
  }

  /**
   Over any run, from any point of it to any later one: a row once written stays, under its
   fingerprint, with its identity and the moment it was first seen.
   */
  lemma {:induction false} RowsLive(t: Table, ops: seq<Op>, i: nat, j: nat)
    requires Keyed(t) && i <= j <= |ops|
    ensures Extends(After(t, ops[..i]), After(t, ops[..j]))
    decreases j
  {
    hide Keyed, Apply;
    if i < j {
      var before := After(t, ops[..j - 1]);
      RowsLive(t, ops, i, j - 1);
      assert ops[..j][..j - 1] == ops[..j - 1];
      RunIsKeyed(t, ops[..j - 1]);
      ApplyKeeps(before, ops[j - 1]);
    }
  }

  /** Operations on other repositories leave a row alone. */
  lemma {:induction false} OthersLeaveRow(t: Table, ops: seq<Op>, i: nat, j: nat, fp: Fingerprint)
    requires Keyed(t) && i <= j <= |ops| && fp in After(t, ops[..i])
    requires forall k :: i <= k < j ==> RepoOf(ops[k]) != After(t, ops[..i])[fp].repo
    ensures fp in After(t, ops[..j]) && After(t, ops[..j])[fp] == After(t, ops[..i])[fp]
    decreases j
  {
    hide Keyed, Apply;
    if i < j {
      OthersLeaveRow(t, ops, i, j - 1, fp);
      assert ops[..j][..j - 1] == ops[..j - 1];
      RunIsKeyed(t, ops[..j - 1]);
      ApplyKeeps(After(t, ops[..j - 1]), ops[j - 1]);
    }
  }

  /** What an ingest reports. */
  function ReportedBy(repo: RepoId, doc: Document, at: Time): set<Fingerprint> {
    Seen(repo, Sightings(ParsedFindings(doc), at))
  }

  function KeyOfRow(row: Row): Fingerprint {
    Key(row.repo, row.path, row.findingType, row.ref)
  }

  /** The resolve pass of one of the document's tools selects a type. */
  predicate Selects(doc: Document, findingType: string) {
    exists tool :: tool in ToolsIn(doc) && Like(PatternOf(tool), findingType)
  }

  /**
   An operation that cannot open or close a row: one on another repository, or an ingest that
   neither reports the row nor runs a resolve pass that selects its type.
   */
  ghost predicate LeavesRowAlone(op: Op, row: Row) {
    || RepoOf(op) != row.repo
    || (op.IngestOp? && KeyOfRow(row) !in ReportedBy(op.repo, op.doc, op.at) && !Selects(op.doc, row.findingType))
  }

  /** A row found after such an operation was there before, as it is. */
  lemma LeftAsItWas(t: Table, op: Op, fp: Fingerprint)
    requires Keyed(t) && fp in Apply(t, op) && LeavesRowAlone(op, Apply(t, op)[fp])
    ensures fp in t && t[fp] == Apply(t, op)[fp]
  {
    hide Audited, Ingested, Selects, ReportedBy, KeyOfRow;
    ApplyKeeps(t, op);
    if RepoOf(op) == Apply(t, op)[fp].repo {
      UnselectedIsLeft(t, op.repo, op.doc, op.at, fp);
    }
  }

  lemma UnselectedIsLeft(t: Table, repo: RepoId, doc: Document, at: Time, fp: Fingerprint)
    requires Keyed(t) && fp in Ingested(t, repo, doc, at)
    requires var row := Ingested(t, repo, doc, at)[fp];
      KeyOfRow(row) !in ReportedBy(repo, doc, at) && !Selects(doc, row.findingType)
    ensures fp in t && t[fp] == Ingested(t, repo, doc, at)[fp]
  {
    hide AllUpserted, Sightings, ParsedFindings, Like, PatternOf, ToolsIn, SeenFor, Key, Seen;
    var sightings := Sightings(ParsedFindings(doc), at);
    var u := AllUpserted(t, repo, sightings);
    IngestKeeps(t, repo, doc, at);
    AllUpsertedOpens(t, repo, sightings);
    assert fp == KeyOfRow(Ingested(t, repo, doc, at)[fp]);
  }

  /** For one: an ingest of clean documents that name no tool a row is filed under. */
  lemma CleanIngestLeavesAlone(repo: RepoId, doc: Document, at: Time, row: Row)
    requires CleanDocument(doc) && PlainColumns(row.path, row.findingType)
    requires !FiledUnderAny(row.findingType, ToolsIn(doc))
    ensures LeavesRowAlone(IngestOp(repo, doc, at), row)
  {
    hide Like, CleanDocument, PlainColumns, ToolsIn, ParsedFindings, Key, KeyOf, FiledUnder;
    if KeyOfRow(row) in ReportedBy(repo, doc, at) {
      var s :| s in Sightings(ParsedFindings(doc), at) && KeyOf(repo, s.finding) == KeyOfRow(row);
      var tool := ParsedIsFiled(doc, s.finding);
      SameKeySameTool(repo, s.finding, tool, row);
    }
    if tool :| tool in ToolsIn(doc) && Like(PatternOf(tool), row.findingType) {
      CleanTools(doc, tool);
      PlainPatternIsPrefix(tool + ":", row.findingType);
      FiledUnderIsPrefix(row.findingType, tool);
    }
  }

  /** An ingest at paths without a colon, of tools not named, up to their first colon, like a native type. */
  ghost predicate SparesNative(op: Op) {
    op.IngestOp? && PlainPaths(op.doc) && forall run :: run in op.doc ==> FirstField(ToolOf(run)) !in NATIVE_TYPES
  }

  /** For another: such an ingest, for native rows, whatever wildcards or escapes its tools have in their names. */
  lemma NativeRowIsLeftAlone(op: Op, row: Row)
    requires row.findingType in NATIVE_TYPES && ':' !in OrEmpty(row.path) && SparesNative(op)
    ensures LeavesRowAlone(op, row)
  {
    hide Like, ParsedFindings, Key, KeyOf, ToolOf, ResolveNameOf, FirstField;
    NativeTypes(row.findingType);
    if KeyOfRow(row) in ReportedBy(op.repo, op.doc, op.at) {
      var s :| s in Sightings(ParsedFindings(op.doc), op.at) && KeyOf(op.repo, s.finding) == KeyOfRow(row);
      NativeKeyIsApart(op, s.finding, row);
    }
    if tool :| tool in ToolsIn(op.doc) && Like(PatternOf(tool), row.findingType) {
      SelectedHoldsColon(tool, row.findingType);
    }
  }

  lemma NativeRowIsSpared(op: Op, row: Row)
    requires row.findingType in NATIVE_TYPES && ':' !in OrEmpty(row.path)
    requires RepoOf(op) == row.repo ==> SparesNative(op)
    ensures LeavesRowAlone(op, row)
  {
    hide SparesNative;
    if RepoOf(op) == row.repo {
      NativeRowIsLeftAlone(op, row);
    }
  }

  lemma NativeKeyIsApart(op: Op, f: Finding, row: Row)
    requires SparesNative(op) && f in ParsedFindings(op.doc)
    requires row.findingType in NATIVE_TYPES && ':' !in OrEmpty(row.path)
    ensures KeyOf(op.repo, f) != KeyOfRow(row)
  {
    hide Key, KeyOf, ToolOf, RuleLevels, SeverityOf, RefOf, FirstField;
    var run, result := ParsedComesFrom(op.doc, f);
    if KeyOf(op.repo, f) == KeyOfRow(row) {
      SameKeySameFront(op.repo, f, row);
      FirstFieldStops(ToolOf(run), RuleOf(result));
      NativeTypes(row.findingType);
      FirstFieldStops(row.findingType, "");
    }
  }

  /** Looking back from a row at the end of a run: while operations leave it alone, it was the same all along. */
  lemma {:induction false} LeftSince(t: Table, ops: seq<Op>, k: nat, j: nat, fp: Fingerprint)
    requires Keyed(t) && k <= j <= |ops| && fp in After(t, ops[..j])
    requires forall i :: k <= i < j ==> LeavesRowAlone(ops[i], After(t, ops[..j])[fp])
    ensures fp in After(t, ops[..k]) && After(t, ops[..k])[fp] == After(t, ops[..j])[fp]
    decreases j
  {
    hide Keyed, Apply, LeavesRowAlone;
    if k < j {
      var before := After(t, ops[..j - 1]);
      assert ops[..j][..j - 1] == ops[..j - 1] && ops[..j][j - 1] == ops[j - 1];
      assert After(t, ops[..j]) == Apply(before, ops[j - 1]);
      RunIsKeyed(t, ops[..j - 1]);
      LeftAsItWas(before, ops[j - 1], fp);
      LeftSince(t, ops, k, j - 1, fp);
    }
  }

  /** The table right after operation k, seen from the end of the run. */
  lemma SinceOperation(t: Table, ops: seq<Op>, k: nat, fp: Fingerprint)
    requires Keyed(t) && k < |ops| && fp in After(t, ops)
    requires forall j :: k < j < |ops| ==> LeavesRowAlone(ops[j], After(t, ops)[fp])
    ensures var after := Apply(After(t, ops[..k]), ops[k]);
      fp in after && after[fp] == After(t, ops)[fp] && Keyed(After(t, ops[..k]))
  {
    hide Keyed, Apply, LeavesRowAlone;
    assert ops[..|ops|] == ops && ops[..k + 1][..k] == ops[..k] && ops[..k + 1][k] == ops[k];
    LeftSince(t, ops, k + 1, |ops|, fp);
    RunIsKeyed(t, ops[..k]);
  }

  /**
   The last audit decides: whatever happened before it, and whatever else was ingested since, a
   row of its repository is open exactly if that audit saw it.
   */
  lemma LastAuditDecides(t: Table, ops: seq<Op>, k: nat, fp: Fingerprint)
    requires Keyed(t) && k < |ops| && ops[k].AuditOp?
    requires fp in After(t, ops) && After(t, ops)[fp].repo == ops[k].audit.repo
    requires forall j :: k < j < |ops| ==> LeavesRowAlone(ops[j], After(t, ops)[fp])
    ensures Open(After(t, ops), fp) <==> fp in SeenBy(ops[k].audit)
  {
    hide Keyed, LeavesRowAlone, Audited, SeenBy;
    SinceOperation(t, ops, k, fp);
    AuditOpensExactlySeen(After(t, ops[..k]), ops[k].audit);
  }

  /**
   For a native row only the first fields of the tools' names matter: the last audit decides,
   through any later ingests that spare native rows.
   */
  lemma LastAuditDecidesNative(t: Table, ops: seq<Op>, k: nat, fp: Fingerprint)
    requires Keyed(t) && k < |ops| && ops[k].AuditOp?
    requires fp in After(t, ops) && After(t, ops)[fp].repo == ops[k].audit.repo
    requires After(t, ops)[fp].findingType in NATIVE_TYPES && ':' !in OrEmpty(After(t, ops)[fp].path)
    requires forall j :: k < j < |ops| && RepoOf(ops[j]) == ops[k].audit.repo ==> SparesNative(ops[j])
    ensures Open(After(t, ops), fp) <==> fp in SeenBy(ops[k].audit)
  {
    hide Keyed, SeenBy, SparesNative, LeavesRowAlone;
    var row := After(t, ops)[fp];
    forall j | k < j < |ops|
      ensures LeavesRowAlone(ops[j], row)
    {
      NativeRowIsSpared(ops[j], row);
    }
    LastAuditDecides(t, ops, k, fp);
  }

  /** Every resolve pass that selects a type counts the row as reported. */
  ghost predicate ReportedForAll(repo: RepoId, doc: Document, row: Row) {
    forall tool :: tool in ToolsIn(doc) && Like(PatternOf(tool), row.findingType) ==>
      KeyOfRow(row) in SeenFor(repo, ParsedFindings(doc), tool)
  }

  /** An ingest decides the rows that its resolve passes select. */
  lemma SelectedIsDecided(t: Table, repo: RepoId, doc: Document, at: Time, fp: Fingerprint)
    requires Keyed(t) && fp in Ingested(t, repo, doc, at)
    requires var row := Ingested(t, repo, doc, at)[fp]; row.repo == repo && Selects(doc, row.findingType)
    ensures Open(Ingested(t, repo, doc, at), fp) <==> ReportedForAll(repo, doc, Ingested(t, repo, doc, at)[fp])
  {
    hide AllUpserted, Sightings, ParsedFindings, Like, PatternOf, ToolsIn, SeenFor, Key, Seen, Keeps;
    var findings := ParsedFindings(doc);
    var sightings := Sightings(findings, at);
    var u := AllUpserted(t, repo, sightings);
    IngestKeeps(t, repo, doc, at);
    AllUpsertedKeeps(t, repo, sightings);
    AllUpsertedOpens(t, repo, sightings);
    SeenForIsSeen(repo, findings, at);
    NoEmptyKey(u);
  }

  /**
   So does the last ingest with a resolve pass that selects a row's type, whatever the names of
   its tools: the row is open exactly if every such pass counts it as reported.
   */
  lemma LastIngestDecides(t: Table, ops: seq<Op>, k: nat, fp: Fingerprint)
    requires Keyed(t) && k < |ops| && ops[k].IngestOp?
    requires fp in After(t, ops) && After(t, ops)[fp].repo == ops[k].repo
    requires Selects(ops[k].doc, After(t, ops)[fp].findingType)
    requires forall j :: k < j < |ops| ==> LeavesRowAlone(ops[j], After(t, ops)[fp])
    ensures Open(After(t, ops), fp) <==> ReportedForAll(ops[k].repo, ops[k].doc, After(t, ops)[fp])
  {
    hide Keyed, LeavesRowAlone, Ingested, Selects, ReportedForAll;
    SinceOperation(t, ops, k, fp);
    SelectedIsDecided(After(t, ops[..k]), ops[k].repo, ops[k].doc, ops[k].at, fp);
  }

  /** With clean names these are the rows filed under its tools, and the row is open exactly if it is reported. */
  lemma LastCleanIngestDecides(t: Table, ops: seq<Op>, k: nat, fp: Fingerprint)
    requires Keyed(t) && k < |ops| && ops[k].IngestOp? && CleanDocument(ops[k].doc)
    requires fp in After(t, ops) && After(t, ops)[fp].repo == ops[k].repo
    requires PlainColumns(After(t, ops)[fp].path, After(t, ops)[fp].findingType)
    requires FiledUnderAny(After(t, ops)[fp].findingType, ToolsIn(ops[k].doc))
    requires forall j :: k < j < |ops| ==> LeavesRowAlone(ops[j], After(t, ops)[fp])
    ensures Open(After(t, ops), fp) <==> fp in ReportedBy(ops[k].repo, ops[k].doc, ops[k].at)
  {
    hide Keyed, LeavesRowAlone, Ingested, FiledUnderAny, CleanDocument, PlainColumns, ToolsIn, Seen, Sightings;
    SinceOperation(t, ops, k, fp);
    IngestIsScoped(After(t, ops[..k]), ops[k].repo, ops[k].doc, ops[k].at, fp);
  }
}
