/**
 Drift between a workflow and its template: a structural diff that records what changed and
 keeps the worst level seen.
 */
module Drift {
  import opened Common
  import opened Sorting
  import opened Strings
  import opened Pins
  import opened Operations

  datatype DriftSeverity = Identical | Minor | ContentDrift | StructuralDrift

  function Order(s: DriftSeverity): nat {
    match s
    case Identical => 0
    case Minor => 1
    case ContentDrift => 2
    case StructuralDrift => 3
  }

  datatype DriftJob = DriftJob(permissions: Block, steps: seq<Step>)
  datatype Template = Template(name: Option<string>, permissions: Block, concurrency: Block,
                               jobs: map<string, DriftJob>)

  /** bool(): an empty string or mapping counts as absent. */
  predicate Present(b: Block) {
    match b
    case Absent => false
    case Text(t) => t != ""
    case Mapping(entries) => entries != []
  }

  /** How Python compares pairs of strings. */
  predicate PairLe(x: (string, string), y: (string, string)) {
    if x.0 == y.0 then StringLe(x.1, y.1) else StringLe(x.0, y.0)
  }

  /** A permissions block in the form it is compared in. */
  datatype Normal = NoPermissions | Plain(text: string) | SortedPairs(pairs: seq<(string, string)>)

  function NormPerms(perms: Block): Normal {
    match perms
    case Absent => NoPermissions
    case Text(t) => Plain(t)
    case Mapping(entries) => SortedPairs(Sort(entries, PairLe))
  }

  lemma PairLeIsOrder()
    ensures TotalPreorder(PairLe) && Antisymmetric(PairLe)
  {
    hide StringLe;
    StringLeIsOrder();
  }

  /** Two blocks compare equal exactly when they grant the same, however a mapping is ordered. */
  lemma NormPermsForgetsOrder(a: Block, b: Block)
    ensures NormPerms(a) == NormPerms(b) <==>
      if a.Mapping? && b.Mapping? then multiset(a.entries) == multiset(b.entries) else a == b
  {
    if a.Mapping? && b.Mapping? {
      PairLeIsOrder();
      SortKeeps(a.entries, PairLe);
      SortKeeps(b.entries, PairLe);
      if multiset(a.entries) == multiset(b.entries) {
        SortForgetsOrder(a.entries, b.entries, PairLe);
      }
    }
  }

  /** The uses ref of each step, or a marker for a run step; a step that is neither leaves no trace. */
  function SignatureOf(step: Step): seq<string> {
    if Truthy(step.uses) then ["uses:" + step.uses.value]
    else if step.run.Some? then ["run:"]
    else []
  }

  function Signatures(steps: seq<Step>): seq<string> {
    if steps == [] then [] else Signatures(steps[..|steps| - 1]) + SignatureOf(steps[|steps| - 1])
  }

  /** s.split("@")[0] */
  function NameOf(signature: string): string {
    Cut(signature, '@').0
  }

  function NamesOf(signatures: seq<string>): seq<string> {
    seq(|signatures|, i requires 0 <= i < |signatures| => NameOf(signatures[i]))
  }

  method StepSignatures(steps: seq<Step>) returns (sigs: seq<string>)
    ensures sigs == Signatures(steps)
  {
    sigs := [];
    assert steps[..|steps|] == steps;
    for k := 0 to |steps|
      invariant sigs == Signatures(steps[..k])
    {
      assert steps[..k + 1][..k] == steps[..k];
      var s := steps[k];
      if Truthy(s.uses) {
        sigs := sigs + ["uses:" + s.uses.value];
      } else if s.run.Some? {
        sigs := sigs + ["run:"];
      }
    }
  }

  // ---------------------------------------------------------------------------------------
  // What can change, and how bad it is
  // ---------------------------------------------------------------------------------------

  datatype Change =
    | JobMissing(job: string)
    | JobAdded(job: string)
    | StepsDiffer(job: string)
    | RefDiffers(job: string, canonical: string, candidate: string)
    | JobPermissionsDiffer(job: string)
    | WorkflowPermissionsDiffer
    | ConcurrencyPresenceDiffers
    | NameDiffers

  function LevelOf(c: Change): DriftSeverity {
    match c
    case JobMissing(_) => StructuralDrift
    case JobAdded(_) => StructuralDrift
    case StepsDiffer(_) => StructuralDrift
    case RefDiffers(_, _, _) => ContentDrift
    case JobPermissionsDiffer(_) => ContentDrift
    case WorkflowPermissionsDiffer => ContentDrift
    case ConcurrencyPresenceDiffers => ContentDrift
    case NameDiffers => Minor
  }

  function Sigs(w: Template, job: string): seq<string>
    requires job in w.jobs
  {
    Signatures(w.jobs[job].steps)
  }

  function NameOrEmpty(w: Template): string {
    if w.name.Some? then w.name.value else ""
  }

  /** What it means for a change to hold between a template and a candidate. */
  ghost predicate Holds(c: Change, a: Template, b: Template) {
    match c
    case JobMissing(j) => j in a.jobs && j !in b.jobs
    case JobAdded(j) => j in b.jobs && j !in a.jobs
    case StepsDiffer(j) => j in a.jobs && j in b.jobs && NamesOf(Sigs(a, j)) != NamesOf(Sigs(b, j))
    case RefDiffers(j, x, y) =>
      && j in a.jobs && j in b.jobs && NamesOf(Sigs(a, j)) == NamesOf(Sigs(b, j))
      && x != y && Pairs(Sigs(a, j), Sigs(b, j), x, y)
    case JobPermissionsDiffer(j) =>
      j in a.jobs && j in b.jobs && NormPerms(a.jobs[j].permissions) != NormPerms(b.jobs[j].permissions)
    case WorkflowPermissionsDiffer => NormPerms(a.permissions) != NormPerms(b.permissions)
    case ConcurrencyPresenceDiffers => Present(a.concurrency) != Present(b.concurrency)
    case NameDiffers => NameOrEmpty(a) != NameOrEmpty(b)
  }

  /** x and y stand at the same place of the two lists. */
  predicate Pairs(s: seq<string>, t: seq<string>, x: string, y: string) {
    exists k :: 0 <= k < |s| && k < |t| && s[k] == x && t[k] == y
  }

  /** The worst level among the recorded changes. */
  function Worst(changes: seq<Change>): DriftSeverity {
    if changes == [] then Identical
    else
      var rest := Worst(changes[..|changes| - 1]);
      var last := LevelOf(changes[|changes| - 1]);
      if Order(last) > Order(rest) then last else rest
  }

  // ---------------------------------------------------------------------------------------
  // The levels as agreement of projections
  // ---------------------------------------------------------------------------------------

  /** Which jobs there are, and what each step runs, refs aside. */
  function Structure(w: Template): map<string, seq<string>> {
    map j | j in w.jobs :: NamesOf(Sigs(w, j))
  }

  /** The structure with refs, permissions and whether concurrency is limited. */
  function Content(w: Template): (map<string, (seq<string>, Normal)>, Normal, bool) {
    (map j | j in w.jobs :: (Sigs(w, j), NormPerms(w.jobs[j].permissions)),
     NormPerms(w.permissions),
     Present(w.concurrency))
  }

  /** Two workflows are as far apart as the coarsest projection that tells them apart. */
  ghost function Distance(a: Template, b: Template): DriftSeverity {
    if Structure(a) != Structure(b) then StructuralDrift
    else if Content(a) != Content(b) then ContentDrift
    else if NameOrEmpty(a) != NameOrEmpty(b) then Minor
    else Identical
  }

  /** The projections are nested: what agrees on contents agrees on structure. */
  lemma ContentDecidesStructure(a: Template, b: Template)
    requires Content(a) == Content(b)
    ensures Structure(a) == Structure(b)
  {
  }

  /** IDENTICAL exactly when everything compared agrees, whichever way it is compared. */
  lemma IdenticalIffSameNormalForm(a: Template, b: Template)
    ensures Distance(a, b) == Identical <==> Content(a) == Content(b) && NameOrEmpty(a) == NameOrEmpty(b)
    ensures Distance(a, b) == Distance(b, a)
  {
    hide Structure, Content;
    if Content(a) == Content(b) {
      ContentDecidesStructure(a, b);
    }
  }

  /** Drift is an ultrametric: a detour over any third workflow is at least as bad as its worse half. */
  lemma DriftIsUltrametric(a: Template, b: Template, c: Template)
    ensures Order(Distance(a, c)) <= Order(Distance(a, b)) || Order(Distance(a, c)) <= Order(Distance(b, c))
  {
  }

  // ---------------------------------------------------------------------------------------
  // The levels, said of the workflows themselves
  // ---------------------------------------------------------------------------------------

  /** A step that uses an action or runs a script; others are not compared. */
  predicate IsCompared(step: Step) {
    (step.uses.Some? && step.uses.value != "") || step.run.Some?
  }

  function Compared(steps: seq<Step>): seq<Step> {
    if steps == [] then []
    else
      var last := steps[|steps| - 1];
      Compared(steps[..|steps| - 1]) + if IsCompared(last) then [last] else []
  }

  /** What precedes the first at sign is the same. */
  ghost predicate SameBeforeAt(u: string, v: string) {
    exists name, x, y ::
      && '@' !in name && u == name + x && v == name + y
      && (x == "" || x[0] == '@') && (y == "" || y[0] == '@')
  }

  /** Both use the same action, at the same ref or refs aside, or both just run something. */
  ghost predicate StepsAgree(x: Step, y: Step, refs: bool) {
    var usesX, usesY := x.uses.Some? && x.uses.value != "", y.uses.Some? && y.uses.value != "";
    && usesX == usesY
    && (usesX ==> if refs then x.uses == y.uses else SameBeforeAt(x.uses.value, y.uses.value))
  }

  /** The compared steps agree, one by one. */
  ghost predicate JobsAgree(s: seq<Step>, t: seq<Step>, refs: bool) {
    var x, y := Compared(s), Compared(t);
    |x| == |y| && forall k :: 0 <= k < |x| ==> StepsAgree(x[k], y[k], refs)
  }

  /** The same grants, in whatever order. */
  ghost predicate SameGrants(a: Block, b: Block) {
    if a.Mapping? && b.Mapping? then multiset(a.entries) == multiset(b.entries) else a == b
  }

  ghost predicate SameStructure(a: Template, b: Template) {
    && (forall j :: j in a.jobs <==> j in b.jobs)
    && forall j :: j in a.jobs && j in b.jobs ==> JobsAgree(a.jobs[j].steps, b.jobs[j].steps, false)
  }

  ghost predicate SameContent(a: Template, b: Template) {
    && (forall j :: j in a.jobs <==> j in b.jobs)
    && (forall j :: j in a.jobs && j in b.jobs ==>
          JobsAgree(a.jobs[j].steps, b.jobs[j].steps, true) && SameGrants(a.jobs[j].permissions, b.jobs[j].permissions))
    && SameGrants(a.permissions, b.permissions)
    && (a.concurrency in {Absent, Text(""), Mapping([])} <==> b.concurrency in {Absent, Text(""), Mapping([])})
  }

  ghost predicate SameTitle(a: Template, b: Template) {
    a.name == b.name || (a.name in {None, Some("")} && b.name in {None, Some("")})
  }

  /** The signature of a compared step. */
  function Mark(step: Step): string {
    if Truthy(step.uses) then "uses:" + step.uses.value else "run:"
  }

  function Marks(steps: seq<Step>): seq<string> {
    seq(|steps|, i requires 0 <= i < |steps| => Mark(steps[i]))
  }

  lemma {:induction false} SignaturesAreMarks(steps: seq<Step>)
    ensures Signatures(steps) == Marks(Compared(steps))
  {
    if steps != [] {
      var before, last := steps[..|steps| - 1], steps[|steps| - 1];
      SignaturesAreMarks(before);
      assert Compared(steps) == Compared(before) + if IsCompared(last) then [last] else [];
    }
  }

  lemma NameOfUses(uses: string)
    ensures NameOf("uses:" + uses) == "uses:" + Cut(uses, '@').0
    ensures NameOf("run:") == "run:"
  {
    hide Cut;
    CutMisses("run:", '@');
    CutIsPartition(uses, '@');
    var name, rest := Cut(uses, '@').0, Cut(uses, '@').1;
    var front := "uses:" + name;
    assert '@' !in front;
    if rest.Some? {
      assert "uses:" + uses == front + ['@'] + rest.value;
      CutFinds(front, '@', rest.value);
    } else {
      CutMisses(front, '@');
    }
  }

  lemma SameBeforeAtIff(u: string, v: string)
    ensures SameBeforeAt(u, v) <==> Cut(u, '@').0 == Cut(v, '@').0
  {
    hide Cut, SameBeforeAt;
    if Cut(u, '@').0 == Cut(v, '@').0 {
      CutAlike(u, v);
    }
    if SameBeforeAt(u, v) {
      AlikeCut(u, v);
    }
  }

  lemma AlikeCut(u: string, v: string)
    requires SameBeforeAt(u, v)
    ensures Cut(u, '@').0 == Cut(v, '@').0
  {
    hide Cut;
    var name, x, y :|
      '@' !in name && u == name + x && v == name + y && (x == "" || x[0] == '@') && (y == "" || y[0] == '@');
    CutBefore(name, x);
    CutBefore(name, y);
  }

  lemma CutAlike(u: string, v: string)
    requires Cut(u, '@').0 == Cut(v, '@').0
    ensures SameBeforeAt(u, v)
  {
    hide Cut;
    var name := Cut(u, '@').0;
    var x := CutRest(u);
    var y := CutRest(v);
    assert u == name + x && v == name + y;
  }

  lemma CutRest(s: string) returns (rest: string)
    ensures s == Cut(s, '@').0 + rest && (rest == "" || rest[0] == '@') && '@' !in Cut(s, '@').0
  {
    hide Cut;
    CutIsPartition(s, '@');
    rest := if Cut(s, '@').1.Some? then ['@'] + Cut(s, '@').1.value else "";
  }

  lemma CutBefore(name: string, x: string)
    requires '@' !in name && (x == "" || x[0] == '@')
    ensures Cut(name + x, '@').0 == name
  {
    if x == "" {
      assert name + x == name;
      CutMisses(name, '@');
    } else {
      assert name + x == name + ['@'] + x[1..];
      CutFinds(name, '@', x[1..]);
    }
  }

  lemma MarksAgree(x: Step, y: Step)
    ensures Mark(x) == Mark(y) <==> StepsAgree(x, y, true)
    ensures NameOf(Mark(x)) == NameOf(Mark(y)) <==> StepsAgree(x, y, false)
  {
    hide Cut, NameOf, SameBeforeAt;
    var u, v := if x.uses.Some? then x.uses.value else "", if y.uses.Some? then y.uses.value else "";
    NameOfUses(u);
    NameOfUses(v);
    SameBeforeAtIff(u, v);
    AfterUses(u, v);
    AfterUses(Cut(u, '@').0, Cut(v, '@').0);
  }

  lemma AfterUses(u: string, v: string)
    ensures "uses:" + u == "uses:" + v <==> u == v
    ensures "uses:" + u != "run:" && "uses:" + v != "run:"
  {
    assert u == ("uses:" + u)[5..] && v == ("uses:" + v)[5..];
    assert ("uses:" + u)[0] != "run:"[0] && ("uses:" + v)[0] != "run:"[0];
  }

  lemma JobsAgreeIff(s: seq<Step>, t: seq<Step>)
    ensures Signatures(s) == Signatures(t) <==> JobsAgree(s, t, true)
    ensures NamesOf(Signatures(s)) == NamesOf(Signatures(t)) <==> JobsAgree(s, t, false)
  {
    hide Signatures, Compared, Mark, NameOf, StepsAgree;
    SignaturesAreMarks(s);
    SignaturesAreMarks(t);
    var x, y := Compared(s), Compared(t);
    forall i, j | 0 <= i < |x| && 0 <= j < |y|
      ensures Mark(x[i]) == Mark(y[j]) <==> StepsAgree(x[i], y[j], true)
      ensures NameOf(Mark(x[i])) == NameOf(Mark(y[j])) <==> StepsAgree(x[i], y[j], false)
    {
      MarksAgree(x[i], y[j]);
    }
    SameMarks(x, y);
  }

  lemma SameMarks(x: seq<Step>, y: seq<Step>)
    ensures Marks(x) == Marks(y) <==> |x| == |y| && forall k :: 0 <= k < |x| ==> Mark(x[k]) == Mark(y[k])
    ensures NamesOf(Marks(x)) == NamesOf(Marks(y)) <==>
      |x| == |y| && forall k :: 0 <= k < |x| ==> NameOf(Mark(x[k])) == NameOf(Mark(y[k]))
  {
    hide Mark, NameOf;
    var m, n := Marks(x), Marks(y);
    if Marks(x) == Marks(y) {
      assert |x| == |m| == |n| == |y|;
      assert forall k :: 0 <= k < |x| ==> m[k] == Mark(x[k]) && n[k] == Mark(y[k]);
    }
    var p, q := NamesOf(m), NamesOf(n);
    if p == q {
      assert |x| == |p| == |q| == |y|;
      assert forall k :: 0 <= k < |x| ==> p[k] == NameOf(Mark(x[k])) && q[k] == NameOf(Mark(y[k]));
    }
  }

  lemma SameStructureIff(a: Template, b: Template)
    ensures Structure(a) == Structure(b) <==> SameStructure(a, b)
  {
    hide Signatures, NamesOf, JobsAgree;
    forall j | j in a.jobs && j in b.jobs
      ensures NamesOf(Sigs(a, j)) == NamesOf(Sigs(b, j)) <==> JobsAgree(a.jobs[j].steps, b.jobs[j].steps, false)
    {
      JobsAgreeIff(a.jobs[j].steps, b.jobs[j].steps);
    }
    var x, y := Structure(a), Structure(b);
    assert x.Keys == a.jobs.Keys && y.Keys == b.jobs.Keys;
    if x == y {
      assert forall j :: j in a.jobs ==> x[j] == y[j];
    }
  }

  lemma SameContentIff(a: Template, b: Template)
    ensures Content(a) == Content(b) <==> SameContent(a, b)
  {
    hide Signatures, NormPerms, JobsAgree, SameGrants;
    forall j | j in a.jobs && j in b.jobs
      ensures Sigs(a, j) == Sigs(b, j) <==> JobsAgree(a.jobs[j].steps, b.jobs[j].steps, true)
      ensures NormPerms(a.jobs[j].permissions) == NormPerms(b.jobs[j].permissions) <==>
        SameGrants(a.jobs[j].permissions, b.jobs[j].permissions)
    {
      JobsAgreeIff(a.jobs[j].steps, b.jobs[j].steps);
      GrantsIff(a.jobs[j].permissions, b.jobs[j].permissions);
    }
    GrantsIff(a.permissions, b.permissions);
    PresentIff(a.concurrency);
    PresentIff(b.concurrency);
    var x, y := Content(a).0, Content(b).0;
    assert x.Keys == a.jobs.Keys && y.Keys == b.jobs.Keys;
    if x == y {
      assert forall j :: j in a.jobs ==> x[j] == y[j];
    }
  }

  lemma GrantsIff(a: Block, b: Block)
    ensures NormPerms(a) == NormPerms(b) <==> SameGrants(a, b)
  {
    NormPermsForgetsOrder(a, b);
  }

  lemma PresentIff(b: Block)
    ensures Present(b) <==> b !in {Absent, Text(""), Mapping([])}
  {
  }

  /** The level of a drift, said of the jobs, steps, permissions, concurrency and names themselves. */
  lemma DistanceIff(a: Template, b: Template)
    ensures Distance(a, b) == StructuralDrift <==> !SameStructure(a, b)
    ensures Distance(a, b) == ContentDrift <==> SameStructure(a, b) && !SameContent(a, b)
    ensures Distance(a, b) == Minor <==> SameContent(a, b) && !SameTitle(a, b)
    ensures Distance(a, b) == Identical <==> SameContent(a, b) && SameTitle(a, b)
  {
    hide Structure, Content, SameStructure, SameContent;
    SameStructureIff(a, b);
    SameContentIff(a, b);
    if Content(a) == Content(b) {
      ContentDecidesStructure(a, b);
    }
  }

  /** What each recorded change says of the two workflows. */
  ghost predicate Says(c: Change, a: Template, b: Template) {
    match c
    case JobMissing(j) => j in a.jobs && j !in b.jobs
    case JobAdded(j) => j !in a.jobs && j in b.jobs
    case StepsDiffer(j) => j in a.jobs && j in b.jobs && !JobsAgree(a.jobs[j].steps, b.jobs[j].steps, false)
    case RefDiffers(j, x, y) =>
      && j in a.jobs && j in b.jobs && JobsAgree(a.jobs[j].steps, b.jobs[j].steps, false)
      && RefsDiffer(Compared(a.jobs[j].steps), Compared(b.jobs[j].steps), x, y)
    case JobPermissionsDiffer(j) =>
      j in a.jobs && j in b.jobs && !SameGrants(a.jobs[j].permissions, b.jobs[j].permissions)
    case WorkflowPermissionsDiffer => !SameGrants(a.permissions, b.permissions)
    case ConcurrencyPresenceDiffers =>
      a.concurrency in {Absent, Text(""), Mapping([])} <==> b.concurrency !in {Absent, Text(""), Mapping([])}
    case NameDiffers => !SameTitle(a, b)
  }

  /** Steps at one place use different references. */
  ghost predicate RefsDiffer(s: seq<Step>, t: seq<Step>, x: string, y: string) {
    exists k :: 0 <= k < |s| && k < |t| && s[k].uses.Some? && t[k].uses.Some? && s[k].uses != t[k].uses
                && x == "uses:" + s[k].uses.value && y == "uses:" + t[k].uses.value
  }

  lemma PairsIff(s: seq<Step>, t: seq<Step>, x: string, y: string)
    requires JobsAgree(s, t, false)
    ensures x != y && Pairs(Signatures(s), Signatures(t), x, y) <==> RefsDiffer(Compared(s), Compared(t), x, y)
  {
    hide Signatures, Compared, SameBeforeAt;
    SignaturesAreMarks(s);
    SignaturesAreMarks(t);
    var p, q := Compared(s), Compared(t);
    forall k | 0 <= k < |p|
      ensures StepsAgree(p[k], q[k], false) && Signatures(s)[k] == Mark(p[k]) && Signatures(t)[k] == Mark(q[k])
      ensures Mark(p[k]) != Mark(q[k]) ==> p[k].uses.Some? && q[k].uses.Some? && p[k].uses != q[k].uses
    {
    }
    if RefsDiffer(p, q, x, y) {
      var k :| 0 <= k < |p| && k < |q| && p[k].uses.Some? && q[k].uses.Some? && p[k].uses != q[k].uses
               && x == "uses:" + p[k].uses.value && y == "uses:" + q[k].uses.value;
      AfterUses(p[k].uses.value, q[k].uses.value);
      assert Signatures(s)[k] == x && Signatures(t)[k] == y;
    }
  }

  lemma SaysIff(c: Change, a: Template, b: Template)
    ensures Says(c, a, b) <==> Holds(c, a, b)
  {
    hide Signatures, NamesOf, JobsAgree, NormPerms, SameGrants, Pairs, RefsDiffer, Present, Compared;
    if (c.StepsDiffer? || c.RefDiffers? || c.JobPermissionsDiffer?) && c.job in a.jobs && c.job in b.jobs {
      JobsAgreeIff(a.jobs[c.job].steps, b.jobs[c.job].steps);
      GrantsIff(a.jobs[c.job].permissions, b.jobs[c.job].permissions);
      if c.RefDiffers? && JobsAgree(a.jobs[c.job].steps, b.jobs[c.job].steps, false) {
        PairsIff(a.jobs[c.job].steps, b.jobs[c.job].steps, c.canonical, c.candidate);
      }
    }
    GrantsIff(a.permissions, b.permissions);
    PresentIff(a.concurrency);
    PresentIff(b.concurrency);
  }

  /** The recorded changes are exactly those that hold. */
  ghost predicate Records(changes: seq<Change>, a: Template, b: Template) {
    forall c :: c in changes <==> Holds(c, a, b)
  }

  /** bump() */
  function Bump(worst: DriftSeverity, level: DriftSeverity): DriftSeverity {
    if Order(level) > Order(worst) then level else worst
  }

  lemma Append(changes: seq<Change>, c: Change)
    ensures Worst(changes + [c]) == Bump(Worst(changes), LevelOf(c))
    ensures forall x :: x in changes + [c] <==> x in changes || x == c
  {
  }

  /** The accumulated level is the maximum of the recorded ones. */
  lemma {:induction false} WorstIsMaximum(changes: seq<Change>)
    ensures forall c :: c in changes ==> Order(LevelOf(c)) <= Order(Worst(changes))
    ensures changes != [] ==> exists c :: c in changes && LevelOf(c) == Worst(changes)
    ensures changes == [] ==> Worst(changes) == Identical
  {
    hide LevelOf;
    if changes != [] {
      var before, last := changes[..|changes| - 1], changes[|changes| - 1];
      WorstIsMaximum(before);
      Append(before, last);
      assert changes == before + [last] && last in changes;
      if Worst(changes) != LevelOf(last) {
        var c :| c in before && LevelOf(c) == Worst(before);
        assert c in changes;
      }
    }
  }

  lemma StructureDiffersIff(a: Template, b: Template)
    ensures Structure(a) != Structure(b) <==> exists c :: Holds(c, a, b) && LevelOf(c) == StructuralDrift
  {
    var sa, sb := Structure(a), Structure(b);
    if sa != sb {
      var j :| (j in sa) != (j in sb) || (j in sa && j in sb && sa[j] != sb[j]);
      if j !in b.jobs {
        assert Holds(JobMissing(j), a, b);
      } else if j !in a.jobs {
        assert Holds(JobAdded(j), a, b);
      } else {
        assert Holds(StepsDiffer(j), a, b);
      }
    }
    if c :| Holds(c, a, b) && LevelOf(c) == StructuralDrift {
      assert (c.job in sa) != (c.job in sb) || sa[c.job] != sb[c.job];
    }
  }

  lemma DifferingPair(s: seq<string>, t: seq<string>) returns (k: nat)
    requires s != t && NamesOf(s) == NamesOf(t)
    ensures k < |s| && k < |t| && s[k] != t[k] && Pairs(s, t, s[k], t[k])
  {
    assert |s| == |NamesOf(s)| == |NamesOf(t)| == |t|;
    k :| 0 <= k < |s| && s[k] != t[k];
  }

  lemma ContentWitness(a: Template, b: Template) returns (c: Change)
    requires Structure(a) == Structure(b) && Content(a) != Content(b)
    ensures Holds(c, a, b) && LevelOf(c) == ContentDrift
  {
    hide Present, NamesOf, Pairs, Signatures;
    var ca, cb := Content(a).0, Content(b).0;
    assert Structure(a).Keys == a.jobs.Keys && Structure(b).Keys == b.jobs.Keys;
    if NormPerms(a.permissions) != NormPerms(b.permissions) {
      c := WorkflowPermissionsDiffer;
    } else if Present(a.concurrency) != Present(b.concurrency) {
      c := ConcurrencyPresenceDiffers;
    } else {
      assert ca != cb && ca.Keys == cb.Keys;
      var j :| j in ca && ca[j] != cb[j];
      c := JobPermissionsDiffer(j);
      if NormPerms(a.jobs[j].permissions) == NormPerms(b.jobs[j].permissions) {
        assert Structure(a)[j] == Structure(b)[j];
        var k := DifferingPair(Sigs(a, j), Sigs(b, j));
        c := RefDiffers(j, Sigs(a, j)[k], Sigs(b, j)[k]);
      }
    }
  }

  lemma ContentDiffersIff(a: Template, b: Template)
    requires Structure(a) == Structure(b)
    ensures Content(a) != Content(b) <==> exists c :: Holds(c, a, b) && LevelOf(c) == ContentDrift
  {
    var ca, cb := Content(a), Content(b);
    if ca != cb {
      var c := ContentWitness(a, b);
    }
    if c :| Holds(c, a, b) && LevelOf(c) == ContentDrift {
      if c.RefDiffers? || c.JobPermissionsDiffer? {
        assert ca.0[c.job] != cb.0[c.job];
      }
    }
  }

  /** The level a diff reports is the distance between the workflows. */
  lemma WorstIsDistance(changes: seq<Change>, a: Template, b: Template)
    requires Records(changes, a, b)
    ensures Worst(changes) == Distance(a, b)
  {
    WorstIsMaximum(changes);
    StructureDiffersIff(a, b);
    if Structure(a) == Structure(b) {
      ContentDiffersIff(a, b);
      if Content(a) == Content(b) {
        assert NameOrEmpty(a) != NameOrEmpty(b) <==> Holds(NameDiffers, a, b);
        assert forall c :: Holds(c, a, b) ==> LevelOf(c) == Minor;
      }
    }
  }

  // ---------------------------------------------------------------------------------------
  // The diff
  // ---------------------------------------------------------------------------------------

  datatype DriftReport = DriftReport(severity: DriftSeverity, changes: seq<Change>)

  /** A change about the contents of a job both workflows have. */
  predicate AboutJob(c: Change, job: string) {
    match c
    case StepsDiffer(j) => j == job
    case RefDiffers(j, _, _) => j == job
    case JobPermissionsDiffer(j) => j == job
    case _ => false
  }

  predicate AboutWorkflow(c: Change) {
    c.WorkflowPermissionsDiffer? || c.ConcurrencyPresenceDiffers? || c.NameDiffers?
  }

  /** The refs that differ between two step lists of the same names: all recorded, then one bump. */
  method RecordRefs(job: string, csig: seq<string>, dsig: seq<string>, changes0: seq<Change>, worst0: DriftSeverity)
      returns (changes: seq<Change>, worst: DriftSeverity)
    requires worst0 == Worst(changes0)
    requires NamesOf(csig) == NamesOf(dsig) && csig != dsig
    ensures worst == Worst(changes)
    ensures forall c :: c in changes <==>
      c in changes0 || (c.RefDiffers? && c.job == job && c.canonical != c.candidate
                        && Pairs(csig, dsig, c.canonical, c.candidate))
  {
    changes := changes0;
    assert |csig| == |NamesOf(csig)| == |NamesOf(dsig)| == |dsig|;
    assert csig[..|csig|] == csig && dsig[..|dsig|] == dsig;
    for k := 0 to |csig|
      invariant forall c :: c in changes <==>
        c in changes0 || (c.RefDiffers? && c.job == job && c.canonical != c.candidate
                          && Pairs(csig[..k], dsig[..k], c.canonical, c.candidate))
      invariant Worst(changes) == if csig[..k] == dsig[..k] then worst0 else Bump(worst0, ContentDrift)
    {
      MorePairs(csig, dsig, k);
      if csig[k] != dsig[k] {
        Append(changes, RefDiffers(job, csig[k], dsig[k]));
        changes := changes + [RefDiffers(job, csig[k], dsig[k])];
      }
    }
    worst := Bump(worst0, ContentDrift);
  }

  lemma MorePairs(s: seq<string>, t: seq<string>, k: nat)
    requires k < |s| && k < |t|
    ensures forall x, y :: Pairs(s[..k + 1], t[..k + 1], x, y) <==>
      Pairs(s[..k], t[..k], x, y) || (x == s[k] && y == t[k])
    ensures s[..k + 1] == t[..k + 1] <==> s[..k] == t[..k] && s[k] == t[k]
  {
    forall x, y | Pairs(s[..k], t[..k], x, y)
      ensures Pairs(s[..k + 1], t[..k + 1], x, y)
    {
      var i :| 0 <= i < |s[..k]| && i < |t[..k]| && s[..k][i] == x && t[..k][i] == y;
      assert s[..k + 1][i] == x && t[..k + 1][i] == y;
    }
    forall x, y | Pairs(s[..k + 1], t[..k + 1], x, y)
      ensures Pairs(s[..k], t[..k], x, y) || (x == s[k] && y == t[k])
    {
      var i :| 0 <= i < |s[..k + 1]| && i < |t[..k + 1]| && s[..k + 1][i] == x && t[..k + 1][i] == y;
      if i < k {
        assert s[..k][i] == x && t[..k][i] == y;
      }
    }
    var s', t' := s[..k + 1], t[..k + 1];
    assert s'[k] == s[k] && t'[k] == t[k] && k < |s'| && k < |t'|;
    assert Pairs(s', t', s[k], t[k]);
    if s[..k + 1] == t[..k + 1] {
      assert s[..k] == s[..k + 1][..k] && t[..k] == t[..k + 1][..k];
    }
  }

  /** The changes a shared job can show. */
  lemma JobChanges(a: Template, b: Template, job: string)
    requires job in a.jobs && job in b.jobs
    ensures forall c :: AboutJob(c, job) && Holds(c, a, b) <==>
      || (c == StepsDiffer(job) && NamesOf(Sigs(a, job)) != NamesOf(Sigs(b, job)))
      || (c.RefDiffers? && c.job == job && NamesOf(Sigs(a, job)) == NamesOf(Sigs(b, job))
          && c.canonical != c.candidate && Pairs(Sigs(a, job), Sigs(b, job), c.canonical, c.candidate))
      || (c == JobPermissionsDiffer(job) && NormPerms(a.jobs[job].permissions) != NormPerms(b.jobs[job].permissions))
  {
    hide NamesOf, Pairs, Signatures;
  }

  /** One shared job: its step sequence, then its refs, then its permissions. */
  method DiffJob(a: Template, b: Template, job: string, changes0: seq<Change>, worst0: DriftSeverity)
      returns (changes: seq<Change>, worst: DriftSeverity)
    requires job in a.jobs && job in b.jobs
    requires worst0 == Worst(changes0)
    ensures worst == Worst(changes)
    ensures forall c :: c in changes <==> c in changes0 || (AboutJob(c, job) && Holds(c, a, b))
  {
    hide Holds, AboutJob, Worst, Pairs, NamesOf;
    JobChanges(a, b, job);
    changes, worst := changes0, worst0;
    var csig := StepSignatures(a.jobs[job].steps);
    var dsig := StepSignatures(b.jobs[job].steps);
    if NamesOf(csig) != NamesOf(dsig) {
      Append(changes, StepsDiffer(job));
      changes := changes + [StepsDiffer(job)];
      worst := Bump(worst, StructuralDrift);
    } else if csig != dsig {
      changes, worst := RecordRefs(job, csig, dsig, changes, worst);
    } else {
      EqualListsHaveNoRefChange(csig);
    }
    if NormPerms(a.jobs[job].permissions) != NormPerms(b.jobs[job].permissions) {
      Append(changes, JobPermissionsDiffer(job));
      changes := changes + [JobPermissionsDiffer(job)];
      worst := Bump(worst, ContentDrift);
    }
  }

  lemma EqualListsHaveNoRefChange(s: seq<string>)
    ensures forall x, y :: Pairs(s, s, x, y) ==> x == y
  {
  }

  /**
   The structural diff: it records exactly the changes that hold, and reports the worst of
   their levels, which is the distance between the two workflows.
   */
  method Diff(canonical: Template, candidate: Template) returns (report: DriftReport)
    ensures forall c :: c in report.changes <==> Says(c, canonical, candidate)
    ensures report.severity == Worst(report.changes) == Distance(canonical, candidate)
    ensures match report.severity
      case StructuralDrift => !SameStructure(canonical, candidate)
      case ContentDrift => SameStructure(canonical, candidate) && !SameContent(canonical, candidate)
      case Minor => SameContent(canonical, candidate) && !SameTitle(canonical, candidate)
      case Identical => SameContent(canonical, candidate) && SameTitle(canonical, candidate)
  {
    hide Worst, Distance, Says, SameStructure, SameContent, SameTitle;
    var changes: seq<Change> := [];
    var worst := Identical;
    WorstIsMaximum(changes);
    var missing := SortedStrings(canonical.jobs.Keys - candidate.jobs.Keys);
    for k := 0 to |missing|
      invariant worst == Worst(changes)
      invariant forall c :: c in changes <==> c.JobMissing? && c.job in missing[..k]
    {
      Append(changes, JobMissing(missing[k]));
      changes := changes + [JobMissing(missing[k])];
      worst := Bump(worst, StructuralDrift);
    }
    var extra := SortedStrings(candidate.jobs.Keys - canonical.jobs.Keys);
    for k := 0 to |extra|
      invariant worst == Worst(changes)
      invariant forall c :: c in changes <==>
        (c.JobMissing? && c.job in missing) || (c.JobAdded? && c.job in extra[..k])
    {
      Append(changes, JobAdded(extra[k]));
      changes := changes + [JobAdded(extra[k])];
      worst := Bump(worst, StructuralDrift);
    }
    var shared := SortedStrings(canonical.jobs.Keys * candidate.jobs.Keys);
    for k := 0 to |shared|
      invariant worst == Worst(changes)
      invariant forall c :: c in changes <==>
        || (c.JobMissing? && c.job in missing) || (c.JobAdded? && c.job in extra)
        || (Holds(c, canonical, candidate) && exists i :: 0 <= i < k && AboutJob(c, shared[i]))
    {
      assert shared[k] in shared;
      changes, worst := DiffJob(canonical, candidate, shared[k], changes, worst);
    }
    changes, worst := DiffWorkflow(canonical, candidate, changes, worst);
    report := DriftReport(worst, changes);
    AllRecorded(canonical, candidate, missing, extra, shared, changes);
    WorstIsDistance(changes, canonical, candidate);
    DistanceIff(canonical, candidate);
    forall c
      ensures Says(c, canonical, candidate) <==> Holds(c, canonical, candidate)
    {
      SaysIff(c, canonical, candidate);
    }
  }

  lemma AllRecorded(a: Template, b: Template, missing: seq<string>, extra: seq<string>, shared: seq<string>,
                    changes: seq<Change>)
    requires forall j :: j in missing <==> j in a.jobs && j !in b.jobs
    requires forall j :: j in extra <==> j in b.jobs && j !in a.jobs
    requires forall j :: j in shared <==> j in a.jobs && j in b.jobs
    requires forall c :: c in changes <==>
      || (c.JobMissing? && c.job in missing) || (c.JobAdded? && c.job in extra)
      || (Holds(c, a, b) && exists i :: 0 <= i < |shared| && AboutJob(c, shared[i]))
      || (AboutWorkflow(c) && Holds(c, a, b))
    ensures Records(changes, a, b)
  {
  }

  /** The workflow-level values. */
  method DiffWorkflow(a: Template, b: Template, changes0: seq<Change>, worst0: DriftSeverity)
      returns (changes: seq<Change>, worst: DriftSeverity)
    requires worst0 == Worst(changes0)
    ensures worst == Worst(changes)
    ensures forall c :: c in changes <==> c in changes0 || (AboutWorkflow(c) && Holds(c, a, b))
  {
    hide Worst, Present, NameOrEmpty, Sigs, NamesOf, Pairs;
    changes, worst := changes0, worst0;
    if NormPerms(a.permissions) != NormPerms(b.permissions) {
      Append(changes, WorkflowPermissionsDiffer);
      changes := changes + [WorkflowPermissionsDiffer];
      worst := Bump(worst, ContentDrift);
    }
    if Present(a.concurrency) != Present(b.concurrency) {
      Append(changes, ConcurrencyPresenceDiffers);
      changes := changes + [ConcurrencyPresenceDiffers];
      worst := Bump(worst, ContentDrift);
    }
    if NameOrEmpty(a) != NameOrEmpty(b) {
      Append(changes, NameDiffers);
      changes := changes + [NameDiffers];
      worst := Bump(worst, Minor);
    }
  }
}
