/**
 Pin campaigns: a dry run previews the edits of every target repository and records the commit
 SHAs it resolved; applying the campaign replays the edits from that record and opens one
 pull request per target.
 */
module Campaigns {
  import opened Common
  import opened Strings
  import opened Pins
  import opened Operations

  type RefId = (string, string, string)   // owner, repo, ref

  /** A workflow file as the editor and the analysis parser see it. */
  datatype Content = Broken | LoadsOnly(doc: Workflow) | Parses(doc: Workflow)
  datatype File = File(path: string, blobSha: string, content: Content)
  datatype FileEdit = FileEdit(path: string, blobSha: string, doc: Workflow, changes: seq<Change>)

  /** What GitHub answers during a dry run: the commit behind a ref, and which tags are immutable releases. */
  datatype World = World(sha: RefId -> Result<string>, immutable: set<string>)

  // ---------------------------------------------------------------------------------------
  // Resolving the refs of a file
  // ---------------------------------------------------------------------------------------

  function MutableUses(doc: Workflow): set<string> {
    set uses | uses in AllUses(doc.jobs) && IsMutable(Classify(uses))
  }

  function RefKeyOf(k: RefId): string {
    RefKey(k.0, k.1, k.2)
  }

  /** The tag-pinned references proven to be immutable releases, by key. */
  function ImmutableAmong(doc: Workflow, world: World): set<string> {
    set uses | uses in MutableUses(doc) && Classify(uses).pinState == TagPinned
      && RefKeyOf(KeyOf(Classify(uses))) in world.immutable :: RefKeyOf(KeyOf(Classify(uses)))
  }

  function Wanted(doc: Workflow, world: World): set<RefId> {
    set uses | uses in MutableUses(doc) && RefKeyOf(KeyOf(Classify(uses))) !in ImmutableAmong(doc, world)
      :: KeyOf(Classify(uses))
  }

  /** A file the analysis parser rejects resolves nothing; a ref that cannot be resolved fails the repository. */
  function ResolvePinRefs(file: File, world: World): Result<ShaMap> {
    if !file.content.Parses? then Ok(map[])
    else if exists k :: k in Wanted(file.content.doc, world) && world.sha(k).Raised? then Raised
    else Ok(map k | k in Wanted(file.content.doc, world) && world.sha(k).Ok? :: world.sha(k).value)
  }

  /** GitHub has a commit for this ref and the ref is not an immutable tag. */
  predicate Answers(world: World, k: RefId) {
    !(ClassifyRef(k.2) == TagPinned && RefKeyOf(k) in world.immutable) && world.sha(k).Ok?
  }

  ghost predicate FromWorld(shas: ShaMap, world: World) {
    forall k :: k in shas ==> Answers(world, k) && shas[k] == world.sha(k).value
  }

  ghost predicate Includes(big: ShaMap, small: ShaMap) {
    forall k :: k in small ==> k in big && big[k] == small[k]
  }

  /** A reference key names one owner, repository and ref. */
  lemma RefKeyIsInjective(a: RefId, b: RefId)
    requires '/' !in a.0 && '/' !in b.0 && '@' !in a.1 && '@' !in b.1
    requires RefKeyOf(a) == RefKeyOf(b)
    ensures a == b
  {
    assert RefKeyOf(a) == a.0 + "/" + (a.1 + "@" + a.2) && RefKeyOf(b) == b.0 + "/" + (b.1 + "@" + b.2);
    FirstFieldIsUnique(a.0, a.1 + "@" + a.2, b.0, b.1 + "@" + b.2, '/');
    FirstFieldIsUnique(a.1, a.2, b.1, b.2, '@');
  }

  lemma MutableState(uses: string)
    requires IsMutable(Classify(uses))
    ensures var u := Classify(uses);
      u.pinState == ClassifyRef(u.ref.value) && '/' !in u.owner.value && '@' !in u.repo.value
  {
    ClassifiedName(uses);
  }

  /** Whether a ref is wanted depends on the ref alone, not on the file it is found in. */
  lemma WantedByRef(doc: Workflow, world: World, uses: string)
    requires uses in MutableUses(doc)
    ensures var k := KeyOf(Classify(uses));
      k in Wanted(doc, world) <==> !(ClassifyRef(k.2) == TagPinned && RefKeyOf(k) in world.immutable)
  {
    hide Classify, ClassifyRef, RefKeyOf, AllUses;
    var k := KeyOf(Classify(uses));
    MutableState(uses);
    if RefKeyOf(k) in ImmutableAmong(doc, world) {
      var other :| other in MutableUses(doc) && Classify(other).pinState == TagPinned
        && RefKeyOf(KeyOf(Classify(other))) in world.immutable && RefKeyOf(KeyOf(Classify(other))) == RefKeyOf(k);
      MutableState(other);
      RefKeyIsInjective(KeyOf(Classify(other)), k);
    }
    if k in Wanted(doc, world) {
      var other :| other in MutableUses(doc) && RefKeyOf(KeyOf(Classify(other))) !in ImmutableAmong(doc, world)
        && KeyOf(Classify(other)) == k;
    }
  }

  /** Resolving a file yields the answers for its refs and nothing else. */
  lemma ResolveGivesAnswers(file: File, world: World)
    requires ResolvePinRefs(file, world).Ok?
    ensures FromWorld(ResolvePinRefs(file, world).value, world)
    ensures file.content.Parses? ==> forall uses :: uses in MutableUses(file.content.doc) ==>
      (KeyOf(Classify(uses)) in ResolvePinRefs(file, world).value <==> Answers(world, KeyOf(Classify(uses))))
  {
    hide Classify, ClassifyRef, RefKeyOf, AllUses;
    if file.content.Parses? {
      var doc := file.content.doc;
      forall uses | uses in MutableUses(doc)
        ensures var k := KeyOf(Classify(uses));
          k in Wanted(doc, world) <==> !(ClassifyRef(k.2) == TagPinned && RefKeyOf(k) in world.immutable)
      {
        WantedByRef(doc, world, uses);
      }
    }
  }

  // ---------------------------------------------------------------------------------------
  // The edits of a repository
  // ---------------------------------------------------------------------------------------

  /** The edit of one file under a SHA map: none if nothing changes; an unloadable file fails the repository. */
  function EditOf(file: File, shas: ShaMap): Result<Option<FileEdit>> {
    if file.content.Broken? then Raised
    else
      var changes := Changes(file.content.doc.jobs, Pinner(shas));
      Ok(if changes == [] then None
         else Some(FileEdit(file.path, file.blobSha, Rewritten(file.content.doc, Pinner(shas)), changes)))
  }

  /** Path-scoped campaigns skip every other file. */
  predicate Skips(file: File, onlyPath: Option<string>) {
    Truthy(onlyPath) && file.path != onlyPath.value
  }

  function Pushed(edits: seq<FileEdit>, edit: Option<FileEdit>): seq<FileEdit> {
    if edit.Some? then edits + [edit.value] else edits
  }

  /** The map after a file: on a dry run its refs are resolved into it, on apply it stays as given. */
  function Accumulated(file: File, world: World, applying: bool, shas: ShaMap): Result<ShaMap> {
    if applying then Ok(shas)
    else match ResolvePinRefs(file, world)
      case Raised => Raised
      case Ok(more) => Ok(shas + more)
  }

  /** One file: resolve on a dry run, edit, and push the edit if there is one. */
  function HandleFile(file: File, world: World, applying: bool, onlyPath: Option<string>, edits: seq<FileEdit>,
                      shas: ShaMap): Result<(seq<FileEdit>, ShaMap)>
  {
    if Skips(file, onlyPath) then Ok((edits, shas))
    else match Accumulated(file, world, applying, shas)
      case Raised => Raised
      case Ok(now) =>
        match EditOf(file, now)
        case Raised => Raised
        case Ok(edit) => Ok((Pushed(edits, edit), now))
  }

  /** Files are handled in order with one growing map: the edits and the map it ends with. */
  function DryRun(files: seq<File>, world: World, resolved: Option<ShaMap>, onlyPath: Option<string>)
    : Result<(seq<FileEdit>, ShaMap)>
  {
    if files == [] then Ok(([], if resolved.Some? then resolved.value else map[]))
    else match DryRun(files[..|files| - 1], world, resolved, onlyPath)
      case Raised => Raised
      case Ok((edits, shas)) => HandleFile(files[|files| - 1], world, resolved.Some?, onlyPath, edits, shas)
  }

  lemma DryRunStep(files: seq<File>, world: World, resolved: Option<ShaMap>, onlyPath: Option<string>, i: nat)
    requires i < |files|
    ensures DryRun(files[..i + 1], world, resolved, onlyPath) ==
      match DryRun(files[..i], world, resolved, onlyPath)
      case Raised => Raised
      case Ok((edits, shas)) => HandleFile(files[i], world, resolved.Some?, onlyPath, edits, shas)
  {
    assert files[..i + 1][..i] == files[..i];
  }

  /** The file loop of a dry run, or of an apply when a map is given. */
  method DryRunRepo(files: seq<File>, world: World, resolved: Option<ShaMap>, onlyPath: Option<string>)
      returns (r: Result<(seq<FileEdit>, ShaMap)>)
    ensures r == DryRun(files, world, resolved, onlyPath)
    ensures r.Raised? <==> Fails(files, world, resolved, onlyPath)
    ensures r.Ok? ==>
      && AreEdits(files, world, resolved, onlyPath, r.value.0)
      && IsMapFor(files, world, resolved, onlyPath, |files| - 1, r.value.1)
  {
    RaisedIff(files, world, resolved, onlyPath);
    if DryRun(files, world, resolved, onlyPath).Ok? {
      RunIsRight(files, world, resolved, onlyPath);
    }
    r := RunFiles(files, world, resolved, onlyPath);
  }

  method RunFiles(files: seq<File>, world: World, resolved: Option<ShaMap>, onlyPath: Option<string>)
      returns (r: Result<(seq<FileEdit>, ShaMap)>)
    ensures r == DryRun(files, world, resolved, onlyPath)
  {
    var accumulated := if resolved.Some? then resolved.value else map[];
    var edits: seq<FileEdit> := [];
    assert files[..|files|] == files;
    assert DryRun([], world, resolved, onlyPath) == Ok(([], accumulated));
    hide DryRun, ResolvePinRefs, EditOf;
    for i := 0 to |files|
      invariant DryRun(files[..i], world, resolved, onlyPath) == Ok((edits, accumulated))
    {
      var file := files[i];
      DryRunStep(files, world, resolved, onlyPath, i);
      if Truthy(onlyPath) && file.path != onlyPath.value {
        continue;
      }
      if resolved.None? {
        var more := ResolvePinRefs(file, world);
        if more.Raised? {
          StaysRaised(files, world, resolved, onlyPath, i + 1);
          return Raised;
        }
        accumulated := accumulated + more.value;
      }
      var result := EditOf(file, accumulated);
      if result.Raised? {
        StaysRaised(files, world, resolved, onlyPath, i + 1);
        return Raised;
      }
      if result.value.Some? {
        edits := edits + [result.value.value];
      }
    }
    return Ok((edits, accumulated));
  }

  lemma {:induction false} StaysRaised(files: seq<File>, world: World, resolved: Option<ShaMap>,
                                       onlyPath: Option<string>, i: nat)
    requires i <= |files| && DryRun(files[..i], world, resolved, onlyPath).Raised?
    ensures DryRun(files, world, resolved, onlyPath).Raised?
    decreases |files|
  {
    if i < |files| {
      assert files[..|files| - 1][..i] == files[..i];
      StaysRaised(files[..|files| - 1], world, resolved, onlyPath, i);
    } else {
      assert files[..i] == files;
    }
  }

  // ---------------------------------------------------------------------------------------
  // Preview equals apply
  // ---------------------------------------------------------------------------------------

  /** Two rewrites that agree on every step-level reference of a list of steps. */
  ghost predicate AgreeOnSteps(steps: seq<Step>, f: Rewrite, g: Rewrite) {
    forall step :: step in steps && step.uses.Some? ==> f(step.uses.value) == g(step.uses.value)
  }

  ghost predicate AgreeOn(doc: Workflow, f: Rewrite, g: Rewrite) {
    forall job :: job in doc.jobs ==> AgreeOnSteps(job.steps, f, g)
  }

  lemma {:induction false} AgreeingSteps(steps: seq<Step>, f: Rewrite, g: Rewrite)
    requires AgreeOnSteps(steps, f, g)
    ensures StepChanges(steps, f) == StepChanges(steps, g)
    ensures RewrittenSteps(steps, f) == RewrittenSteps(steps, g)
  {
    if steps != [] {
      AgreeingSteps(steps[..|steps| - 1], f, g);
    }
  }

  lemma {:induction false} AgreeingJobs(jobs: seq<Job>, f: Rewrite, g: Rewrite)
    requires AgreeOn(Workflow(jobs), f, g)
    ensures Changes(jobs, f) == Changes(jobs, g)
    ensures Rewritten(Workflow(jobs), f) == Rewritten(Workflow(jobs), g)
  {
    if jobs != [] {
      var before, last := jobs[..|jobs| - 1], jobs[|jobs| - 1];
      AgreeingJobs(before, f, g);
      AgreeingSteps(last.steps, f, g);
      forall i | 0 <= i < |jobs|
        ensures RewrittenJob(jobs[i], f) == RewrittenJob(jobs[i], g)
      {
        if i < |before| {
          assert Rewritten(Workflow(before), f).jobs[i] == Rewritten(Workflow(before), g).jobs[i];
        }
      }
    }
  }

  lemma {:induction false} StepUseIsUse(jobs: seq<Job>, job: Job, step: Step)
    requires job in jobs && step in job.steps && Truthy(step.uses)
    ensures step.uses.value in AllUses(jobs)
  {
    var last := jobs[|jobs| - 1];
    if job == last {
      StepUseInSteps(last.steps, step);
    } else {
      StepUseIsUse(jobs[..|jobs| - 1], job, step);
    }
  }

  lemma {:induction false} StepUseInSteps(steps: seq<Step>, step: Step)
    requires step in steps && Truthy(step.uses)
    ensures step.uses.value in StepUses(steps)
  {
    if step != steps[|steps| - 1] {
      StepUseInSteps(steps[..|steps| - 1], step);
    }
  }

  lemma EmptyIsNotMutable()
    ensures !IsMutable(Classify(""))
  {
  }

  lemma TruthyUse(uses: string)
    requires uses != ""
    ensures Truthy(Some(uses))
  {
  }

  /** All files a campaign looks at parse. */
  ghost predicate AllParse(files: seq<File>, onlyPath: Option<string>) {
    forall file :: file in files && !Skips(file, onlyPath) ==> file.content.Parses?
  }

  lemma AddingAnswers(world: World, shas: ShaMap, more: ShaMap)
    requires FromWorld(shas, world) && FromWorld(more, world)
    ensures FromWorld(shas + more, world)
    ensures Includes(shas + more, shas) && Includes(shas + more, more)
  {
  }

  lemma IncludesTransitive(a: ShaMap, b: ShaMap, c: ShaMap)
    requires Includes(a, b) && Includes(b, c)
    ensures Includes(a, c)
  {
  }

  /** The map of a dry run holds answers only, and only grows. */
  lemma {:induction false} DryRunHoldsAnswers(files: seq<File>, world: World, onlyPath: Option<string>)
    requires DryRun(files, world, None, onlyPath).Ok?
    ensures FromWorld(DryRun(files, world, None, onlyPath).value.1, world)
    ensures files != [] ==>
      && DryRun(files[..|files| - 1], world, None, onlyPath).Ok?
      && Includes(DryRun(files, world, None, onlyPath).value.1,
                  DryRun(files[..|files| - 1], world, None, onlyPath).value.1)
  {
    hide ResolvePinRefs, EditOf, Answers;
    if files != [] {
      var before, last := files[..|files| - 1], files[|files| - 1];
      DryRunHoldsAnswers(before, world, onlyPath);
      var shas := DryRun(before, world, None, onlyPath).value.1;
      if !Skips(last, onlyPath) {
        ResolveGivesAnswers(last, world);
        AddingAnswers(world, shas, ResolvePinRefs(last, world).value);
      }
    }
  }

  // ---------------------------------------------------------------------------------------
  // Exactly when a preview is binding
  // ---------------------------------------------------------------------------------------

  /** Some step of the file has a ref GitHub can resolve but the map does not hold. */
  ghost predicate Misses(file: File, world: World, shas: ShaMap, k: RefId)
    requires !file.content.Broken?
  {
    && k !in shas && Answers(world, k) && world.sha(k).value != ""
    && exists job, step :: job in file.content.doc.jobs && step in job.steps && step.uses.Some?
         && IsMutable(Classify(step.uses.value)) && KeyOf(Classify(step.uses.value)) == k
  }

  lemma {:induction false} MoreStepChanges(steps: seq<Step>, f: Rewrite, g: Rewrite)
    requires forall uses :: f(uses).Some? ==> g(uses).Some?
    ensures |StepChanges(steps, f)| <= |StepChanges(steps, g)|
    ensures (exists step :: step in steps && step.uses.Some?
               && f(step.uses.value).None? && g(step.uses.value).Some?) ==>
      |StepChanges(steps, f)| < |StepChanges(steps, g)|
  {
    if steps != [] {
      MoreStepChanges(steps[..|steps| - 1], f, g);
      assert steps == steps[..|steps| - 1] + [steps[|steps| - 1]];
    }
  }

  lemma {:induction false} MoreChanges(jobs: seq<Job>, f: Rewrite, g: Rewrite)
    requires forall uses :: f(uses).Some? ==> g(uses).Some?
    ensures |Changes(jobs, f)| <= |Changes(jobs, g)|
    ensures (exists job, step :: job in jobs && step in job.steps && step.uses.Some?
               && f(step.uses.value).None? && g(step.uses.value).Some?) ==>
      |Changes(jobs, f)| < |Changes(jobs, g)|
  {
    if jobs != [] {
      MoreChanges(jobs[..|jobs| - 1], f, g);
      MoreStepChanges(jobs[|jobs| - 1].steps, f, g);
      assert jobs == jobs[..|jobs| - 1] + [jobs[|jobs| - 1]];
    }
  }

  /** A file whose resolvable refs the map all holds is edited alike by every larger map of answers. */
  lemma NothingMissed(file: File, world: World, shas: ShaMap, full: ShaMap)
    requires !file.content.Broken? && forall k :: !Misses(file, world, shas, k)
    requires FromWorld(full, world) && FromWorld(shas, world) && Includes(full, shas)
    ensures EditOf(file, full) == EditOf(file, shas)
  {
    hide Classify, Print, Answers;
    var doc := file.content.doc;
    forall job, step | job in doc.jobs && step in job.steps && step.uses.Some?
      ensures Pinned(step.uses.value, full) == Pinned(step.uses.value, shas)
    {
      var uses := step.uses.value;
      if IsMutable(Classify(uses)) {
        assert !Misses(file, world, shas, KeyOf(Classify(uses)));
      }
    }
    assert AgreeOn(doc, Pinner(full), Pinner(shas));
    AgreeingJobs(doc.jobs, Pinner(full), Pinner(shas));
    assert doc == Workflow(doc.jobs);
  }

  /** The map a dry run has accumulated once it has resolved file i. */
  function MapAt(files: seq<File>, world: World, onlyPath: Option<string>, i: nat): ShaMap
    requires i < |files|
  {
    match DryRun(files[..i + 1], world, None, onlyPath)
    case Raised => map[]
    case Ok((_, shas)) => shas
  }

  /** The file resolves this ref on a dry run, if GitHub has an answer for it. */
  ghost predicate Holds(file: File, k: RefId) {
    file.content.Parses?
    && exists uses :: uses in MutableUses(file.content.doc) && KeyOf(Classify(uses)) == k
  }

  /**
   File i reaches the editor without being resolved and uses a ref GitHub can answer that no
   file before it resolves.
   */
  ghost predicate Escapes(files: seq<File>, world: World, onlyPath: Option<string>, i: int, k: RefId) {
    && 0 <= i < |files| && !Skips(files[i], onlyPath) && files[i].content.LoadsOnly?
    && Answers(world, k) && world.sha(k).value != ""
    && (exists job, step :: job in files[i].content.doc.jobs && step in job.steps && step.uses.Some?
          && IsMutable(Classify(step.uses.value)) && KeyOf(Classify(step.uses.value)) == k)
    && forall j :: 0 <= j < i && !Skips(files[j], onlyPath) ==> !Holds(files[j], k)
  }

  ghost predicate NothingEscapes(files: seq<File>, world: World, onlyPath: Option<string>) {
    forall i, k :: !Escapes(files, world, onlyPath, i, k)
  }

  /** The map of a file: the answers for the refs it holds. */
  lemma ResolvedKeys(file: File, world: World, k: RefId)
    requires ResolvePinRefs(file, world).Ok?
    ensures k in ResolvePinRefs(file, world).value <==> Holds(file, k) && Answers(world, k)
  {
    hide Classify, ClassifyRef, RefKeyOf, AllUses, IsMutable;
    if file.content.Parses? {
      ResolveGivesAnswers(file, world);
    }
  }

  /** The accumulated map: the answers for the refs that this file or one before it holds. */
  lemma {:induction false} AccumulatedKeys(files: seq<File>, world: World, onlyPath: Option<string>, k: RefId)
    requires DryRun(files, world, None, onlyPath).Ok?
    ensures k in DryRun(files, world, None, onlyPath).value.1 <==>
      Answers(world, k) && exists j :: 0 <= j < |files| && !Skips(files[j], onlyPath) && Holds(files[j], k)
  {
    hide ResolvePinRefs, EditOf, Answers, Holds, Skips;
    if files != [] {
      var n := |files| - 1;
      var before, last := files[..n], files[n];
      DryRunHoldsAnswers(files, world, onlyPath);
      AccumulatedKeys(before, world, onlyPath, k);
      assert forall j :: 0 <= j < n ==> before[j] == files[j];
      if !Skips(last, onlyPath) {
        ResolvedKeys(last, world, k);
      }
    }
  }

  /** What escapes is what the accumulated map misses. */
  lemma EscapesIffMisses(files: seq<File>, world: World, onlyPath: Option<string>, i: nat, k: RefId)
    requires DryRun(files, world, None, onlyPath).Ok? && i < |files|
    requires !Skips(files[i], onlyPath) && !files[i].content.Broken?
    ensures Misses(files[i], world, MapAt(files, world, onlyPath, i), k) <==> Escapes(files, world, onlyPath, i, k)
  {
    hide DryRun, Holds, Classify, Answers, Skips, IsMutable;
    PrefixRuns(files, world, onlyPath, i);
    if files[i].content.Parses? {
      OwnRefsAreHeld(files, world, onlyPath, i, k);
    } else {
      var upTo := files[..i + 1];
      AccumulatedKeys(upTo, world, onlyPath, k);
      assert forall j :: 0 <= j <= i ==> upTo[j] == files[j];
      OnlyParsedHold(files[i], k);
    }
  }

  lemma OnlyParsedHold(file: File, k: RefId)
    requires !file.content.Parses?
    ensures !Holds(file, k)
  {
  }

  lemma {:induction false} PrefixRuns(files: seq<File>, world: World, onlyPath: Option<string>, i: nat)
    requires DryRun(files, world, None, onlyPath).Ok? && i < |files|
    ensures DryRun(files[..i + 1], world, None, onlyPath).Ok?
    ensures FromWorld(MapAt(files, world, onlyPath, i), world)
    ensures Includes(DryRun(files, world, None, onlyPath).value.1, MapAt(files, world, onlyPath, i))
    ensures !Skips(files[i], onlyPath) ==> !files[i].content.Broken?
    decreases |files|
  {
    hide ResolvePinRefs, Answers;
    DryRunHoldsAnswers(files, world, onlyPath);
    if i == |files| - 1 {
      assert files[..i + 1] == files;
    } else {
      var before := files[..|files| - 1];
      assert before[..i + 1] == files[..i + 1] && before[i] == files[i];
      PrefixRuns(before, world, onlyPath, i);
      IncludesTransitive(DryRun(files, world, None, onlyPath).value.1, DryRun(before, world, None, onlyPath).value.1,
                         MapAt(files, world, onlyPath, i));
    }
  }

  /** When every file parses nothing escapes. */
  lemma ParsedFilesEscapeNothing(files: seq<File>, world: World, onlyPath: Option<string>)
    requires AllParse(files, onlyPath)
    ensures NothingEscapes(files, world, onlyPath)
  {
  }

  /** Once a file that parses has been resolved, the map misses none of its refs. */
  lemma OwnRefsAreHeld(files: seq<File>, world: World, onlyPath: Option<string>, i: nat, k: RefId)
    requires i < |files| && !Skips(files[i], onlyPath) && files[i].content.Parses?
    requires DryRun(files[..i + 1], world, None, onlyPath).Ok?
    ensures !Misses(files[i], world, MapAt(files, world, onlyPath, i), k)
  {
    hide ResolvePinRefs, EditOf, Misses;
    assert files[..i + 1][..i] == files[..i] && files[..i + 1][i] == files[i];
    ResolvedMissesNothing(files[i], world, MapAt(files, world, onlyPath, i), k);
  }

  lemma ResolvedMissesNothing(file: File, world: World, shas: ShaMap, k: RefId)
    requires file.content.Parses? && ResolvePinRefs(file, world).Ok?
    requires Includes(shas, ResolvePinRefs(file, world).value)
    ensures !Misses(file, world, shas, k)
  {
    hide Classify, ResolvePinRefs, Answers;
    ResolveGivesAnswers(file, world);
    EmptyIsNotMutable();
    if Misses(file, world, shas, k) {
      var job, step :| job in file.content.doc.jobs && step in job.steps && step.uses.Some?
        && IsMutable(Classify(step.uses.value)) && KeyOf(Classify(step.uses.value)) == k;
      TruthyUse(step.uses.value);
      StepUseIsUse(file.content.doc.jobs, job, step);
    }
  }

  lemma {:induction false} EscapesInPrefix(files: seq<File>, world: World, onlyPath: Option<string>, n: nat)
    requires n <= |files| && NothingEscapes(files, world, onlyPath)
    ensures NothingEscapes(files[..n], world, onlyPath)
  {
    forall i, k
      ensures !Escapes(files[..n], world, onlyPath, i, k)
    {
      if Escapes(files[..n], world, onlyPath, i, k) {
        assert forall j :: 0 <= j < n ==> files[..n][j] == files[j];
        assert Escapes(files, world, onlyPath, i, k);
      }
    }
  }

  /**
   Preview equals apply: if nothing escapes, then running again with any map of the same answers
   that holds this repository's own gives the same edits, whatever GitHub says by then.
   */
  lemma {:induction false} ApplyReproduces(files: seq<File>, world: World, onlyPath: Option<string>, full: ShaMap,
                                           later: World)
    requires DryRun(files, world, None, onlyPath).Ok? && NothingEscapes(files, world, onlyPath)
    requires FromWorld(full, world) && Includes(full, DryRun(files, world, None, onlyPath).value.1)
    ensures DryRun(files, later, Some(full), onlyPath) ==
      Ok((DryRun(files, world, None, onlyPath).value.0, full))
  {
    hide ResolvePinRefs, EditOf, Answers, NothingEscapes;
    if files != [] {
      var n := |files| - 1;
      var before, last := files[..n], files[n];
      DryRunHoldsAnswers(files, world, onlyPath);
      IncludesTransitive(full, DryRun(files, world, None, onlyPath).value.1,
                         DryRun(before, world, None, onlyPath).value.1);
      EscapesInPrefix(files, world, onlyPath, n);
      ApplyReproduces(before, world, onlyPath, full, later);
      if !Skips(last, onlyPath) {
        LastIsEditedAlike(files, world, onlyPath, full);
      }
    }
  }

  lemma LastIsEditedAlike(files: seq<File>, world: World, onlyPath: Option<string>, full: ShaMap)
    requires files != [] && !Skips(files[|files| - 1], onlyPath)
    requires DryRun(files, world, None, onlyPath).Ok? && NothingEscapes(files, world, onlyPath)
    requires FromWorld(full, world) && Includes(full, DryRun(files, world, None, onlyPath).value.1)
    ensures !files[|files| - 1].content.Broken?
    ensures EditOf(files[|files| - 1], full) ==
      EditOf(files[|files| - 1], DryRun(files, world, None, onlyPath).value.1)
  {
    hide DryRun, EditOf, Misses, Answers, Escapes;
    var n := |files| - 1;
    assert files[..n + 1] == files;
    PrefixRuns(files, world, onlyPath, n);
    forall k
      ensures !Misses(files[n], world, MapAt(files, world, onlyPath, n), k)
    {
      EscapesIffMisses(files, world, onlyPath, n, k);
    }
    NothingMissed(files[n], world, MapAt(files, world, onlyPath, n), full);
  }

  // ---------------------------------------------------------------------------------------
  // What the edits are, without saying how they are computed
  // ---------------------------------------------------------------------------------------

  /** The campaign looks at the file. */
  ghost predicate Looks(file: File, onlyPath: Option<string>) {
    onlyPath.None? || onlyPath.value == "" || onlyPath.value == file.path
  }

  /** A file that parses uses an action by this version tag or branch, in a job or in a step. */
  ghost predicate Mentions(file: File, k: RefId) {
    file.content.Parses? && IsMovingText(k.2)
    && exists uses, subpath :: Uses(file.content.doc.jobs, uses) && ReadsAs(uses, k.0, k.1, subpath, Some(k.2))
  }

  /** A version tag proven to be an immutable release; it is left alone. */
  ghost predicate IsImmutable(world: World, k: RefId) {
    IsVersionText(k.2) && !IsShaText(k.2) && k.0 + "/" + k.1 + "@" + k.2 in world.immutable
  }

  ghost predicate CanResolve(world: World, k: RefId) {
    world.sha(k).Ok? && !IsImmutable(world, k)
  }

  /** File i or one before it, of those looked at, mentions this. */
  ghost predicate MentionedBy(files: seq<File>, onlyPath: Option<string>, i: int, k: RefId) {
    exists j :: 0 <= j < |files| && j <= i && Looks(files[j], onlyPath) && Mentions(files[j], k)
  }

  /**
   The map file i is edited with: on an apply the given one; on a dry run GitHub's answers for
   what this file or one before it mentions.
   */
  ghost predicate IsMapFor(files: seq<File>, world: World, resolved: Option<ShaMap>, onlyPath: Option<string>, i: int,
                           shas: ShaMap)
  {
    if resolved.Some? then shas == resolved.value
    else forall k ::
      && (k in shas <==> CanResolve(world, k) && MentionedBy(files, onlyPath, i, k))
      && (k in shas ==> world.sha(k) == Ok(shas[k]))
  }

  /** Some step of the file has a reference to pin. */
  ghost predicate HasWork(file: File, shas: ShaMap) {
    !file.content.Broken? && exists job, step ::
      job in file.content.doc.jobs && step in job.steps && step.uses.Some? && CanPin(step.uses.value, shas)
  }

  /** The edit is of this file: its workflow with exactly the references to pin replaced, and a list of them. */
  ghost predicate IsPinEdit(file: File, shas: ShaMap, edit: FileEdit) {
    && !file.content.Broken? && edit.path == file.path && edit.blobSha == file.blobSha
    && IsEdit(file.content.doc, edit.doc, PinsOf(shas))
    && Lists(edit.changes, file.content.doc, edit.doc, PinsOf(shas))
  }

  /** One edit for each file with work, in order; `at` is where those files stand. */
  ghost predicate AreEditsAt(files: seq<File>, onlyPath: Option<string>, maps: seq<ShaMap>, edits: seq<FileEdit>,
                             at: seq<nat>)
    requires |maps| == |files|
  {
    && |at| == |edits| && IsIncreasing(at)
    && (forall p :: p in at <==> 0 <= p < |files| && Looks(files[p], onlyPath) && HasWork(files[p], maps[p]))
    && forall n :: 0 <= n < |at| ==> at[n] < |files| && IsPinEdit(files[at[n]], maps[at[n]], edits[n])
  }

  ghost predicate AreEdits(files: seq<File>, world: World, resolved: Option<ShaMap>, onlyPath: Option<string>,
                           edits: seq<FileEdit>)
  {
    exists maps, at ::
      && |maps| == |files| && (forall i :: 0 <= i < |files| ==> IsMapFor(files, world, resolved, onlyPath, i, maps[i]))
      && AreEditsAt(files, onlyPath, maps, edits, at)
  }

  /** The run fails: on a file the editor cannot load, or on a dry run over a ref GitHub does not answer for. */
  ghost predicate Fails(files: seq<File>, world: World, resolved: Option<ShaMap>, onlyPath: Option<string>) {
    exists i :: 0 <= i < |files| && FailsAt(files[i], world, resolved, onlyPath)
  }

  ghost predicate FailsAt(file: File, world: World, resolved: Option<ShaMap>, onlyPath: Option<string>) {
    Looks(file, onlyPath)
    && (file.content.Broken?
        || (resolved.None? && exists k :: Mentions(file, k) && !IsImmutable(world, k) && world.sha(k).Raised?))
  }

  lemma EditIsRight(file: File, shas: ShaMap)
    ensures EditOf(file, shas).Ok? <==> !file.content.Broken?
    ensures EditOf(file, shas).Ok? ==>
      var edit := EditOf(file, shas).value;
      (edit.Some? <==> HasWork(file, shas)) && (edit.Some? ==> IsPinEdit(file, shas, edit.value))
  {
    hide Changes, Rewritten, IsEdit, Lists, Computes, Pinned, CanPin, PinsTo;
    if !file.content.Broken? {
      var doc, f := file.content.doc, Pinner(shas);
      PinnerComputes(shas);
      RewriteIsEdit(doc, f, PinsOf(shas));
      ChangesIff(doc.jobs, f);
      forall uses
        ensures f(uses).Some? <==> CanPin(uses, shas)
      {
        PinnedIff(uses, shas, "");
      }
    }
  }

  lemma LooksIff(file: File, onlyPath: Option<string>)
    ensures Looks(file, onlyPath) <==> !Skips(file, onlyPath)
  {
  }

  lemma MentionsIff(file: File, k: RefId)
    ensures Mentions(file, k) <==> Holds(file, k)
  {
    hide Classify, ReadsAs, IsMovingText, AllUses, Uses;
    if Mentions(file, k) {
      var uses, subpath :| Uses(file.content.doc.jobs, uses) && ReadsAs(uses, k.0, k.1, subpath, Some(k.2));
      AllUsesIff(file.content.doc.jobs, uses);
      MutableIff(uses);
      NotEmpty(uses, k.0, k.1, subpath, Some(k.2));
      ReadsIff(uses, k.0, k.1, subpath, Some(k.2), {});
    }
    if Holds(file, k) {
      var uses :| uses in MutableUses(file.content.doc) && KeyOf(Classify(uses)) == k;
      AllUsesIff(file.content.doc.jobs, uses);
      MutableIff(uses);
      MutableParts(uses);
    }
  }

  lemma MutableParts(uses: string)
    requires IsMutable(Classify(uses))
    ensures var u := Classify(uses); u.owner.Some? && u.repo.Some? && u.ref.Some?
  {
    hide Classify;
  }

  lemma ImmutableIff(world: World, k: RefId)
    ensures IsImmutable(world, k) <==> ClassifyRef(k.2) == TagPinned && RefKeyOf(k) in world.immutable
    ensures CanResolve(world, k) <==> Answers(world, k)
  {
    hide ClassifyRef, IsVersionText, IsShaText;
    ClassifyRefIff(k.2);
  }

  lemma AccumulatedIsMap(files: seq<File>, world: World, onlyPath: Option<string>, i: nat)
    requires i <= |files| && DryRun(files[..i], world, None, onlyPath).Ok?
    ensures IsMapFor(files, world, None, onlyPath, i - 1, DryRun(files[..i], world, None, onlyPath).value.1)
  {
    hide DryRun, Answers, Holds, Mentions, Looks, Skips, CanResolve;
    var upTo := files[..i];
    var shas := DryRun(upTo, world, None, onlyPath).value.1;
    DryRunHoldsAnswers(upTo, world, onlyPath);
    forall k
      ensures k in shas <==> CanResolve(world, k) && MentionedBy(files, onlyPath, i - 1, k)
      ensures k in shas ==> world.sha(k) == Ok(shas[k])
    {
      AccumulatedKeys(upTo, world, onlyPath, k);
      ImmutableIff(world, k);
      AnswerIsOk(world, k);
      forall j | 0 <= j < i
        ensures upTo[j] == files[j]
        ensures Looks(files[j], onlyPath) <==> !Skips(upTo[j], onlyPath)
        ensures Mentions(files[j], k) <==> Holds(upTo[j], k)
      {
        LooksIff(files[j], onlyPath);
        MentionsIff(files[j], k);
      }
    }
  }

  lemma AnswerIsOk(world: World, k: RefId)
    ensures Answers(world, k) ==> world.sha(k).Ok?
  {
  }

  /** The map that file i of a run is edited with. */
  function RunMap(files: seq<File>, world: World, resolved: Option<ShaMap>, onlyPath: Option<string>, i: nat): ShaMap
    requires i < |files|
  {
    match DryRun(files[..i + 1], world, resolved, onlyPath)
    case Raised => map[]
    case Ok((_, shas)) => shas
  }

  function RunMaps(files: seq<File>, world: World, resolved: Option<ShaMap>, onlyPath: Option<string>): seq<ShaMap> {
    seq(|files|, i requires 0 <= i < |files| => RunMap(files, world, resolved, onlyPath, i))
  }

  lemma {:induction false} OkPrefix(files: seq<File>, world: World, resolved: Option<ShaMap>,
                                    onlyPath: Option<string>, i: nat)
    requires i <= |files| && DryRun(files, world, resolved, onlyPath).Ok?
    ensures DryRun(files[..i], world, resolved, onlyPath).Ok?
    ensures resolved.Some? ==> DryRun(files[..i], world, resolved, onlyPath).value.1 == resolved.value
    decreases |files|
  {
    hide EditOf, ResolvePinRefs;
    if i == |files| {
      assert files[..i] == files;
      if i > 0 {
        OkPrefix(files[..i - 1], world, resolved, onlyPath, i - 1);
        assert files[..i - 1][..i - 1] == files[..i - 1];
      }
    } else {
      assert files[..|files| - 1][..i] == files[..i];
      OkPrefix(files[..|files| - 1], world, resolved, onlyPath, i);
    }
  }

  /** One more file, with an edit if it has work. */
  lemma OneMoreFile(files: seq<File>, onlyPath: Option<string>, maps: seq<ShaMap>, edits: seq<FileEdit>, at: seq<nat>,
                    file: File, shas: ShaMap, edit: Option<FileEdit>) returns (at': seq<nat>)
    requires |maps| == |files| && AreEditsAt(files, onlyPath, maps, edits, at)
    requires edit.Some? <==> Looks(file, onlyPath) && HasWork(file, shas)
    requires edit.Some? ==> IsPinEdit(file, shas, edit.value)
    ensures AreEditsAt(files + [file], onlyPath, maps + [shas], Pushed(edits, edit), at')
  {
    hide IsPinEdit, HasWork, Looks;
    at' := if edit.Some? then at + [|files|] else at;
    forall p
      ensures p in at' <==>
        0 <= p < |files| + 1 && Looks((files + [file])[p], onlyPath) && HasWork((files + [file])[p], (maps + [shas])[p])
    {
      assert p in at' <==> p in at || (edit.Some? && p == |files|);
    }
  }

  lemma {:induction false} EditsStand(files: seq<File>, world: World, resolved: Option<ShaMap>,
                                      onlyPath: Option<string>) returns (at: seq<nat>)
    requires DryRun(files, world, resolved, onlyPath).Ok?
    ensures AreEditsAt(files, onlyPath, RunMaps(files, world, resolved, onlyPath),
                       DryRun(files, world, resolved, onlyPath).value.0, at)
  {
    hide EditOf, ResolvePinRefs, IsPinEdit, HasWork, Looks, Skips, AreEditsAt;
    if files == [] {
      at := [];
      NoEdits(onlyPath);
      assert RunMaps(files, world, resolved, onlyPath) == [];
    } else {
      var n := |files| - 1;
      var before, last := files[..n], files[n];
      var maps, maps0 := RunMaps(files, world, resolved, onlyPath), RunMaps(before, world, resolved, onlyPath);
      var at0 := EditsStand(before, world, resolved, onlyPath);
      MapsOfPrefix(files, world, resolved, onlyPath);
      LooksIff(last, onlyPath);
      EditIsRight(last, maps[n]);
      var edit := if Looks(last, onlyPath) then EditOf(last, maps[n]).value else None;
      at := OneMoreFile(before, onlyPath, maps0, DryRun(before, world, resolved, onlyPath).value.0, at0,
                        last, maps[n], edit);
      assert before + [last] == files && maps0 + [maps[n]] == maps;
      assert DryRun(files, world, resolved, onlyPath).value.0 ==
        Pushed(DryRun(before, world, resolved, onlyPath).value.0, edit);
    }
  }

  lemma NoEdits(onlyPath: Option<string>)
    ensures AreEditsAt([], onlyPath, [], [], [])
  {
  }

  lemma MapsOfPrefix(files: seq<File>, world: World, resolved: Option<ShaMap>, onlyPath: Option<string>)
    requires files != [] && DryRun(files, world, resolved, onlyPath).Ok?
    ensures var n := |files| - 1;
      var maps := RunMaps(files, world, resolved, onlyPath);
      && maps == RunMaps(files[..n], world, resolved, onlyPath) + [maps[n]]
      && maps[n] == DryRun(files, world, resolved, onlyPath).value.1
  {
    hide DryRun;
    var n := |files| - 1;
    var maps, maps0 := RunMaps(files, world, resolved, onlyPath), RunMaps(files[..n], world, resolved, onlyPath);
    forall i | 0 <= i < n
      ensures maps0[i] == maps[i]
    {
      assert files[..n][..i + 1] == files[..i + 1];
    }
    assert files[..n + 1] == files;
  }

  /** A run that goes through ends with exactly the edits it is for. */
  lemma RunIsRight(files: seq<File>, world: World, resolved: Option<ShaMap>, onlyPath: Option<string>)
    requires DryRun(files, world, resolved, onlyPath).Ok?
    ensures AreEdits(files, world, resolved, onlyPath, DryRun(files, world, resolved, onlyPath).value.0)
    ensures IsMapFor(files, world, resolved, onlyPath, |files| - 1, DryRun(files, world, resolved, onlyPath).value.1)
  {
    hide DryRun, AreEditsAt, IsMapFor;
    var maps := RunMaps(files, world, resolved, onlyPath);
    var at := EditsStand(files, world, resolved, onlyPath);
    forall i | 0 <= i <= |files|
      ensures DryRun(files[..i], world, resolved, onlyPath).Ok?
      ensures IsMapFor(files, world, resolved, onlyPath, i - 1, DryRun(files[..i], world, resolved, onlyPath).value.1)
    {
      OkPrefix(files, world, resolved, onlyPath, i);
      PrefixMap(files, world, resolved, onlyPath, i);
    }
    forall i | 0 <= i < |files|
      ensures IsMapFor(files, world, resolved, onlyPath, i, maps[i])
    {
      OkPrefix(files, world, resolved, onlyPath, i + 1);
    }
    assert files[..|files|] == files;
  }

  lemma PrefixMap(files: seq<File>, world: World, resolved: Option<ShaMap>, onlyPath: Option<string>, i: nat)
    requires i <= |files| && DryRun(files[..i], world, resolved, onlyPath).Ok?
    requires resolved.Some? ==> DryRun(files[..i], world, resolved, onlyPath).value.1 == resolved.value
    ensures IsMapFor(files, world, resolved, onlyPath, i - 1, DryRun(files[..i], world, resolved, onlyPath).value.1)
  {
    hide DryRun;
    if resolved.None? {
      AccumulatedIsMap(files, world, onlyPath, i);
    }
  }

  lemma ResolvingFails(file: File, world: World)
    ensures ResolvePinRefs(file, world).Raised? <==>
      exists k :: Mentions(file, k) && !IsImmutable(world, k) && world.sha(k).Raised?
  {
    hide Classify, ClassifyRef, RefKeyOf, AllUses, Mentions, IsImmutable;
    if file.content.Parses? {
      forall k
        ensures k in Wanted(file.content.doc, world) <==> Mentions(file, k) && !IsImmutable(world, k)
      {
        MentionsIff(file, k);
        ImmutableIff(world, k);
        forall uses | uses in MutableUses(file.content.doc) && KeyOf(Classify(uses)) == k
          ensures k in Wanted(file.content.doc, world) <==> !IsImmutable(world, k)
        {
          WantedByRef(file.content.doc, world, uses);
        }
      }
    } else {
      forall k
        ensures !Mentions(file, k)
      {
        MentionsIff(file, k);
      }
    }
  }

  /** A run fails exactly when it meets such a file. */
  lemma {:induction false} RaisedIff(files: seq<File>, world: World, resolved: Option<ShaMap>, onlyPath: Option<string>)
    ensures DryRun(files, world, resolved, onlyPath).Raised? <==> Fails(files, world, resolved, onlyPath)
  {
    hide EditOf, ResolvePinRefs, Mentions, IsImmutable, Looks, Skips;
    if files != [] {
      var n := |files| - 1;
      var before, last := files[..n], files[n];
      RaisedIff(before, world, resolved, onlyPath);
      assert forall i :: 0 <= i < n ==> before[i] == files[i];
      LooksIff(last, onlyPath);
      ResolvingFails(last, world);
      forall shas
        ensures EditOf(last, shas).Ok? <==> !last.content.Broken?
      {
        EditIsRight(last, shas);
      }
      assert Fails(files, world, resolved, onlyPath) <==>
        Fails(before, world, resolved, onlyPath) || FailsAt(last, world, resolved, onlyPath);
    }
  }

  // ---------------------------------------------------------------------------------------
  // What a larger map adds
  // ---------------------------------------------------------------------------------------

  function TotalChanges(edits: seq<FileEdit>): nat {
    if edits == [] then 0 else TotalChanges(edits[..|edits| - 1]) + |edits[|edits| - 1].changes|
  }

  function EditSize(edit: Option<FileEdit>): nat {
    if edit.Some? then |edit.value.changes| else 0
  }

  lemma PushedAdds(edits: seq<FileEdit>, edit: Option<FileEdit>)
    ensures TotalChanges(Pushed(edits, edit)) == TotalChanges(edits) + EditSize(edit)
  {
    if edit.Some? {
      assert (edits + [edit.value])[..|edits|] == edits;
    }
  }

  lemma LargerMapEditsMore(file: File, world: World, shas: ShaMap, full: ShaMap)
    requires !file.content.Broken? && FromWorld(full, world) && FromWorld(shas, world) && Includes(full, shas)
    ensures EditOf(file, full).Ok? && EditOf(file, shas).Ok?
    ensures EditSize(EditOf(file, full).value) >= EditSize(EditOf(file, shas).value)
    ensures (exists k :: Misses(file, world, shas, k) && k in full) ==>
      EditSize(EditOf(file, full).value) > EditSize(EditOf(file, shas).value)
  {
    hide Classify, Print, Answers;
    var f, g := Pinner(shas), Pinner(full);
    MoreChanges(file.content.doc.jobs, f, g);
    if k :| Misses(file, world, shas, k) && k in full {
      var job, step :| job in file.content.doc.jobs && step in job.steps && step.uses.Some?
        && IsMutable(Classify(step.uses.value)) && KeyOf(Classify(step.uses.value)) == k;
      assert f(step.uses.value).None? && g(step.uses.value).Some?;
    }
  }

  /** Some file escapes with a ref the map holds. */
  ghost predicate EscapeeIn(files: seq<File>, world: World, onlyPath: Option<string>, full: ShaMap) {
    exists i, k :: Escapes(files, world, onlyPath, i, k) && k in full
  }

  /** An apply with a larger map goes through, changes no less than was previewed, and more if something escapes. */
  lemma {:induction false} ApplyChangesMore(files: seq<File>, world: World, onlyPath: Option<string>, full: ShaMap,
                                            later: World)
    requires DryRun(files, world, None, onlyPath).Ok?
    requires FromWorld(full, world) && Includes(full, DryRun(files, world, None, onlyPath).value.1)
    ensures DryRun(files, later, Some(full), onlyPath).Ok?
    ensures DryRun(files, later, Some(full), onlyPath).value.1 == full
    ensures var previewed := TotalChanges(DryRun(files, world, None, onlyPath).value.0);
      var applied := TotalChanges(DryRun(files, later, Some(full), onlyPath).value.0);
      applied >= previewed && (EscapeeIn(files, world, onlyPath, full) ==> applied > previewed)
  {
    hide ResolvePinRefs, EditOf, Answers, EscapeeIn, TotalChanges, Pushed;
    if files == [] {
      NothingInNothing(world, onlyPath, full);
    } else {
      var n := |files| - 1;
      var before, last := files[..n], files[n];
      DryRunHoldsAnswers(files, world, onlyPath);
      DryRunHoldsAnswers(before, world, onlyPath);
      IncludesTransitive(full, DryRun(files, world, None, onlyPath).value.1,
                         DryRun(before, world, None, onlyPath).value.1);
      ApplyChangesMore(before, world, onlyPath, full, later);
      LastEscapes(files, world, onlyPath, full);
      if !Skips(last, onlyPath) {
        var now := DryRun(files, world, None, onlyPath).value.1;
        LargerMapEditsMore(last, world, now, full);
        PushedAdds(DryRun(before, world, None, onlyPath).value.0, EditOf(last, now).value);
        PushedAdds(DryRun(before, later, Some(full), onlyPath).value.0, EditOf(last, full).value);
      }
    }
  }

  lemma NothingInNothing(world: World, onlyPath: Option<string>, full: ShaMap)
    ensures !EscapeeIn([], world, onlyPath, full)
  {
  }

  /** What escapes in a list of files escapes before the last one or in it. */
  lemma LastEscapes(files: seq<File>, world: World, onlyPath: Option<string>, full: ShaMap)
    requires files != [] && DryRun(files, world, None, onlyPath).Ok?
    ensures var last := files[|files| - 1];
      && (!Skips(last, onlyPath) ==> !last.content.Broken?)
      && (EscapeeIn(files, world, onlyPath, full) ==>
            || EscapeeIn(files[..|files| - 1], world, onlyPath, full)
            || (!Skips(last, onlyPath)
                && exists k :: Misses(last, world, DryRun(files, world, None, onlyPath).value.1, k) && k in full))
  {
    hide DryRun, Misses, Escapes, Skips;
    var n := |files| - 1;
    assert files[..n + 1] == files;
    PrefixRuns(files, world, onlyPath, n);
    if i, k :| Escapes(files, world, onlyPath, i, k) && k in full {
      EscapesEarlier(files, world, onlyPath, i, k);
      if i >= n {
        EscapesIffMisses(files, world, onlyPath, n, k);
      }
    }
  }

  lemma EscapesEarlier(files: seq<File>, world: World, onlyPath: Option<string>, i: int, k: RefId)
    requires files != [] && Escapes(files, world, onlyPath, i, k)
    ensures i < |files| - 1 ==> Escapes(files[..|files| - 1], world, onlyPath, i, k)
    ensures i >= |files| - 1 ==> i == |files| - 1 && !Skips(files[i], onlyPath)
  {
    hide Holds, Answers, Skips, Classify, IsMutable;
    var before := files[..|files| - 1];
    assert forall j :: 0 <= j < |before| ==> before[j] == files[j];
  }

  // ---------------------------------------------------------------------------------------
  // The stored map
  // ---------------------------------------------------------------------------------------

  type StoredRow = (string, string, string, string)

  function LoadResolved(rows: seq<StoredRow>): ShaMap {
    if rows == [] then map[]
    else
      var last := rows[|rows| - 1];
      LoadResolved(rows[..|rows| - 1])[(last.0, last.1, last.2) := last.3]
  }

  /** Serializing a map and loading it back gives the same map, in whatever order it is listed. */
  method DumpResolved(resolved: ShaMap) returns (rows: seq<StoredRow>)
    ensures LoadResolved(rows) == resolved
  {
    rows := [];
    var left := resolved.Keys;
    ghost var done: set<RefId> := {};
    while left != {}
      invariant done + left == resolved.Keys && done !! left
      invariant LoadResolved(rows) == map k | k in done && k in resolved :: resolved[k]
      decreases left
    {
      var k :| k in left;
      var row := (k.0, k.1, k.2, resolved[k]);
      assert (rows + [row])[..|rows|] == rows;
      rows := rows + [row];
      left := left - {k};
      done := done + {k};
    }
  }

  // ---------------------------------------------------------------------------------------
  // The campaign
  // ---------------------------------------------------------------------------------------

  type RepoId = nat
  datatype Status = Pending | DryRunOk | PrOpened | Conflict | Failed

  /** `preview` stands for the stored diff text; no edits is no diff. */
  datatype Target = Target(repo: RepoId, status: Status, preview: seq<FileEdit>, pr: Option<nat>)

  /** What GitHub does with a target during an apply. */
  datatype Hosting = Unreachable | RefusesPr | OpensPr(number: nat)

  /** The target after a dry run, and what it adds to the campaign's map. */
  function Previewed(target: Target, files: Option<seq<File>>, reachable: bool, world: World, onlyPath: Option<string>)
    : (Target, ShaMap)
  {
    if files.None? || !reachable then (target.(status := Failed), map[])
    else match DryRun(files.value, world, None, onlyPath)
      case Raised => (target.(status := Failed), map[])
      case Ok((edits, shas)) => (target.(status := DryRunOk, preview := edits), shas)
  }

  /** The target after an apply, and the edits of the pull request it opened, if it opened one. */
  function Applied(target: Target, files: Option<seq<File>>, hosting: Hosting, world: World, shas: ShaMap,
                   onlyPath: Option<string>): (Target, Option<seq<FileEdit>>)
  {
    if target.status != DryRunOk || target.preview == [] || files.None? then (target, None)
    else if hosting.Unreachable? then (target.(status := Conflict), None)
    else match DryRun(files.value, world, Some(shas), onlyPath)
      case Raised => (target.(status := Conflict), None)
      case Ok((edits, _)) =>
        if edits == [] then (target, None)
        else match hosting
          case OpensPr(n) => (target.(status := PrOpened, pr := Some(n)), Some(edits))
          case _ => (target.(status := Conflict), None)
  }

  /** Everything outside the campaign, at one moment. */
  datatype Outside = Outside(repos: map<RepoId, seq<File>>, reachable: set<RepoId>, hosting: map<RepoId, Hosting>,
                             world: World)

  function FilesOf(o: Outside, repo: RepoId): Option<seq<File>> {
    if repo in o.repos then Some(o.repos[repo]) else None
  }

  function HostingOf(o: Outside, repo: RepoId): Hosting {
    if repo in o.hosting then o.hosting[repo] else Unreachable
  }

  function PreviewOf(target: Target, o: Outside, onlyPath: Option<string>): (Target, ShaMap) {
    Previewed(target, FilesOf(o, target.repo), target.repo in o.reachable, o.world, onlyPath)
  }

  function ApplyOf(target: Target, o: Outside, shas: ShaMap, onlyPath: Option<string>)
    : (Target, Option<seq<FileEdit>>)
  {
    Applied(target, FilesOf(o, target.repo), HostingOf(o, target.repo), o.world, shas, onlyPath)
  }

  /** The maps of the first k targets, merged in order. */
  function Merged(targets: seq<Target>, o: Outside, onlyPath: Option<string>, k: nat): ShaMap
    requires k <= |targets|
  {
    if k == 0 then map[] else Merged(targets, o, onlyPath, k - 1) + PreviewOf(targets[k - 1], o, onlyPath).1
  }

  lemma PreviewCases(target: Target, o: Outside, onlyPath: Option<string>)
    ensures target.repo !in o.repos || target.repo !in o.reachable ==>
      PreviewOf(target, o, onlyPath) == (target.(status := Failed), map[])
    ensures target.repo in o.repos && target.repo in o.reachable ==>
      PreviewOf(target, o, onlyPath) ==
        match DryRun(o.repos[target.repo], o.world, None, onlyPath)
        case Raised => (target.(status := Failed), map[])
        case Ok((edits, shas)) => (target.(status := DryRunOk, preview := edits), shas)
  {
    hide DryRun;
  }

  lemma ApplyCases(target: Target, o: Outside, shas: ShaMap, onlyPath: Option<string>)
    ensures target.status != DryRunOk || target.preview == [] || target.repo !in o.repos ==>
      ApplyOf(target, o, shas, onlyPath) == (target, None)
    ensures target.status == DryRunOk && target.preview != [] && target.repo in o.repos ==>
      ApplyOf(target, o, shas, onlyPath) ==
        if HostingOf(o, target.repo).Unreachable? then (target.(status := Conflict), None)
        else match DryRun(o.repos[target.repo], o.world, Some(shas), onlyPath)
        case Raised => (target.(status := Conflict), None)
        case Ok((edits, _)) =>
          if edits == [] then (target, None)
          else match HostingOf(o, target.repo)
            case OpensPr(n) => (target.(status := PrOpened, pr := Some(n)), Some(edits))
            case _ => (target.(status := Conflict), None)
  {
    hide DryRun;
  }

  /** What a dry run leaves of a target: failed, or previewed with exactly the edits of its repository. */
  ghost predicate IsPreviewed(target: Target, after: Target, o: Outside, onlyPath: Option<string>) {
    if target.repo !in o.repos || target.repo !in o.reachable || Fails(o.repos[target.repo], o.world, None, onlyPath)
    then after == target.(status := Failed)
    else
      && after == Target(target.repo, DryRunOk, after.preview, target.pr)
      && AreEdits(o.repos[target.repo], o.world, None, onlyPath, after.preview)
  }

  /** The stored map: GitHub's answers for everything the previewed repositories mention. */
  ghost predicate IsCampaignMap(targets: seq<Target>, after: seq<Target>, o: Outside, onlyPath: Option<string>,
                                shas: ShaMap)
    requires |after| == |targets|
  {
    forall k ::
      && (k in shas <==>
            CanResolve(o.world, k) && exists i ::
              0 <= i < |targets| && after[i].status == DryRunOk && MentionedIn(o, targets[i].repo, onlyPath, k))
      && (k in shas ==> o.world.sha(k) == Ok(shas[k]))
  }

  ghost predicate MentionedIn(o: Outside, repo: RepoId, onlyPath: Option<string>, k: RefId) {
    repo in o.repos && exists file :: file in o.repos[repo] && Looks(file, onlyPath) && Mentions(file, k)
  }

  /** What an apply leaves of a target, and the edits it opens a pull request with. */
  ghost predicate IsApplied(target: Target, after: Target, landed: Option<seq<FileEdit>>, o: Outside, shas: ShaMap,
                            onlyPath: Option<string>)
  {
    if target.status != DryRunOk || target.preview == [] || target.repo !in o.repos
    then after == target && landed == None
    else if HostingOf(o, target.repo).Unreachable? || Fails(o.repos[target.repo], o.world, Some(shas), onlyPath)
    then after == target.(status := Conflict) && landed == None
    else exists edits ::
      && AreEdits(o.repos[target.repo], o.world, Some(shas), onlyPath, edits)
      && if edits == [] then after == target && landed == None
         else match HostingOf(o, target.repo)
         case OpensPr(n) => after == target.(status := PrOpened, pr := Some(n)) && landed == Some(edits)
         case _ => after == target.(status := Conflict) && landed == None
  }

  lemma PreviewIsRight(target: Target, o: Outside, onlyPath: Option<string>)
    ensures IsPreviewed(target, PreviewOf(target, o, onlyPath).0, o, onlyPath)
    ensures forall k :: k in PreviewOf(target, o, onlyPath).1 <==>
      CanResolve(o.world, k) && PreviewOf(target, o, onlyPath).0.status == DryRunOk
      && MentionedIn(o, target.repo, onlyPath, k)
  {
    hide DryRun, AreEdits, Fails, CanResolve, Mentions, Looks;
    PreviewCases(target, o, onlyPath);
    if target.repo in o.repos {
      var files := o.repos[target.repo];
      RaisedIff(files, o.world, None, onlyPath);
      if DryRun(files, o.world, None, onlyPath).Ok? {
        RunIsRight(files, o.world, None, onlyPath);
        MapMentions(o, target.repo, onlyPath, DryRun(files, o.world, None, onlyPath).value.1);
      }
    }
  }

  lemma MapMentions(o: Outside, repo: RepoId, onlyPath: Option<string>, shas: ShaMap)
    requires repo in o.repos && IsMapFor(o.repos[repo], o.world, None, onlyPath, |o.repos[repo]| - 1, shas)
    ensures forall k :: k in shas <==> CanResolve(o.world, k) && MentionedIn(o, repo, onlyPath, k)
  {
    hide CanResolve, Mentions, Looks;
    var files := o.repos[repo];
    forall k
      ensures MentionedIn(o, repo, onlyPath, k) <==>
        exists j :: 0 <= j < |files| && Looks(files[j], onlyPath) && Mentions(files[j], k)
    {
      if MentionedIn(o, repo, onlyPath, k) {
        var file :| file in files && Looks(file, onlyPath) && Mentions(file, k);
        var j :| 0 <= j < |files| && files[j] == file;
      }
    }
  }

  lemma {:induction false} MergedKeys(targets: seq<Target>, o: Outside, onlyPath: Option<string>, n: nat, k: RefId)
    requires n <= |targets|
    ensures k in Merged(targets, o, onlyPath, n) <==>
      exists i :: 0 <= i < n && k in PreviewOf(targets[i], o, onlyPath).1
  {
    hide PreviewOf;
    if n > 0 {
      MergedKeys(targets, o, onlyPath, n - 1, k);
    }
  }

  lemma MergedIsCampaignMap(targets: seq<Target>, after: seq<Target>, o: Outside, onlyPath: Option<string>)
    requires |after| == |targets|
    requires forall i :: 0 <= i < |targets| ==> after[i] == PreviewOf(targets[i], o, onlyPath).0
    ensures IsCampaignMap(targets, after, o, onlyPath, Merged(targets, o, onlyPath, |targets|))
  {
    hide PreviewOf, Merged, CanResolve, MentionedIn, IsPreviewed, Answers;
    var shas := Merged(targets, o, onlyPath, |targets|);
    MergedHoldsAnswers(targets, o, onlyPath, |targets|);
    forall i | 0 <= i < |targets|
      ensures forall k :: k in PreviewOf(targets[i], o, onlyPath).1 <==>
        CanResolve(o.world, k) && after[i].status == DryRunOk && MentionedIn(o, targets[i].repo, onlyPath, k)
    {
      PreviewIsRight(targets[i], o, onlyPath);
    }
    forall k
      ensures k in shas <==>
        CanResolve(o.world, k) && exists i ::
          0 <= i < |targets| && after[i].status == DryRunOk && MentionedIn(o, targets[i].repo, onlyPath, k)
      ensures k in shas ==> o.world.sha(k) == Ok(shas[k])
    {
      MergedKeys(targets, o, onlyPath, |targets|, k);
      AnswerIsOk(o.world, k);
    }
  }

  lemma ApplyIsRight(target: Target, o: Outside, shas: ShaMap, onlyPath: Option<string>)
    ensures var (after, landed) := ApplyOf(target, o, shas, onlyPath);
      IsApplied(target, after, landed, o, shas, onlyPath)
  {
    hide DryRun, AreEdits, Fails;
    ApplyCases(target, o, shas, onlyPath);
    if target.repo in o.repos {
      var files := o.repos[target.repo];
      RaisedIff(files, o.world, Some(shas), onlyPath);
      if DryRun(files, o.world, Some(shas), onlyPath).Ok? {
        RunIsRight(files, o.world, Some(shas), onlyPath);
      }
    }
  }

  /** The pull requests opened by an apply, in the order of the targets. */
  ghost predicate AreOpenings(prs: seq<(nat, seq<FileEdit>)>, found: seq<Option<seq<FileEdit>>>) {
    && (forall m, n :: 0 <= m < n < |prs| ==> prs[m].0 < prs[n].0)
    && forall i: nat, edits :: (i, edits) in prs <==> i < |found| && found[i] == Some(edits)
  }

  function AllOpened(targets: seq<Target>, o: Outside, shas: ShaMap, onlyPath: Option<string>, k: nat)
    : seq<Option<seq<FileEdit>>>
    requires k <= |targets|
  {
    seq(k, i requires 0 <= i < k => ApplyOf(targets[i], o, shas, onlyPath).1)
  }

  lemma {:induction false} OpeningsAreRight(targets: seq<Target>, o: Outside, shas: ShaMap, onlyPath: Option<string>,
                                            k: nat)
    requires k <= |targets|
    ensures AreOpenings(Openings(targets, o, shas, onlyPath, k), AllOpened(targets, o, shas, onlyPath, k))
  {
    hide ApplyOf, AreOpenings;
    if k == 0 {
      NothingOpened();
    } else {
      OpeningsAreRight(targets, o, shas, onlyPath, k - 1);
      OneMoreOpening(Openings(targets, o, shas, onlyPath, k - 1), AllOpened(targets, o, shas, onlyPath, k - 1),
                     ApplyOf(targets[k - 1], o, shas, onlyPath).1);
      assert AllOpened(targets, o, shas, onlyPath, k) ==
        AllOpened(targets, o, shas, onlyPath, k - 1) + [ApplyOf(targets[k - 1], o, shas, onlyPath).1];
    }
  }

  lemma NothingOpened()
    ensures AreOpenings([], [])
  {
  }

  lemma OneMoreOpening(prs: seq<(nat, seq<FileEdit>)>, found: seq<Option<seq<FileEdit>>>, last: Option<seq<FileEdit>>)
    requires AreOpenings(prs, found)
    ensures AreOpenings(prs + (if last.Some? then [(|found|, last.value)] else []), found + [last])
  {
    forall n | 0 <= n < |prs|
      ensures prs[n].0 < |found|
    {
      assert (prs[n].0, prs[n].1) in prs;
    }
  }

  class Campaign {
    const onlyPath: Option<string>
    var targets: seq<Target>
    var resolved: seq<StoredRow>     // params["resolved"]
    var prs: seq<(nat, seq<FileEdit>)>   // the pull requests opened so far: target index and edits

    constructor (repos: seq<RepoId>, onlyPath: Option<string>)
      ensures this.onlyPath == onlyPath && resolved == [] && prs == []
      ensures |targets| == |repos| && forall i :: 0 <= i < |repos| ==> targets[i] == Target(repos[i], Pending, [], None)
    {
      this.onlyPath := onlyPath;
      targets := seq(|repos|, i requires 0 <= i < |repos| => Target(repos[i], Pending, [], None));
      resolved, prs := [], [];
    }

    /** Previews every target and stores the merged map. */
    method RunDryRun(o: Outside)
      modifies this`targets, this`resolved
      ensures |targets| == |old(targets)|
      ensures forall i :: 0 <= i < |targets| ==> targets[i] == PreviewOf(old(targets)[i], o, onlyPath).0
      ensures LoadResolved(resolved) == Merged(old(targets), o, onlyPath, |old(targets)|)
      ensures forall i :: 0 <= i < |targets| ==> IsPreviewed(old(targets)[i], targets[i], o, onlyPath)
      ensures IsCampaignMap(old(targets), targets, o, onlyPath, LoadResolved(resolved))
    {
      hide DryRun, Previewed, LoadResolved, IsPreviewed, IsCampaignMap, AreEdits, IsMapFor, Fails;
      ghost var was := targets;
      var all: ShaMap := map[];
      for i := 0 to |targets|
        invariant |targets| == |was|
        invariant forall j :: 0 <= j < |was| ==>
          targets[j] == if j < i then PreviewOf(was[j], o, onlyPath).0 else was[j]
        invariant all == Merged(was, o, onlyPath, i)
      {
        var target := targets[i];
        PreviewCases(target, o, onlyPath);
        if target.repo !in o.repos || target.repo !in o.reachable {
          targets := targets[i := target.(status := Failed)];
        } else {
          var r := DryRunRepo(o.repos[target.repo], o.world, None, onlyPath);
          match r
          case Raised => targets := targets[i := target.(status := Failed)];
          case Ok((edits, shas)) =>
            all := all + shas;
            targets := targets[i := target.(status := DryRunOk, preview := edits)];
        }
      }
      resolved := DumpResolved(all);
      forall i | 0 <= i < |targets|
        ensures IsPreviewed(was[i], targets[i], o, onlyPath)
      {
        PreviewIsRight(was[i], o, onlyPath);
      }
      MergedIsCampaignMap(was, targets, o, onlyPath);
    }

    /** Replays the edits of every previewed target with the stored map and opens its pull request. */
    method ApplyCampaign(o: Outside)
      modifies this`targets, this`prs
      ensures |targets| == |old(targets)|
      ensures forall i :: 0 <= i < |targets| ==>
        targets[i] == ApplyOf(old(targets)[i], o, LoadResolved(resolved), onlyPath).0
      ensures prs == old(prs) + Openings(old(targets), o, LoadResolved(resolved), onlyPath, |old(targets)|)
      ensures exists found: seq<Option<seq<FileEdit>>> ::
        && |found| == |targets| && AreOpenings(prs[|old(prs)|..], found)
        && forall i :: 0 <= i < |targets| ==>
             IsApplied(old(targets)[i], targets[i], found[i], o, LoadResolved(resolved), onlyPath)
    {
      hide DryRun, Applied, LoadResolved, IsApplied, AreOpenings, AreEdits, IsMapFor, Fails;
      var shas := LoadResolved(resolved);
      ghost var was, wasPrs := targets, prs;
      for i := 0 to |targets|
        invariant |targets| == |was|
        invariant forall j :: 0 <= j < |was| ==>
          targets[j] == if j < i then ApplyOf(was[j], o, shas, onlyPath).0 else was[j]
        invariant prs == wasPrs + Openings(was, o, shas, onlyPath, i)
      {
        var target := targets[i];
        ApplyCases(target, o, shas, onlyPath);
        if target.status != DryRunOk || target.preview == [] || target.repo !in o.repos {
          continue;
        }
        var hosting := HostingOf(o, target.repo);
        if hosting.Unreachable? {
          targets := targets[i := target.(status := Conflict)];
          continue;
        }
        var r := DryRunRepo(o.repos[target.repo], o.world, Some(shas), onlyPath);
        match r
        case Raised => targets := targets[i := target.(status := Conflict)];
        case Ok((edits, _)) =>
          if edits != [] {
            if hosting.OpensPr? {
              prs := prs + [(i, edits)];
              targets := targets[i := target.(status := PrOpened, pr := Some(hosting.number))];
            } else {
              targets := targets[i := target.(status := Conflict)];
            }
          }
      }
      ghost var found := AllOpened(was, o, shas, onlyPath, |was|);
      OpeningsAreRight(was, o, shas, onlyPath, |was|);
      forall i | 0 <= i < |targets|
        ensures IsApplied(was[i], targets[i], found[i], o, shas, onlyPath)
      {
        ApplyIsRight(was[i], o, shas, onlyPath);
      }
      assert prs[|wasPrs|..] == Openings(was, o, shas, onlyPath, |was|);
    }
  }

  /** The pull requests an apply opens for the first k targets. */
  function Openings(targets: seq<Target>, o: Outside, shas: ShaMap, onlyPath: Option<string>, k: nat)
    : seq<(nat, seq<FileEdit>)>
    requires k <= |targets|
  {
    if k == 0 then []
    else
      var edits := ApplyOf(targets[k - 1], o, shas, onlyPath).1;
      Openings(targets, o, shas, onlyPath, k - 1) + if edits.Some? then [(k - 1, edits.value)] else []
  }

  // ---------------------------------------------------------------------------------------
  // What a reviewed campaign does
  // ---------------------------------------------------------------------------------------

  lemma {:induction false} MergedHoldsAnswers(targets: seq<Target>, o: Outside, onlyPath: Option<string>, k: nat)
    requires k <= |targets|
    ensures FromWorld(Merged(targets, o, onlyPath, k), o.world)
    ensures forall i :: 0 <= i < k ==>
      Includes(Merged(targets, o, onlyPath, k), PreviewOf(targets[i], o, onlyPath).1)
  {
    hide PreviewOf, Answers;
    if k > 0 {
      MergedHoldsAnswers(targets, o, onlyPath, k - 1);
      PreviewHoldsAnswers(targets[k - 1], o, onlyPath);
      AddingAnswers(o.world, Merged(targets, o, onlyPath, k - 1), PreviewOf(targets[k - 1], o, onlyPath).1);
      forall i | 0 <= i < k - 1
        ensures Includes(Merged(targets, o, onlyPath, k), PreviewOf(targets[i], o, onlyPath).1)
      {
        IncludesTransitive(Merged(targets, o, onlyPath, k), Merged(targets, o, onlyPath, k - 1),
                           PreviewOf(targets[i], o, onlyPath).1);
      }
    }
  }

  lemma PreviewHoldsAnswers(target: Target, o: Outside, onlyPath: Option<string>)
    ensures FromWorld(PreviewOf(target, o, onlyPath).1, o.world)
  {
    hide DryRun, Answers;
    if target.repo in o.repos && DryRun(o.repos[target.repo], o.world, None, onlyPath).Ok? {
      DryRunHoldsAnswers(o.repos[target.repo], o.world, onlyPath);
    }
  }

  /**
   The reviewed diff is the diff that lands: for a target whose files have not changed and let
   nothing escape, an apply that opens a pull request opens it with exactly the previewed edits, even
   though the map it uses was merged over every target, stored and loaded, and whatever GitHub
   answers by then.
   */
  lemma PreviewEqualsApply(targets: seq<Target>, o: Outside, later: Outside, onlyPath: Option<string>,
                           rows: seq<StoredRow>, i: nat)
    requires i < |targets| && LoadResolved(rows) == Merged(targets, o, onlyPath, |targets|)
    requires PreviewOf(targets[i], o, onlyPath).0.status == DryRunOk
    requires SameFiles(o, later, targets[i].repo) && NothingEscapes(o.repos[targets[i].repo], o.world, onlyPath)
    ensures var target := PreviewOf(targets[i], o, onlyPath).0;
      var applied := ApplyOf(target, later, LoadResolved(rows), onlyPath);
      if target.preview != [] && HostingOf(later, target.repo).OpensPr?
      then applied.1 == Some(target.preview) && applied.0.status == PrOpened
      else applied.1 == None
  {
    hide DryRun, Merged, LoadResolved;
    var files, shas := o.repos[targets[i].repo], LoadResolved(rows);
    MergedHoldsAnswers(targets, o, onlyPath, |targets|);
    ApplyReproduces(files, o.world, onlyPath, shas, later.world);
  }

  ghost predicate SameFiles(o: Outside, later: Outside, repo: RepoId) {
    repo in o.repos && repo in later.repos && later.repos[repo] == o.repos[repo]
  }

  /** Whatever else the campaign resolves, and whenever it is applied, the target gets the reviewed edits or none. */
  ghost predicate PreviewIsBinding(target: Target, o: Outside, onlyPath: Option<string>) {
    var (reviewed, shas) := PreviewOf(target, o, onlyPath);
    forall later, full :: SameFiles(o, later, target.repo) && FromWorld(full, o.world) && Includes(full, shas) ==>
      var pr := ApplyOf(reviewed, later, full, onlyPath).1;
      pr == None || pr == Some(reviewed.preview)
  }

  lemma WithAnswer(world: World, shas: ShaMap, k: RefId) returns (full: ShaMap)
    requires FromWorld(shas, world) && Answers(world, k)
    ensures FromWorld(full, world) && Includes(full, shas) && k in full
  {
    full := shas[k := world.sha(k).value];
  }

  /**
   A review binds the apply exactly when it shows no edit at all, so that nothing is applied, or
   no file escapes: none that only the editor can load uses a ref that GitHub can answer and no
   file before it resolves.
   */
  lemma BindingIffNothingEscapes(target: Target, o: Outside, onlyPath: Option<string>)
    requires PreviewOf(target, o, onlyPath).0.status == DryRunOk
    ensures target.repo in o.repos
    ensures PreviewIsBinding(target, o, onlyPath) <==>
      || PreviewOf(target, o, onlyPath).0.preview == []
      || NothingEscapes(o.repos[target.repo], o.world, onlyPath)
  {
    hide DryRun, Answers, Escapes;
    var files, reviewed := o.repos[target.repo], PreviewOf(target, o, onlyPath).0;
    if reviewed.preview == [] {
      assert PreviewIsBinding(target, o, onlyPath);
    } else if NothingEscapes(files, o.world, onlyPath) {
      NothingEscapesBinds(target, o, onlyPath);
    } else {
      var i, k :| Escapes(files, o.world, onlyPath, i, k);
      EscapeeUnbinds(target, o, onlyPath, i, k);
    }
  }

  lemma NothingEscapesBinds(target: Target, o: Outside, onlyPath: Option<string>)
    requires PreviewOf(target, o, onlyPath).0.status == DryRunOk
    requires NothingEscapes(o.repos[target.repo], o.world, onlyPath)
    ensures PreviewIsBinding(target, o, onlyPath)
  {
    hide DryRun, Answers, NothingEscapes;
    var files, p := o.repos[target.repo], PreviewOf(target, o, onlyPath);
    forall later, full | SameFiles(o, later, target.repo) && FromWorld(full, o.world) && Includes(full, p.1)
      ensures var pr := ApplyOf(p.0, later, full, onlyPath).1; pr == None || pr == Some(p.0.preview)
    {
      ApplyReproduces(files, o.world, onlyPath, full, later.world);
    }
  }

  /** Applied with a map that holds the escaping ref, the target gets edits that were not reviewed. */
  lemma EscapeeUnbinds(target: Target, o: Outside, onlyPath: Option<string>, i: int, k: RefId)
    requires PreviewOf(target, o, onlyPath).0.status == DryRunOk && PreviewOf(target, o, onlyPath).0.preview != []
    requires Escapes(o.repos[target.repo], o.world, onlyPath, i, k)
    ensures !PreviewIsBinding(target, o, onlyPath)
  {
    hide DryRun, Escapes, Answers, ApplyOf, Applied, Previewed, TotalChanges, Includes;
    PreviewCases(target, o, onlyPath);
    var files, p := o.repos[target.repo], PreviewOf(target, o, onlyPath);
    DryRunHoldsAnswers(files, o.world, onlyPath);
    EscapeHasAnswer(files, o.world, onlyPath, i, k);
    var full := WithAnswer(o.world, p.1, k);
    ApplyChangesMore(files, o.world, onlyPath, full, o.world);
    NoEditsNoChanges();
    var later := o.(hosting := o.hosting[target.repo := OpensPr(0)]);
    var edits := DryRun(files, o.world, Some(full), onlyPath).value.0;
    assert edits != [] && edits != p.0.preview;
    ApplyCases(p.0, later, full, onlyPath);
    assert ApplyOf(p.0, later, full, onlyPath).1 == Some(edits);
  }

  lemma NoEditsNoChanges()
    ensures TotalChanges([]) == 0
  {
  }

  lemma EscapeHasAnswer(files: seq<File>, world: World, onlyPath: Option<string>, i: int, k: RefId)
    requires Escapes(files, world, onlyPath, i, k)
    ensures Answers(world, k)
    ensures forall full: ShaMap :: k in full ==> EscapeeIn(files, world, onlyPath, full)
  {
  }

  // ---------------------------------------------------------------------------------------
  // A review that does not bind
  // ---------------------------------------------------------------------------------------

  function OneStep(uses: string): Workflow {
    Workflow([Job("j", None, [Step(Some(uses), None)])])
  }

  function Readable(path: string, uses: string): File {
    File(path, "blob", Parses(OneStep(uses)))
  }

  /** A file the editor can load and the analysis parser rejects. */
  function Unreadable(path: string, uses: string): File {
    File(path, "blob", LoadsOnly(OneStep(uses)))
  }

  lemma OneStepEdit(file: File, uses: string, shas: ShaMap)
    requires file.content == Parses(OneStep(uses)) || file.content == LoadsOnly(OneStep(uses))
    ensures EditOf(file, shas).Ok?
    ensures EditOf(file, shas).value.Some? <==> Pinned(uses, shas).Some?
    ensures EditOf(file, shas).value.Some? ==> EditOf(file, shas).value.value.path == file.path
  {
    hide Pinned;
    var steps := [Step(Some(uses), None)];
    var jobs := [Job("j", None, steps)];
    assert steps[..0] == [] && jobs[..0] == [];
    assert Changes(jobs, Pinner(shas)) == StepChanges(steps, Pinner(shas));
  }

  lemma PinnedIfHeld(uses: string, shas: ShaMap, k: RefId)
    requires IsMutable(Classify(uses)) && KeyOf(Classify(uses)) == k && (k in shas ==> shas[k] != "")
    ensures Pinned(uses, shas).Some? <==> k in shas
  {
    hide Classify;
  }

  lemma OneStepResolves(path: string, uses: string, world: World, k: RefId)
    requires IsMutable(Classify(uses)) && KeyOf(Classify(uses)) == k && Answers(world, k)
    ensures ResolvePinRefs(Readable(path, uses), world) == Ok(map[k := world.sha(k).value])
  {
    hide Classify, Answers, ClassifyRef, RefKeyOf;
    var doc := OneStep(uses);
    EmptyIsNotMutable();
    OneStepUses(uses);
    assert MutableUses(doc) == {uses};
    WantedByRef(doc, world, uses);
    assert !(ClassifyRef(k.2) == TagPinned && RefKeyOf(k) in world.immutable) && world.sha(k).Ok? by {
      AnswersMeans(world, k);
    }
    assert Wanted(doc, world) == {k};
    var shas := map j | j in Wanted(doc, world) && world.sha(j).Ok? :: world.sha(j).value;
    assert shas == map[k := world.sha(k).value];
  }

  lemma AnswersMeans(world: World, k: RefId)
    requires Answers(world, k)
    ensures !(ClassifyRef(k.2) == TagPinned && RefKeyOf(k) in world.immutable) && world.sha(k).Ok?
  {
  }

  lemma OneStepUses(uses: string)
    ensures AllUses(OneStep(uses).jobs) == if uses == "" then [] else [uses]
  {
    var steps := [Step(Some(uses), None)];
    var jobs := [Job("j", None, steps)];
    assert steps[..0] == [] && jobs[..0] == [];
    assert StepUses(steps) == UsesOf(Some(uses));
    assert AllUses(jobs) == UsesOf(None) + StepUses(steps);
  }

  /** A dry run, or an apply, over two files of one step each. */
  lemma TwoFiles(a: File, b: File, world: World, resolved: Option<ShaMap>)
    ensures DryRun([a, b], world, resolved, None) ==
      match HandleFile(a, world, resolved.Some?, None, [], if resolved.Some? then resolved.value else map[])
      case Raised => Raised
      case Ok((edits, shas)) => HandleFile(b, world, resolved.Some?, None, edits, shas)
    ensures DryRun([a], world, resolved, None) ==
      HandleFile(a, world, resolved.Some?, None, [], if resolved.Some? then resolved.value else map[])
  {
    hide HandleFile;
    assert [a, b][..1] == [a] && [a][..0] == [];
    assert DryRun([], world, resolved, None) == Ok(([], if resolved.Some? then resolved.value else map[]));
  }

  /** The review of a repository with one file of each kind shows an edit of the first only. */
  lemma ReviewOfTwo(world: World, uses: string, k: RefId, escaping: string, e: RefId)
    requires IsMutable(Classify(uses)) && KeyOf(Classify(uses)) == k && Answers(world, k) && world.sha(k).value != ""
    requires IsMutable(Classify(escaping)) && KeyOf(Classify(escaping)) == e && e != k
    ensures var shas := map[k := world.sha(k).value];
      var edit := EditOf(Readable("ci.yml", uses), shas);
      && edit.Ok? && edit.value.Some? && edit.value.value.path == "ci.yml"
      && DryRun([Readable("ci.yml", uses), Unreadable("cd.yml", escaping)], world, None, None) ==
           Ok(([edit.value.value], shas))
  {
    hide Classify, EditOf, DryRun, Answers, Pinned;
    AnswersMeans(world, k);
    var a, b, shas := Readable("ci.yml", uses), Unreadable("cd.yml", escaping), map[k := world.sha(k).value];
    TwoFiles(a, b, world, None);
    OneStepResolves("ci.yml", uses, world, k);
    assert map[] + shas == shas && shas + map[] == shas;
    OneStepEdit(a, uses, shas);
    PinnedIfHeld(uses, shas, k);
    OneStepEdit(b, escaping, shas);
    PinnedIfHeld(escaping, shas, e);
    var edit := EditOf(a, shas).value;
    assert Pushed([], edit) == [edit.value];
    assert HandleFile(a, world, false, None, [], map[]) == Ok(([edit.value], shas));
    assert Accumulated(b, world, false, shas) == Ok(shas);
  }

  /** Applied with a map that also holds the escaping ref, both files are edited. */
  lemma ApplyOfTwo(world: World, uses: string, k: RefId, escaping: string, e: RefId, full: ShaMap)
    requires IsMutable(Classify(uses)) && KeyOf(Classify(uses)) == k && k in full && full[k] != ""
    requires IsMutable(Classify(escaping)) && KeyOf(Classify(escaping)) == e && e in full && full[e] != ""
    ensures var r := DryRun([Readable("ci.yml", uses), Unreadable("cd.yml", escaping)], world, Some(full), None);
      r.Ok? && |r.value.0| == 2 && r.value.0[0].path == "ci.yml" && r.value.0[1].path == "cd.yml"
  {
    hide Classify, EditOf, DryRun, Pinned;
    var a, b := Readable("ci.yml", uses), Unreadable("cd.yml", escaping);
    TwoFiles(a, b, world, Some(full));
    OneStepEdit(a, uses, full);
    PinnedIfHeld(uses, full, k);
    OneStepEdit(b, escaping, full);
    PinnedIfHeld(escaping, full, e);
  }

  /** The review of a repository with one readable file resolves its ref. */
  lemma ReviewOfOne(world: World, uses: string, k: RefId)
    requires IsMutable(Classify(uses)) && KeyOf(Classify(uses)) == k && Answers(world, k)
    ensures var r := DryRun([Readable("ci.yml", uses)], world, None, None);
      r.Ok? && r.value.1 == map[k := world.sha(k).value]
  {
    hide Classify, EditOf, DryRun, Answers;
    AnswersMeans(world, k);
    var a := Readable("ci.yml", uses);
    TwoFiles(a, a, world, None);
    OneStepResolves("ci.yml", uses, world, k);
    assert map[] + map[k := world.sha(k).value] == map[k := world.sha(k).value];
    OneStepEdit(a, uses, map[k := world.sha(k).value]);
  }

  lemma VersionIsTag(version: char)
    requires '0' <= version <= '9'
    ensures ClassifyRef("v" + [version]) == TagPinned
  {
    var ref := "v" + [version];
    CutMisses([version], '.');
    assert ref[1..] == [version] && BeforeFinalNewline(ref) == ref;
  }

  lemma VersionedName(version: char)
    requires '0' <= version <= '9'
    ensures var uses := Print("a", "b", None, "v" + [version]); IsActionName("a", "b", None) && Strip(uses) == uses
  {
    hide Strip;
    StripStrips(Print("a", "b", None, "v" + [version]));
  }

  lemma VersionedIsMutable(version: char)
    requires '0' <= version <= '9'
    ensures var u := Classify(Print("a", "b", None, "v" + [version]));
      IsMutable(u) && KeyOf(u) == ("a", "b", "v" + [version])
  {
    hide Cut, Strip, SplitActionName, ClassifyRef, Print, IsSpace, IsActionName;
    VersionedName(version);
    PrintedName("a", "b", None, "v" + [version]);
    VersionIsTag(version);
  }

  /** Repository 0 runs a/b@v1 in a file that parses and a/b@v2 in one that does not; repository 1 runs a/b@v2. */
  function TwoRepositories(world: World): Outside {
    Outside(map[0 := [Readable("ci.yml", "a/b@v1"), Unreadable("cd.yml", "a/b@v2")],
                1 := [Readable("ci.yml", "a/b@v2")]],
            {0, 1}, map[0 := OpensPr(7)], world)
  }

  function TwoTargets(): seq<Target> {
    [Target(0, Pending, [], None), Target(1, Pending, [], None)]
  }

  lemma TheTwoRefs()
    ensures IsMutable(Classify("a/b@v1")) && KeyOf(Classify("a/b@v1")) == ("a", "b", "v1")
    ensures IsMutable(Classify("a/b@v2")) && KeyOf(Classify("a/b@v2")) == ("a", "b", "v2")
    ensures ("a", "b", "v1") != ("a", "b", "v2")
  {
    hide Classify, IsMutable;
    VersionedIsMutable('1');
    VersionedIsMutable('2');
    assert Print("a", "b", None, "v1") == "a/b@v1" && Print("a", "b", None, "v2") == "a/b@v2";
    assert "v1" == "v" + "1" && "v2" == "v" + "2";
    assert "v1"[1] != "v2"[1];
  }

  /**
   One target's review shows the edit of its readable file. Applied with the campaign's map,
   which holds what the other target resolved, its pull request also edits the unreadable one.
   */
  lemma UnparsedFileEscapes(world: World)
    requires world.immutable == {}
    requires world.sha(("a", "b", "v1")).Ok? && world.sha(("a", "b", "v1")).value != ""
    requires world.sha(("a", "b", "v2")).Ok? && world.sha(("a", "b", "v2")).value != ""
    ensures var o := TwoRepositories(world);
      var reviewed := PreviewOf(TwoTargets()[0], o, None).0;
      var applied := ApplyOf(reviewed, o, Merged(TwoTargets(), o, None, 2), None).1;
      && reviewed.status == DryRunOk && |reviewed.preview| == 1 && reviewed.preview[0].path == "ci.yml"
      && applied.Some? && |applied.value| == 2 && applied.value[1].path == "cd.yml"
  {
    hide DryRun, Classify, EditOf, IsMutable, Previewed, Applied;
    var o, first, second := TwoRepositories(world), TwoTargets()[0], TwoTargets()[1];
    var k, e := ("a", "b", "v1"), ("a", "b", "v2");
    TheTwoRefs();
    ReviewOfTwo(world, "a/b@v1", k, "a/b@v2", e);
    ReviewOfOne(world, "a/b@v2", e);
    PreviewCases(first, o, None);
    PreviewCases(second, o, None);
    var reviewed, full := PreviewOf(first, o, None).0, Merged(TwoTargets(), o, None, 2);
    assert Merged(TwoTargets(), o, None, 1) == map[] + PreviewOf(first, o, None).1;
    assert full == Merged(TwoTargets(), o, None, 1) + PreviewOf(second, o, None).1;
    assert k in full && e in full && full[k] == world.sha(k).value && full[e] == world.sha(e).value;
    ApplyOfTwo(world, "a/b@v1", k, "a/b@v2", e, full);
    ApplyCases(reviewed, o, full, None);
  }

  /** A target through a sequence of applies: where it ends, and how many pull requests were opened for it. */
  function Reapplied(target: Target, outsides: seq<Outside>, shas: ShaMap, onlyPath: Option<string>): (Target, nat) {
    if outsides == [] then (target, 0)
    else
      var (t, n) := Reapplied(target, outsides[..|outsides| - 1], shas, onlyPath);
      var (t', edits) := ApplyOf(t, outsides[|outsides| - 1], shas, onlyPath);
      (t', if edits.Some? then n + 1 else n)
  }

  /** However often a campaign is applied, and whatever happens outside, a target gets at most one pull request. */
  lemma {:induction false} AtMostOnePullRequest(target: Target, outsides: seq<Outside>, shas: ShaMap,
                                                onlyPath: Option<string>)
    requires target.status != PrOpened
    ensures var (t, n) := Reapplied(target, outsides, shas, onlyPath);
      n <= 1 && (n == 1 <==> t.status == PrOpened)
  {
    hide DryRun;
    if outsides != [] {
      AtMostOnePullRequest(target, outsides[..|outsides| - 1], shas, onlyPath);
    }
  }
}
