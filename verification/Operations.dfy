/**
 The campaign operations that rewrite `uses:` references, on the job and step tree of a
 workflow, and the pin audit they are meant to satisfy.
 */
module Operations {
  import opened Common
  import opened Strings
  import opened Pins

  /** A permissions or concurrency block: absent, a string, or a mapping in the order it is written. */
  datatype Block = Absent | Text(text: string) | Mapping(entries: seq<(string, string)>)

  datatype Step = Step(uses: Option<string>, run: Option<string>,
                       id: Option<string> := None, name: Option<string> := None)
  datatype Job = Job(id: string, uses: Option<string>, steps: seq<Step>, permissions: Block := Absent)
  datatype Workflow = Workflow(jobs: seq<Job>)

  /** (owner, repo, ref) to commit SHA. */
  type ShaMap = map<(string, string, string), string>

  datatype Change = Change(before: string, after: string)

  // ---------------------------------------------------------------------------------------
  // Rewriting one reference
  // ---------------------------------------------------------------------------------------

  function KeyOf(u: UsesRef): (string, string, string)
    requires u.owner.Some? && u.repo.Some? && u.ref.Some?
  {
    (u.owner.value, u.repo.value, u.ref.value)
  }

  /** A reference pinning may rewrite: a tag or a branch of a named repository. */
  predicate IsMutable(u: UsesRef) {
    (u.pinState == TagPinned || u.pinState == BranchPinned) && Truthy(u.owner) && Truthy(u.repo) && Truthy(u.ref)
  }

  /** What pinning turns a reference into, if it touches it. */
  function Pinned(uses: string, shas: ShaMap): Option<string> {
    var u := Classify(uses);
    if IsMutable(u) && KeyOf(u) in shas && shas[KeyOf(u)] != "" then
      Some(Print(u.owner.value, u.repo.value, u.subpath, shas[KeyOf(u)]))
    else None
  }

  /** What a version bump turns a reference into, if it touches it. `action` is owner/repo in lower case. */
  function Bumped(uses: string, action: string, to: string): Option<string> {
    var u := Classify(uses);
    if Truthy(u.owner) && Truthy(u.repo) && Lower(u.owner.value + "/" + u.repo.value) == action
       && u.ref != Some(to) then
      Some(Print(u.owner.value, u.repo.value, u.subpath, to))
    else None
  }

  ghost predicate ResolvesToShas(shas: ShaMap) {
    forall k :: k in shas ==> IsSha(shas[k])
  }

  lemma {:induction false} StripRightKeeps(a: string, b: string)
    requires a != "" && !IsSpace(a[|a| - 1])
    ensures StripRight(a + b) == a + StripRight(b)
  {
    if b != "" && IsSpace(b[|b| - 1]) {
      assert (a + b)[..|a + b| - 1] == a + b[..|b| - 1];
      StripRightKeeps(a, b[..|b| - 1]);
    } else {
      StripRightStops(a + b);
      StripRightStops(b);
      if b == "" {
        assert a + b == a;
      }
    }
  }

  /** A printed reference reads back as the same action with the new ref, less trailing blanks. */
  lemma PrintReadsBack(uses: string, to: string, immutable: set<string>)
    requires Truthy(Classify(uses).owner) && Truthy(Classify(uses).repo)
    ensures var u := Classify(uses);
      var r := Classify(Print(u.owner.value, u.repo.value, u.subpath, to), immutable);
      r.owner == u.owner && r.repo == u.repo && r.subpath == u.subpath && r.ref == NoneIfEmpty(StripRight(to))
  {
    var u := Classify(uses);
    var owner, repo, subpath := u.owner.value, u.repo.value, u.subpath;
    ClassifiedName(uses);
    PrintedName(owner, repo, subpath, to);
    PrintedName(owner, repo, subpath, StripRight(to));
    var s := Print(owner, repo, subpath, to);
    var name := owner + "/" + repo + if Truthy(subpath) then "/" + subpath.value else "";
    assert s == name + "@" + to;
    StripLeftStops(s);
    StripRightKeeps(name + "@", to);
    assert Strip(s) == Print(owner, repo, subpath, StripRight(to));
    hide Cut, SplitActionName, ClassifyRef, IsActionName, IsSpace;
  }

  /**
   A rewritten reference is SHA-pinned to the resolved commit and names the same owner,
   repository and subpath; pinning it again changes nothing.
   */
  lemma PinnedIsSafe(uses: string, shas: ShaMap, immutable: set<string>)
    requires ResolvesToShas(shas) && Pinned(uses, shas).Some?
    ensures var u := Classify(uses);
      var r := Classify(Pinned(uses, shas).value, immutable);
      && r.pinState == ShaPinned && r.ref == Some(shas[KeyOf(u)])
      && r.owner == u.owner && r.repo == u.repo && r.subpath == u.subpath
    ensures Pinned(Pinned(uses, shas).value, shas).None?
  {
    hide Classify;
    var u := Classify(uses);
    var sha := shas[KeyOf(u)];
    ShaHasNoBlanks(sha);
    PrintReadsBack(uses, sha, immutable);
    PrintReadsBack(uses, sha, {});
    RefDecidesState(Pinned(uses, shas).value, sha, immutable);
    RefDecidesState(Pinned(uses, shas).value, sha, {});
  }

  lemma ShaHasNoBlanks(sha: string)
    requires IsSha(sha)
    ensures sha != "" && StripRight(sha) == sha
  {
    assert sha[|sha| - 1] in sha;
    StripRightStops(sha);
  }

  lemma RefDecidesState(uses: string, sha: string, immutable: set<string>)
    requires IsSha(sha) && Classify(uses, immutable).ref == Some(sha)
    ensures Classify(uses, immutable).pinState == ShaPinned
  {
    hide Cut, SplitActionName, Strip;
  }

  /** A bumped reference is left alone by the next bump exactly when the target ref has no trailing blank. */
  lemma BumpedIsStableIff(uses: string, action: string, to: string)
    requires to != "" && Bumped(uses, action, to).Some?
    ensures var u := Classify(uses);
      var r := Classify(Bumped(uses, action, to).value);
      && r.owner == u.owner && r.repo == u.repo && r.subpath == u.subpath
      && (r.ref == Some(to) <==> !IsSpace(to[|to| - 1]))
    ensures Bumped(Bumped(uses, action, to).value, action, to).None? <==> !IsSpace(to[|to| - 1])
  {
    PrintReadsBack(uses, to, {});
    StripRightStops(to);
    hide Classify;
  }

  // ---------------------------------------------------------------------------------------
  // What a rewrite writes, on the text of the reference
  // ---------------------------------------------------------------------------------------

  /** owner/repo[/subpath]@ref, written out. */
  ghost predicate Spells(text: string, owner: string, repo: string, subpath: Option<string>, ref: string) {
    text == owner + "/" + repo + (if subpath.Some? then "/" + subpath.value else "") + "@" + ref
  }

  /**
   What pinning is for: the reference names an action by a version tag or the name of a branch, the map
   has a SHA for it, and the text afterwards names the same action by that SHA.
   */
  ghost predicate PinsTo(uses: string, shas: ShaMap, after: string) {
    exists owner, repo, subpath, ref ::
      && ReadsAs(uses, owner, repo, subpath, Some(ref)) && IsMovingText(ref)
      && (owner, repo, ref) in shas && shas[(owner, repo, ref)] != ""
      && Spells(after, owner, repo, subpath, shas[(owner, repo, ref)])
  }

  ghost predicate CanPin(uses: string, shas: ShaMap) {
    exists after :: PinsTo(uses, shas, after)
  }

  /** What a version bump is for: any reference to the action that does not name the target ref already. */
  ghost predicate BumpsTo(uses: string, action: string, to: string, after: string) {
    exists owner, repo, subpath, ref ::
      && ReadsAs(uses, owner, repo, subpath, ref) && Lower(owner + "/" + repo) == action && ref != Some(to)
      && Spells(after, owner, repo, subpath, to)
  }

  /** Which references count as mutable, on their text. */
  lemma MutableIff(uses: string)
    ensures IsMutable(Classify(uses)) <==>
      exists owner, repo, subpath, ref :: ReadsAs(uses, owner, repo, subpath, Some(ref)) && IsMovingText(ref)
    ensures IsMutable(Classify(uses)) ==>
      var u := Classify(uses);
      ReadsAs(uses, u.owner.value, u.repo.value, u.subpath, u.ref) && IsMovingText(u.ref.value)
  {
    hide Classify, ReadsAs, IsVersionText, IsShaText, IsProven;
    var u := Classify(uses);
    if IsMutable(u) {
      ReadsIff(uses, u.owner.value, u.repo.value, u.subpath, u.ref, {});
      ReadingState(uses, u.owner.value, u.repo.value, u.subpath, u.ref.value);
    }
    if owner, repo, subpath, ref :| ReadsAs(uses, owner, repo, subpath, Some(ref)) && IsMovingText(ref) {
      NotEmpty(uses, owner, repo, subpath, Some(ref));
      ReadsIff(uses, owner, repo, subpath, Some(ref), {});
      ReadingState(uses, owner, repo, subpath, ref);
    }
  }

  lemma ReadingState(uses: string, owner: string, repo: string, subpath: Option<string>, ref: string)
    requires ReadsAs(uses, owner, repo, subpath, Some(ref))
    ensures ref != "" && Classify(uses).pinState == ClassifyRef(ref)
    ensures IsMovingText(ref) <==> ClassifyRef(ref) == TagPinned || ClassifyRef(ref) == BranchPinned
  {
    hide Classify, ClassifyRef, ReadsAs, IsVersionText, IsShaText, SplitActionName, Cut, Strip;
    NotEmpty(uses, owner, repo, subpath, Some(ref));
    ReadsIff(uses, owner, repo, subpath, Some(ref), {});
    ClassifyRefIff(ref);
    RefState(uses);
  }

  lemma RefState(uses: string)
    ensures var u := Classify(uses);
      u.ref.Some? ==> u.ref.value != "" && u.pinState == ClassifyRef(u.ref.value)
  {
    hide SplitActionName, Cut, Strip, ClassifyRef;
  }

  /** Pinning rewrites exactly the references it is for, to exactly that text. */
  lemma PinnedIff(uses: string, shas: ShaMap, after: string)
    ensures Pinned(uses, shas) == Some(after) <==> PinsTo(uses, shas, after)
    ensures Pinned(uses, shas).Some? <==> CanPin(uses, shas)
  {
    PinnedIsPin(uses, shas);
    PinIsPinned(uses, shas, after);
    if other :| PinsTo(uses, shas, other) {
      PinIsPinned(uses, shas, other);
    }
  }

  lemma PinnedIsPin(uses: string, shas: ShaMap)
    ensures Pinned(uses, shas).Some? ==> PinsTo(uses, shas, Pinned(uses, shas).value)
  {
    hide Classify, ReadsAs, IsMovingText;
    MutableIff(uses);
    var u := Classify(uses);
    if Pinned(uses, shas).Some? {
      SubpathIsNotEmpty(uses);
      assert Spells(Pinned(uses, shas).value, u.owner.value, u.repo.value, u.subpath,
                    shas[(u.owner.value, u.repo.value, u.ref.value)]);
    }
  }

  lemma SubpathIsNotEmpty(uses: string)
    requires Truthy(Classify(uses).owner) && Truthy(Classify(uses).repo)
    ensures Classify(uses).subpath.Some? ==> Classify(uses).subpath.value != ""
  {
    ClassifiedName(uses);
  }

  lemma PinIsPinned(uses: string, shas: ShaMap, after: string)
    ensures PinsTo(uses, shas, after) ==> Pinned(uses, shas) == Some(after)
  {
    hide Classify, ReadsAs, IsMovingText;
    if owner, repo, subpath, ref :|
      && ReadsAs(uses, owner, repo, subpath, Some(ref)) && IsMovingText(ref)
      && (owner, repo, ref) in shas && shas[(owner, repo, ref)] != ""
      && Spells(after, owner, repo, subpath, shas[(owner, repo, ref)]) {
      MutableIff(uses);
      NotEmpty(uses, owner, repo, subpath, Some(ref));
      ReadsIff(uses, owner, repo, subpath, Some(ref), {});
      SubpathIsNotEmpty(uses);
    }
  }

  /** A bump rewrites exactly the references it is for, to exactly that text. */
  lemma BumpedIff(uses: string, action: string, to: string, after: string)
    ensures Bumped(uses, action, to) == Some(after) <==> BumpsTo(uses, action, to, after)
  {
    hide Classify, ReadsAs;
    var u := Classify(uses);
    if Truthy(u.owner) && Truthy(u.repo) {
      ReadsIff(uses, u.owner.value, u.repo.value, u.subpath, u.ref, {});
      SubpathIsNotEmpty(uses);
    }
    if owner, repo, subpath, ref :|
      && ReadsAs(uses, owner, repo, subpath, ref) && Lower(owner + "/" + repo) == action && ref != Some(to)
      && Spells(after, owner, repo, subpath, to) {
      NotEmpty(uses, owner, repo, subpath, ref);
      ReadsIff(uses, owner, repo, subpath, ref, {});
    }
  }

  // ---------------------------------------------------------------------------------------
  // Rewriting a workflow
  // ---------------------------------------------------------------------------------------

  /** A rewrite of references, given as the function that says what a reference becomes. */
  type Rewrite = string -> Option<string>

  function Pinner(shas: ShaMap): Rewrite {
    uses => Pinned(uses, shas)
  }

  function Bumper(action: string, to: string): Rewrite {
    uses => Bumped(uses, action, to)
  }

  function RewrittenStep(step: Step, f: Rewrite): Step {
    if step.uses.Some? && f(step.uses.value).Some? then step.(uses := f(step.uses.value)) else step
  }

  function RewrittenSteps(steps: seq<Step>, f: Rewrite): seq<Step> {
    seq(|steps|, i requires 0 <= i < |steps| => RewrittenStep(steps[i], f))
  }

  /** Only step-level references are rewritten: a job's own `uses` is left alone. */
  function RewrittenJob(job: Job, f: Rewrite): Job {
    job.(steps := RewrittenSteps(job.steps, f))
  }

  function Rewritten(wf: Workflow, f: Rewrite): Workflow {
    Workflow(seq(|wf.jobs|, i requires 0 <= i < |wf.jobs| => RewrittenJob(wf.jobs[i], f)))
  }

  function StepChanges(steps: seq<Step>, f: Rewrite): seq<Change> {
    if steps == [] then []
    else
      var last := steps[|steps| - 1];
      StepChanges(steps[..|steps| - 1], f) +
      if last.uses.Some? && f(last.uses.value).Some? then [Change(last.uses.value, f(last.uses.value).value)] else []
  }

  function Changes(jobs: seq<Job>, f: Rewrite): seq<Change> {
    if jobs == [] then [] else Changes(jobs[..|jobs| - 1], f) + StepChanges(jobs[|jobs| - 1].steps, f)
  }

  // ---------------------------------------------------------------------------------------
  // What an edit is, without saying how it is computed
  // ---------------------------------------------------------------------------------------

  /** The relation between a reference and the text that is to replace it, for each operation. */
  ghost function PinsOf(shas: ShaMap): (string, string) -> bool {
    (uses, after) => PinsTo(uses, shas, after)
  }

  ghost function BumpsOf(action: string, to: string): (string, string) -> bool {
    (uses, after) => BumpsTo(uses, action, to, after)
  }

  ghost predicate IsPicked(step: Step, r: (string, string) -> bool) {
    step.uses.Some? && exists after :: r(step.uses.value, after)
  }

  /** The reference is replaced if it is picked; nothing else of the step changes. */
  ghost predicate IsStepEdit(step: Step, step': Step, r: (string, string) -> bool) {
    && step'.run == step.run && step'.id == step.id && step'.name == step.name
    && if IsPicked(step, r) then step'.uses.Some? && r(step.uses.value, step'.uses.value) else step'.uses == step.uses
  }

  ghost predicate IsJobEdit(job: Job, job': Job, r: (string, string) -> bool) {
    && job'.id == job.id && job'.uses == job.uses && job'.permissions == job.permissions
    && |job'.steps| == |job.steps|
    && forall k :: 0 <= k < |job.steps| ==> IsStepEdit(job.steps[k], job'.steps[k], r)
  }

  ghost predicate IsEdit(wf: Workflow, wf': Workflow, r: (string, string) -> bool) {
    |wf'.jobs| == |wf.jobs| && forall k :: 0 <= k < |wf.jobs| ==> IsJobEdit(wf.jobs[k], wf'.jobs[k], r)
  }

  /** The steps of all jobs, in order. */
  function AllSteps(jobs: seq<Job>): seq<Step> {
    if jobs == [] then [] else AllSteps(jobs[..|jobs| - 1]) + jobs[|jobs| - 1].steps
  }

  ghost predicate IsIncreasing(at: seq<nat>) {
    forall m, n :: 0 <= m < n < |at| ==> at[m] < at[n]
  }

  /** The changes are the references of the picked steps, before and after, in order; `at` is where they stand. */
  ghost predicate IsListing(changes: seq<Change>, before: seq<Step>, after: seq<Step>, r: (string, string) -> bool,
                            at: seq<nat>)
  {
    && |after| == |before| && |at| == |changes| && IsIncreasing(at)
    && (forall p :: p in at <==> 0 <= p < |before| && IsPicked(before[p], r))
    && forall n :: 0 <= n < |at| ==>
         && at[n] < |before|
         && before[at[n]].uses == Some(changes[n].before) && after[at[n]].uses == Some(changes[n].after)
  }

  ghost predicate Lists(changes: seq<Change>, wf: Workflow, wf': Workflow, r: (string, string) -> bool) {
    exists at :: IsListing(changes, AllSteps(wf.jobs), AllSteps(wf'.jobs), r, at)
  }

  /** A rewrite computes a relation. */
  ghost predicate Computes(f: Rewrite, r: (string, string) -> bool) {
    forall uses, after :: f(uses) == Some(after) <==> r(uses, after)
  }

  lemma PinnerComputes(shas: ShaMap)
    ensures Computes(Pinner(shas), PinsOf(shas))
  {
    hide Pinned, PinsTo;
    forall uses, after
      ensures Pinner(shas)(uses) == Some(after) <==> PinsOf(shas)(uses, after)
    {
      PinnedIff(uses, shas, after);
    }
  }

  lemma BumperComputes(action: string, to: string)
    ensures Computes(Bumper(action, to), BumpsOf(action, to))
  {
    hide Bumped, BumpsTo;
    forall uses, after
      ensures Bumper(action, to)(uses) == Some(after) <==> BumpsOf(action, to)(uses, after)
    {
      BumpedIff(uses, action, to, after);
    }
  }

  lemma StepIsEdited(step: Step, f: Rewrite, r: (string, string) -> bool)
    requires Computes(f, r)
    ensures IsStepEdit(step, RewrittenStep(step, f), r)
    ensures IsPicked(step, r) <==> step.uses.Some? && f(step.uses.value).Some?
  {
    if step.uses.Some? && f(step.uses.value).Some? {
      assert r(step.uses.value, f(step.uses.value).value);
    }
    if IsPicked(step, r) {
      var after :| r(step.uses.value, after);
      assert f(step.uses.value) == Some(after);
    }
  }

  lemma RewrittenIsEdit(wf: Workflow, f: Rewrite, r: (string, string) -> bool)
    requires Computes(f, r)
    ensures IsEdit(wf, Rewritten(wf, f), r)
  {
    hide IsStepEdit, RewrittenStep, Computes;
    forall k, i | 0 <= k < |wf.jobs| && 0 <= i < |wf.jobs[k].steps|
      ensures IsStepEdit(wf.jobs[k].steps[i], Rewritten(wf, f).jobs[k].steps[i], r)
    {
      StepIsEdited(wf.jobs[k].steps[i], f, r);
    }
  }

  function Shifted(at: seq<nat>, offset: nat): seq<nat> {
    seq(|at|, i requires 0 <= i < |at| => at[i] + offset)
  }

  lemma ListingsJoin(c: seq<Change>, b: seq<Step>, a: seq<Step>, at: seq<nat>,
                     c': seq<Change>, b': seq<Step>, a': seq<Step>, at': seq<nat>, r: (string, string) -> bool)
    requires IsListing(c, b, a, r, at) && IsListing(c', b', a', r, at')
    ensures IsListing(c + c', b + b', a + a', r, at + Shifted(at', |b|))
  {
    hide IsPicked;
    var all := at + Shifted(at', |b|);
    forall p
      ensures p in all <==> 0 <= p < |b + b'| && IsPicked((b + b')[p], r)
    {
      if |b| <= p < |b| + |b'| && IsPicked(b'[p - |b|], r) {
        var n :| 0 <= n < |at'| && at'[n] == p - |b|;
        assert all[|at| + n] == p;
      }
    }
  }

  lemma {:induction false} StepsAreListed(steps: seq<Step>, f: Rewrite, r: (string, string) -> bool)
      returns (at: seq<nat>)
    requires Computes(f, r)
    ensures IsListing(StepChanges(steps, f), steps, RewrittenSteps(steps, f), r, at)
  {
    hide Computes, IsListing, RewrittenStep;
    if steps == [] {
      at := [];
      NothingIsListed(r);
      assert RewrittenSteps(steps, f) == [] && StepChanges(steps, f) == [];
    } else {
      var before, last := steps[..|steps| - 1], steps[|steps| - 1];
      var at0 := StepsAreListed(before, f, r);
      var one, change := StepIsListed(last, f, r);
      ListingsJoin(StepChanges(before, f), before, RewrittenSteps(before, f), at0,
                   change, [last], [RewrittenStep(last, f)], one, r);
      assert before + [last] == steps;
      assert RewrittenSteps(before, f) + [RewrittenStep(last, f)] == RewrittenSteps(steps, f);
      assert StepChanges(steps, f) == StepChanges(before, f) + change;
      at := at0 + Shifted(one, |before|);
    }
  }

  lemma StepIsListed(step: Step, f: Rewrite, r: (string, string) -> bool) returns (one: seq<nat>, change: seq<Change>)
    requires Computes(f, r)
    ensures IsListing(change, [step], [RewrittenStep(step, f)], r, one)
    ensures change ==
      if step.uses.Some? && f(step.uses.value).Some? then [Change(step.uses.value, f(step.uses.value).value)] else []
  {
    hide Computes, IsPicked;
    StepIsEdited(step, f, r);
    if step.uses.Some? && f(step.uses.value).Some? {
      one, change := [0], [Change(step.uses.value, f(step.uses.value).value)];
    } else {
      one, change := [], [];
    }
  }

  lemma {:induction false} JobsAreListed(jobs: seq<Job>, f: Rewrite, r: (string, string) -> bool)
      returns (at: seq<nat>)
    requires Computes(f, r)
    ensures IsListing(Changes(jobs, f), AllSteps(jobs), AllSteps(Rewritten(Workflow(jobs), f).jobs), r, at)
  {
    hide Computes, IsListing;
    if jobs == [] {
      at := [];
      NothingIsListed(r);
      assert Rewritten(Workflow(jobs), f).jobs == [] && Changes(jobs, f) == [];
    } else {
      var before, last := jobs[..|jobs| - 1], jobs[|jobs| - 1];
      var at0 := JobsAreListed(before, f, r);
      var at1 := StepsAreListed(last.steps, f, r);
      var after := Rewritten(Workflow(jobs), f).jobs;
      assert after[..|jobs| - 1] == Rewritten(Workflow(before), f).jobs;
      ListingsJoin(Changes(before, f), AllSteps(before), AllSteps(Rewritten(Workflow(before), f).jobs), at0,
                   StepChanges(last.steps, f), last.steps, RewrittenSteps(last.steps, f), at1, r);
      at := at0 + Shifted(at1, |AllSteps(before)|);
    }
  }

  lemma NothingIsListed(r: (string, string) -> bool)
    ensures IsListing([], [], [], r, [])
  {
  }

  /** A rewritten workflow is an edit, and the recorded changes list what was replaced. */
  lemma RewriteIsEdit(wf: Workflow, f: Rewrite, r: (string, string) -> bool)
    requires Computes(f, r)
    ensures IsEdit(wf, Rewritten(wf, f), r) && Lists(Changes(wf.jobs, f), wf, Rewritten(wf, f), r)
  {
    hide IsEdit, IsListing, Computes;
    RewrittenIsEdit(wf, f, r);
    var at := JobsAreListed(wf.jobs, f, r);
    assert Workflow(wf.jobs) == wf;
  }

  /** With commit SHAs in the map, the picked steps are those that read differently afterwards. */
  lemma PickedDiffer(step: Step, step': Step, shas: ShaMap)
    requires ResolvesToShas(shas) && IsStepEdit(step, step', PinsOf(shas))
    ensures IsPicked(step, PinsOf(shas)) <==> step' != step
    ensures IsPicked(step, PinsOf(shas)) ==>
      var u, u' := Classify(step.uses.value), Classify(step'.uses.value);
      && u.owner.Some? && u.repo.Some? && u.ref.Some? && KeyOf(u) in shas
      && u'.pinState == ShaPinned && u'.ref == Some(shas[KeyOf(u)])
      && u'.owner == u.owner && u'.repo == u.repo && u'.subpath == u.subpath
  {
    hide Classify, Pinned, PinsTo;
    if IsPicked(step, PinsOf(shas)) {
      PinnedIff(step.uses.value, shas, step'.uses.value);
      PinnedIsSafe(step.uses.value, shas, {});
      PinnedHasKey(step.uses.value, shas);
    }
  }

  lemma PinnedHasKey(uses: string, shas: ShaMap)
    requires Pinned(uses, shas).Some?
    ensures var u := Classify(uses); u.owner.Some? && u.repo.Some? && u.ref.Some? && KeyOf(u) in shas
  {
    hide Classify;
  }

  /** Rewrites the steps of one job in place. */
  method RewriteSteps(steps: array<Step>, f: Rewrite, changes: seq<Change>) returns (changes': seq<Change>)
    modifies steps
    ensures steps[..] == RewrittenSteps(old(steps[..]), f)
    ensures changes' == changes + StepChanges(old(steps[..]), f)
  {
    changes' := changes;
    ghost var was := steps[..];
    for k := 0 to steps.Length
      invariant forall i :: 0 <= i < steps.Length ==> steps[i] == if i < k then RewrittenStep(was[i], f) else was[i]
      invariant changes' == changes + StepChanges(was[..k], f)
    {
      assert was[..k + 1][..k] == was[..k];
      var step := steps[k];
      if step.uses.Some? {
        var after := f(step.uses.value);
        if after.Some? {
          steps[k] := step.(uses := after);
          changes' := changes' + [Change(step.uses.value, after.value)];
        }
      }
    }
    assert was[..steps.Length] == was;
  }

  /** Rewrites every job of a workflow. The edit is empty exactly when no reference changed. */
  method RewriteWorkflow(wf: Workflow, f: Rewrite) returns (edited: Workflow, changes: seq<Change>)
    ensures edited == Rewritten(wf, f)
    ensures changes == Changes(wf.jobs, f)
  {
    hide RewrittenSteps, StepChanges, RewrittenStep;
    changes := [];
    var jobs: seq<Job> := [];
    for k := 0 to |wf.jobs|
      invariant |jobs| == k && forall i :: 0 <= i < k ==> jobs[i] == RewrittenJob(wf.jobs[i], f)
      invariant changes == Changes(wf.jobs[..k], f)
    {
      var job := wf.jobs[k];
      assert wf.jobs[..k + 1][..k] == wf.jobs[..k];
      var steps := new Step[|job.steps|](i requires 0 <= i < |job.steps| => job.steps[i]);
      assert steps[..] == job.steps;
      changes := RewriteSteps(steps, f, changes);
      jobs := jobs + [job.(steps := steps[..])];
    }
    assert wf.jobs[..|wf.jobs|] == wf.jobs;
    edited := Workflow(jobs);
  }

  /**
   Pins every mutable step-level reference the map resolves: the edit replaces exactly those, by
   exactly the text that names the same action by its SHA, and the changes list them in order.
   */
  method PinWorkflowToSha(wf: Workflow, shas: ShaMap) returns (edited: Workflow, changes: seq<Change>)
    ensures edited == Rewritten(wf, Pinner(shas))
    ensures changes == Changes(wf.jobs, Pinner(shas))
    ensures IsEdit(wf, edited, PinsOf(shas)) && Lists(changes, wf, edited, PinsOf(shas))
  {
    hide Rewritten, Changes, IsEdit, Lists, Computes;
    PinnerComputes(shas);
    RewriteIsEdit(wf, Pinner(shas), PinsOf(shas));
    edited, changes := RewriteWorkflow(wf, Pinner(shas));
  }

  /** `action` and `to` as the campaign's parameters give them; either missing makes it a no-op. */
  method BumpActionVersion(wf: Workflow, action: Option<string>, to: Option<string>)
      returns (edited: Workflow, changes: seq<Change>)
    ensures var a := Lower(Strip(if action.Some? then action.value else ""));
      if a == "" || !Truthy(to) then edited == wf && changes == []
      else
        && edited == Rewritten(wf, Bumper(a, to.value)) && changes == Changes(wf.jobs, Bumper(a, to.value))
        && IsEdit(wf, edited, BumpsOf(a, to.value)) && Lists(changes, wf, edited, BumpsOf(a, to.value))
  {
    hide Rewritten, Changes, IsEdit, Lists, Computes;
    var a := Lower(Strip(if action.Some? then action.value else ""));
    if a == "" || !Truthy(to) {
      return wf, [];
    }
    BumperComputes(a, to.value);
    RewriteIsEdit(wf, Bumper(a, to.value), BumpsOf(a, to.value));
    edited, changes := RewriteWorkflow(wf, Bumper(a, to.value));
  }

  // ---------------------------------------------------------------------------------------
  // What a rewrite leaves
  // ---------------------------------------------------------------------------------------

  /** A rewrite that does not touch what it has produced. */
  ghost predicate Settles(f: Rewrite) {
    forall uses :: f(uses).Some? ==> f(f(uses).value).None?
  }

  lemma {:induction false} SettledSteps(steps: seq<Step>, f: Rewrite)
    requires Settles(f)
    ensures StepChanges(RewrittenSteps(steps, f), f) == []
  {
    if steps != [] {
      SettledSteps(steps[..|steps| - 1], f);
      assert RewrittenSteps(steps, f)[..|steps| - 1] == RewrittenSteps(steps[..|steps| - 1], f);
    }
  }

  lemma {:induction false} SettledJobs(jobs: seq<Job>, f: Rewrite)
    requires Settles(f)
    ensures Changes(Rewritten(Workflow(jobs), f).jobs, f) == []
  {
    if jobs != [] {
      SettledJobs(jobs[..|jobs| - 1], f);
      SettledSteps(jobs[|jobs| - 1].steps, f);
      var after := Rewritten(Workflow(jobs), f).jobs;
      assert after[..|jobs| - 1] == Rewritten(Workflow(jobs[..|jobs| - 1]), f).jobs;
    }
  }

  /** No recorded change means nothing was rewritten. */
  lemma {:induction false} NoStepChanges(steps: seq<Step>, f: Rewrite)
    requires StepChanges(steps, f) == []
    ensures RewrittenSteps(steps, f) == steps
  {
    if steps != [] {
      NoStepChanges(steps[..|steps| - 1], f);
      assert RewrittenSteps(steps, f)[..|steps| - 1] == RewrittenSteps(steps[..|steps| - 1], f);
      assert steps == steps[..|steps| - 1] + [steps[|steps| - 1]];
    }
  }

  lemma {:induction false} NoChanges(jobs: seq<Job>, f: Rewrite)
    requires Changes(jobs, f) == []
    ensures Rewritten(Workflow(jobs), f) == Workflow(jobs)
  {
    if jobs != [] {
      NoChanges(jobs[..|jobs| - 1], f);
      NoStepChanges(jobs[|jobs| - 1].steps, f);
      var after := Rewritten(Workflow(jobs), f).jobs;
      assert after[..|jobs| - 1] == Rewritten(Workflow(jobs[..|jobs| - 1]), f).jobs;
      assert jobs == jobs[..|jobs| - 1] + [jobs[|jobs| - 1]];
    }
  }

  /** Pinning a pinned workflow is a no-op. */
  lemma PinTwiceIsOnce(wf: Workflow, shas: ShaMap)
    requires ResolvesToShas(shas)
    ensures Changes(Rewritten(wf, Pinner(shas)).jobs, Pinner(shas)) == []
    ensures Rewritten(Rewritten(wf, Pinner(shas)), Pinner(shas)) == Rewritten(wf, Pinner(shas))
  {
    forall uses | Pinned(uses, shas).Some?
      ensures Pinned(Pinned(uses, shas).value, shas).None?
    {
      hide Pinned;
      PinnedIsSafe(uses, shas, {});
    }
    assert Settles(Pinner(shas));
    SettledJobs(wf.jobs, Pinner(shas));
    NoChanges(Rewritten(wf, Pinner(shas)).jobs, Pinner(shas));
  }

  /** A rewrite that keeps touching what it has produced. */
  ghost predicate Restless(f: Rewrite) {
    forall uses :: f(uses).Some? ==> f(f(uses).value).Some?
  }

  lemma {:induction false} RestlessSteps(steps: seq<Step>, f: Rewrite)
    requires Restless(f)
    ensures |StepChanges(RewrittenSteps(steps, f), f)| == |StepChanges(steps, f)|
  {
    if steps != [] {
      RestlessSteps(steps[..|steps| - 1], f);
      assert RewrittenSteps(steps, f)[..|steps| - 1] == RewrittenSteps(steps[..|steps| - 1], f);
    }
  }

  lemma {:induction false} RestlessJobs(jobs: seq<Job>, f: Rewrite)
    requires Restless(f)
    ensures |Changes(Rewritten(Workflow(jobs), f).jobs, f)| == |Changes(jobs, f)|
  {
    if jobs != [] {
      RestlessJobs(jobs[..|jobs| - 1], f);
      RestlessSteps(jobs[|jobs| - 1].steps, f);
      var after := Rewritten(Workflow(jobs), f).jobs;
      assert after[..|jobs| - 1] == Rewritten(Workflow(jobs[..|jobs| - 1]), f).jobs;
    }
  }

  /** A rewrite that writes again what it has produced, if it touches it at all. */
  ghost predicate Repeats(f: Rewrite) {
    forall uses :: f(uses).Some? && f(f(uses).value).Some? ==> f(f(uses).value) == f(uses)
  }

  lemma RepeatedJob(job: Job, f: Rewrite)
    requires Repeats(f)
    ensures RewrittenJob(RewrittenJob(job, f), f) == RewrittenJob(job, f)
  {
    var once := RewrittenJob(job, f);
    forall i | 0 <= i < |job.steps|
      ensures RewrittenStep(once.steps[i], f) == once.steps[i]
    {
      var uses := job.steps[i].uses;
      if uses.Some? && f(uses.value).Some? && f(f(uses.value).value).Some? {
        assert f(f(uses.value).value) == f(uses.value);
      }
    }
  }

  lemma RepeatedWorkflow(wf: Workflow, f: Rewrite)
    requires Repeats(f)
    ensures Rewritten(Rewritten(wf, f), f) == Rewritten(wf, f)
  {
    hide RewrittenJob;
    forall i | 0 <= i < |wf.jobs|
      ensures RewrittenJob(RewrittenJob(wf.jobs[i], f), f) == RewrittenJob(wf.jobs[i], f)
    {
      RepeatedJob(wf.jobs[i], f);
    }
  }

  /** Some step of the jobs has a reference the rewrite picks. */
  ghost predicate Picks(jobs: seq<Job>, f: Rewrite) {
    exists job, step :: job in jobs && step in job.steps && step.uses.Some? && f(step.uses.value).Some?
  }

  lemma {:induction false} StepChangesIff(steps: seq<Step>, f: Rewrite)
    ensures StepChanges(steps, f) != [] <==> exists step :: step in steps && step.uses.Some? && f(step.uses.value).Some?
  {
    if steps != [] {
      StepChangesIff(steps[..|steps| - 1], f);
      assert steps == steps[..|steps| - 1] + [steps[|steps| - 1]];
    }
  }

  lemma {:induction false} ChangesIff(jobs: seq<Job>, f: Rewrite)
    ensures Changes(jobs, f) != [] <==> Picks(jobs, f)
  {
    if jobs != [] {
      var before, last := jobs[..|jobs| - 1], jobs[|jobs| - 1];
      ChangesIff(before, f);
      StepChangesIff(last.steps, f);
      assert jobs == before + [last];
      if Picks(before, f) {
        var job, step :| job in before && step in job.steps && step.uses.Some? && f(step.uses.value).Some?;
        assert job in jobs;
      }
    }
  }

  /** A reference to this action, by whatever ref. */
  predicate NamesAction(uses: string, action: string) {
    var u := Classify(uses);
    Truthy(u.owner) && Truthy(u.repo) && Lower(u.owner.value + "/" + u.repo.value) == action
  }

  /** A ref as read never ends in a blank. */
  lemma RefEndsInNoBlank(uses: string)
    requires Truthy(Classify(uses).ref)
    ensures var ref := Classify(uses).ref.value; !IsSpace(ref[|ref| - 1])
  {
    hide Cut, Strip, SplitActionName, ClassifyRef, IsSpace;
    var raw := Strip(uses);
    var ref := Classify(uses).ref.value;
    StripStrips(uses);
    CutIsPartition(raw, '@');
    assert raw[|raw| - 1] == ref[|ref| - 1];
  }

  /** A target ref that ends in a blank is never the ref of a reference, so every one of the action is picked. */
  lemma BlankIsAlwaysPicked(uses: string, action: string, to: string)
    requires to != "" && IsSpace(to[|to| - 1])
    ensures Bumped(uses, action, to).Some? <==> NamesAction(uses, action)
  {
    hide Classify, IsSpace;
    if Classify(uses).ref == Some(to) {
      RefEndsInNoBlank(uses);
    }
  }

  /** A second bump writes what the first one wrote. */
  lemma BumpedRepeats(uses: string, action: string, to: string)
    requires to != "" && Bumped(uses, action, to).Some? && Bumped(Bumped(uses, action, to).value, action, to).Some?
    ensures Bumped(Bumped(uses, action, to).value, action, to) == Bumped(uses, action, to)
  {
    hide Classify;
    BumpedIsStableIff(uses, action, to);
  }

  /**
   A second bump never changes the workflow. It still lists changes, and so still counts as an
   edit, exactly when the target ref ends in a blank and some step uses the action.
   */
  lemma BumpTwiceIsOnce(wf: Workflow, action: string, to: string)
    requires to != ""
    ensures var f := Bumper(action, to); Rewritten(Rewritten(wf, f), f) == Rewritten(wf, f)
    ensures Changes(Rewritten(wf, Bumper(action, to)).jobs, Bumper(action, to)) != [] <==>
      && IsSpace(to[|to| - 1])
      && exists job, step :: job in wf.jobs && step in job.steps && step.uses.Some?
           && NamesAction(step.uses.value, action)
  {
    hide Bumped, NamesAction;
    var f := Bumper(action, to);
    forall uses | f(uses).Some?
      ensures f(f(uses).value).None? <==> !IsSpace(to[|to| - 1])
      ensures f(f(uses).value).Some? ==> f(f(uses).value) == f(uses)
    {
      BumpedIsStableIff(uses, action, to);
      if f(f(uses).value).Some? {
        BumpedRepeats(uses, action, to);
      }
    }
    RepeatedWorkflow(wf, f);
    if !IsSpace(to[|to| - 1]) {
      assert Settles(f);
      SettledJobs(wf.jobs, f);
    } else {
      assert Restless(f);
      RestlessJobs(wf.jobs, f);
      ChangesIff(wf.jobs, f);
      forall uses
        ensures f(uses).Some? <==> NamesAction(uses, action)
      {
        BlankIsAlwaysPicked(uses, action, to);
      }
    }
  }

  /** For one: bumping a/b from v3 to "v4 " lists a second time a change from "a/b@v4 " to itself. */
  lemma BumpListsNothingNew()
    ensures var f := Bumper("a/b", "v4 ");
      var wf := Workflow([Job("j", None, [Step(Some("a/b@v3"), None)])]);
      && Rewritten(wf, f).jobs == [Job("j", None, [Step(Some("a/b@v4 "), None)])]
      && Changes(Rewritten(wf, f).jobs, f) == [Change("a/b@v4 ", "a/b@v4 ")]
  {
    hide Bumped;
    SampleBump("a/b@v3");
    SampleBump("a/b@v4 ");
    var f := Bumper("a/b", "v4 ");
    var before, after := [Step(Some("a/b@v3"), None)], [Step(Some("a/b@v4 "), None)];
    assert RewrittenSteps(before, f) == after;
    assert after[..0] == [] && StepChanges(after, f) == [Change("a/b@v4 ", "a/b@v4 ")];
    var jobs := [Job("j", None, after)];
    assert Rewritten(Workflow([Job("j", None, before)]), f).jobs == jobs;
    assert jobs[..0] == [] && Changes(jobs, f) == StepChanges(after, f);
  }

  lemma SampleBump(uses: string)
    requires uses == "a/b@v3" || uses == "a/b@v4 "
    ensures Bumped(uses, "a/b", "v4 ") == Some("a/b@v4 ")
  {
    SampleReads(uses);
    assert Lower("a" + "/" + "b") == "a/b";
    hide Classify;
    assert Print("a", "b", None, "v4 ") == "a/b@v4 ";
  }

  lemma SampleReads(uses: string)
    requires uses == "a/b@v3" || uses == "a/b@v4 "
    ensures var u := Classify(uses); u.owner == Some("a") && u.repo == Some("b") && u.subpath == None
    ensures Classify(uses).ref != Some("v4 ")
  {
    hide Cut, SplitActionName, ClassifyRef, Print;
    var raw := Print("a", "b", None, if uses == "a/b@v3" then "v3" else "v4");
    StripsTo(uses, raw);
    PrintedName("a", "b", None, if uses == "a/b@v3" then "v3" else "v4");
  }

  lemma StripsTo(uses: string, raw: string)
    requires (uses == "a/b@v3" && raw == Print("a", "b", None, "v3"))
      || (uses == "a/b@v4 " && raw == Print("a", "b", None, "v4"))
    ensures Strip(uses) == raw
  {
    assert uses[0] == 'a';
    StripLeftStops(uses);
    if uses == "a/b@v4 " {
      assert uses[..|uses| - 1] == "a/b@v4" == raw;
      StripRightStops(raw);
    } else {
      assert raw == "a/b@v3";
      StripRightStops(uses);
    }
  }

  // ---------------------------------------------------------------------------------------
  // The pin audit
  // ---------------------------------------------------------------------------------------

  datatype PinFinding = PinFinding(severity: Severity, ref: string)

  function UsesOf(x: Option<string>): seq<string> {
    if Truthy(x) then [x.value] else []
  }

  function StepUses(steps: seq<Step>): seq<string> {
    if steps == [] then [] else StepUses(steps[..|steps| - 1]) + UsesOf(steps[|steps| - 1].uses)
  }

  /** Every non-empty reference of a workflow: each job's own, then its steps'. */
  function AllUses(jobs: seq<Job>): seq<string> {
    if jobs == [] then []
    else
      var last := jobs[|jobs| - 1];
      AllUses(jobs[..|jobs| - 1]) + (UsesOf(last.uses) + StepUses(last.steps))
  }

  /** How bad a reference is: unpinned, branch and unknown refs are high, tags medium, the rest fine. */
  function Flag(uses: string, immutable: set<string>): Option<Severity> {
    match Classify(uses, immutable).pinState
    case Unpinned => Some(High)
    case BranchPinned => Some(High)
    case UnknownRef => Some(High)
    case TagPinned => Some(Medium)
    case _ => None
  }

  function FindingFor(uses: string, immutable: set<string>): seq<PinFinding> {
    match Flag(uses, immutable)
    case None => []
    case Some(severity) => [PinFinding(severity, uses)]
  }

  function PinFindings(refs: seq<string>, immutable: set<string>): seq<PinFinding> {
    if refs == [] then []
    else PinFindings(refs[..|refs| - 1], immutable) + FindingFor(refs[|refs| - 1], immutable)
  }

  /**
   What is wrong with a reference, on its text: a version tag that is not proven immutable is
   medium; no ref at all, or one that is neither a version tag nor a commit SHA, is high.
   */
  ghost predicate IsFlagged(uses: string, immutable: set<string>, severity: Severity) {
    !IsElsewhere(Strip(uses)) &&
    match severity
    case Medium => exists ref :: HasRef(Strip(uses), ref) && IsVersionText(ref) && !IsShaText(ref)
                                 && !IsProven(uses, ref, immutable)
    case High => (forall ref :: !HasRef(Strip(uses), ref))
                 || exists ref :: HasRef(Strip(uses), ref) && !IsVersionText(ref) && !IsShaText(ref)
    case _ => false
  }

  lemma FlagIff(uses: string, immutable: set<string>, severity: Severity)
    ensures Flag(uses, immutable) == Some(severity) <==> IsFlagged(uses, immutable, severity)
  {
    hide Classify, HasRef, IsVersionText, IsShaText, IsProven, Strip;
    StateIff(uses, immutable);
    forall ref
      ensures ref in BRANCHES ==> !IsShaText(ref) && !IsVersionText(ref)
    {
      if ref in BRANCHES {
        BranchIsNoVersion(ref);
      }
    }
    OneRefOnly(Strip(uses));
  }

  lemma OneRefOnly(raw: string)
    ensures forall x, y :: HasRef(raw, x) && HasRef(raw, y) ==> x == y
  {
    forall x, y | HasRef(raw, x) && HasRef(raw, y)
      ensures x == y
    {
      HasRefIff(raw, x);
      HasRefIff(raw, y);
    }
  }

  /** The references of a workflow: those of its jobs and of their steps that are not empty. */
  ghost predicate Uses(jobs: seq<Job>, uses: string) {
    uses != ""
    && exists job ::
         job in jobs && (job.uses == Some(uses) || exists step :: step in job.steps && step.uses == Some(uses))
  }

  lemma {:induction false} StepUsesIff(steps: seq<Step>, uses: string)
    ensures uses in StepUses(steps) <==> uses != "" && exists step :: step in steps && step.uses == Some(uses)
  {
    if steps != [] {
      StepUsesIff(steps[..|steps| - 1], uses);
      assert steps == steps[..|steps| - 1] + [steps[|steps| - 1]];
    }
  }

  lemma {:induction false} AllUsesIff(jobs: seq<Job>, uses: string)
    ensures uses in AllUses(jobs) <==> Uses(jobs, uses)
  {
    if jobs != [] {
      AllUsesIff(jobs[..|jobs| - 1], uses);
      StepUsesIff(jobs[|jobs| - 1].steps, uses);
      assert jobs == jobs[..|jobs| - 1] + [jobs[|jobs| - 1]];
    }
  }

  lemma {:induction false} PinFindingsIff(refs: seq<string>, immutable: set<string>, f: PinFinding)
    ensures f in PinFindings(refs, immutable) <==> f.ref in refs && IsFlagged(f.ref, immutable, f.severity)
  {
    hide Flag, IsFlagged;
    FlagIff(f.ref, immutable, f.severity);
    if refs != [] {
      PinFindingsIff(refs[..|refs| - 1], immutable, f);
      assert refs == refs[..|refs| - 1] + [refs[|refs| - 1]];
    }
  }

  /** One finding per reference that is neither pinned to a commit nor proven immutable. */
  method AuditPins(wf: Workflow, immutable: set<string>) returns (findings: seq<PinFinding>)
    ensures findings == PinFindings(AllUses(wf.jobs), immutable)
    ensures forall f :: f in findings <==> Uses(wf.jobs, f.ref) && IsFlagged(f.ref, immutable, f.severity)
  {
    hide Classify, AllUses, Uses, IsFlagged;
    forall f
      ensures f in PinFindings(AllUses(wf.jobs), immutable) <==>
        Uses(wf.jobs, f.ref) && IsFlagged(f.ref, immutable, f.severity)
    {
      PinFindingsIff(AllUses(wf.jobs), immutable, f);
      AllUsesIff(wf.jobs, f.ref);
    }
    findings := [];
    var refs := AllUses(wf.jobs);
    assert refs[..|refs|] == refs;
    for k := 0 to |refs|
      invariant findings == PinFindings(refs[..k], immutable)
    {
      assert refs[..k + 1][..k] == refs[..k];
      var u := Classify(refs[k], immutable);
      if u.pinState == Unpinned || u.pinState == BranchPinned || u.pinState == UnknownRef {
        findings := findings + [PinFinding(High, refs[k])];
      } else if u.pinState == TagPinned {
        findings := findings + [PinFinding(Medium, refs[k])];
      }
    }
  }

  /** The references a rewrite leaves as they are. */
  function KeptStepUses(steps: seq<Step>, f: Rewrite): seq<string> {
    if steps == [] then []
    else
      var last := steps[|steps| - 1];
      KeptStepUses(steps[..|steps| - 1], f) +
      if last.uses.Some? && f(last.uses.value).Some? then [] else UsesOf(last.uses)
  }

  function KeptUses(jobs: seq<Job>, f: Rewrite): seq<string> {
    if jobs == [] then []
    else
      var last := jobs[|jobs| - 1];
      KeptUses(jobs[..|jobs| - 1], f) + (UsesOf(last.uses) + KeptStepUses(last.steps, f))
  }

  lemma {:induction false} PinFindingsAppend(a: seq<string>, b: seq<string>, immutable: set<string>)
    ensures PinFindings(a + b, immutable) == PinFindings(a, immutable) + PinFindings(b, immutable)
  {
    hide FindingFor;
    if b == [] {
      assert a + b == a;
    } else {
      var n := |b| - 1;
      PinFindingsAppend(a, b[..n], immutable);
      assert (a + b)[..|a + b| - 1] == a + b[..n] && (a + b)[|a + b| - 1] == b[n];
      assert PinFindings(a, immutable) + (PinFindings(b[..n], immutable) + FindingFor(b[n], immutable)) ==
        (PinFindings(a, immutable) + PinFindings(b[..n], immutable)) + FindingFor(b[n], immutable);
    }
  }

  lemma PinFindingsAppend3(a: seq<string>, b: seq<string>, c: seq<string>, immutable: set<string>)
    ensures PinFindings(a + (b + c), immutable) ==
      PinFindings(a, immutable) + (PinFindings(b, immutable) + PinFindings(c, immutable))
  {
    hide PinFindings;
    PinFindingsAppend(a, b + c, immutable);
    PinFindingsAppend(b, c, immutable);
  }

  lemma OneRef(uses: string, immutable: set<string>)
    ensures PinFindings([uses], immutable) == FindingFor(uses, immutable)
  {
  }

  lemma StepCloses(step: Step, shas: ShaMap, immutable: set<string>)
    requires ResolvesToShas(shas)
    ensures PinFindings(UsesOf(RewrittenStep(step, Pinner(shas)).uses), immutable) ==
      if step.uses.Some? && Pinner(shas)(step.uses.value).Some? then [] else PinFindings(UsesOf(step.uses), immutable)
  {
    hide Pinned, Classify;
    if step.uses.Some? && Pinned(step.uses.value, shas).Some? {
      PinnedIsSafe(step.uses.value, shas, immutable);
      OneRef(Pinned(step.uses.value, shas).value, immutable);
    }
  }

  lemma {:induction false} StepsClose(steps: seq<Step>, shas: ShaMap, immutable: set<string>)
    requires ResolvesToShas(shas)
    ensures PinFindings(StepUses(RewrittenSteps(steps, Pinner(shas))), immutable) ==
      PinFindings(KeptStepUses(steps, Pinner(shas)), immutable)
  {
    hide Pinner, UsesOf, PinFindings, RewrittenStep, ResolvesToShas;
    var f := Pinner(shas);
    if steps != [] {
      var before, last := steps[..|steps| - 1], steps[|steps| - 1];
      StepsClose(before, shas, immutable);
      var after := RewrittenSteps(steps, f);
      assert after[..|steps| - 1] == RewrittenSteps(before, f) && after[|steps| - 1] == RewrittenStep(last, f);
      StepCloses(last, shas, immutable);
      PinFindingsAppend(StepUses(RewrittenSteps(before, f)), UsesOf(RewrittenStep(last, f).uses), immutable);
      PinFindingsAppend(KeptStepUses(before, f), UsesOf(last.uses), immutable);
      if last.uses.Some? && f(last.uses.value).Some? {
        assert PinFindings(UsesOf(RewrittenStep(last, f).uses), immutable) == [];
        assert KeptStepUses(steps, f) == KeptStepUses(before, f);
        assert PinFindings(StepUses(after), immutable) == PinFindings(StepUses(RewrittenSteps(before, f)), immutable);
      }
    }
  }

  /** After pinning, the audit reports exactly what it reports of the references pinning did not rewrite. */
  lemma {:induction false} PinningClosesExactly(jobs: seq<Job>, shas: ShaMap, immutable: set<string>)
    requires ResolvesToShas(shas)
    ensures PinFindings(AllUses(Rewritten(Workflow(jobs), Pinner(shas)).jobs), immutable) ==
      PinFindings(KeptUses(jobs, Pinner(shas)), immutable)
  {
    hide PinFindings, StepUses, KeptStepUses, RewrittenSteps, Pinner, UsesOf;
    var f := Pinner(shas);
    if jobs != [] {
      var before, last := jobs[..|jobs| - 1], jobs[|jobs| - 1];
      PinningClosesExactly(before, shas, immutable);
      StepsClose(last.steps, shas, immutable);
      var after := Rewritten(Workflow(jobs), f).jobs;
      assert after[..|jobs| - 1] == Rewritten(Workflow(before), f).jobs;
      assert after[|jobs| - 1] == RewrittenJob(last, f);
      PinFindingsAppend3(AllUses(after[..|jobs| - 1]), UsesOf(last.uses), StepUses(RewrittenSteps(last.steps, f)),
                         immutable);
      PinFindingsAppend3(KeptUses(before, f), UsesOf(last.uses), KeptStepUses(last.steps, f), immutable);
    }
  }
}
