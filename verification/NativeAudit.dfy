/**
 What the native audit reports: the checks of the audit engine on each workflow and the dangling
 references of a repository, down to the type and the locus of a finding.
 */
module NativeAudit {
  import opened Common
  import opened Strings
  import opened Pins
  import opened Operations

  /** A parsed workflow file. `upstreams` are the workflows its `workflow_run` trigger names. */
  datatype File = File(path: string, name: Option<string>, upstreams: seq<string>, permissions: Block,
                       concurrency: Block, jobs: seq<Job>)

  datatype Native = Native(findingType: string, ref: Option<string>)

  /** The trusted publishers, if publishers are checked, and the tags proven to be immutable. */
  datatype Settings = Settings(publishers: Option<set<string>>, immutable: set<string>)

  // ---------------------------------------------------------------------------------------
  // One workflow
  // ---------------------------------------------------------------------------------------

  const SENSITIVE := {"contents", "id-token", "packages", "actions", "deployments"}
  const OLD_MAJORS := {"v1", "v2", "v3"}
  const DEPRECATED_MAJORS := map["actions/checkout" := OLD_MAJORS, "actions/setup-node" := OLD_MAJORS,
                                 "actions/setup-python" := OLD_MAJORS, "actions/upload-artifact" := OLD_MAJORS,
                                 "actions/download-artifact" := OLD_MAJORS, "actions/cache" := OLD_MAJORS]
  const OLD_COMMANDS := ["::set-output", "::save-state", "::set-env", "::add-path"]

  /** `t in s` on strings. */
  predicate Contains(s: string, t: string) {
    t <= s || (s != "" && Contains(s[1..], t))
  }

  predicate EndsWith(s: string, t: string) {
    |t| <= |s| && s[|s| - |t|..] == t
  }

  predicate IsBroad(perms: Block) {
    perms == Text("write-all")
    || (perms.Mapping? && exists scope :: scope in SENSITIVE && (scope, "write") in perms.entries)
  }

  function Digits(s: string): string {
    if s != "" && '0' <= s[0] <= '9' then [s[0]] + Digits(s[1..]) else ""
  }

  /** The match of `v?\d+` at the start of a ref. */
  function Major(ref: Option<string>): Option<string> {
    if !Truthy(ref) then None
    else
      var v := if ref.value[0] == 'v' then 1 else 0;
      var digits := Digits(ref.value[v..]);
      if digits == "" then None else Some(ref.value[..v] + digits)
  }

  predicate IsDeprecated(uses: string) {
    var u := Classify(uses);
    && Truthy(u.owner) && Truthy(u.repo)
    && var action := u.owner.value + "/" + u.repo.value;
       && action in DEPRECATED_MAJORS && Major(u.ref).Some? && Major(u.ref).value in DEPRECATED_MAJORS[action]
  }

  /** step.id or step.name */
  function LocusOf(step: Step): Option<string> {
    if Truthy(step.id) then step.id else step.name
  }

  predicate RunsOldCommand(step: Step, commands: seq<string>) {
    Truthy(step.run) && exists command :: command in commands && Contains(step.run.value, command)
  }

  predicate IsUntrusted(uses: string, publishers: set<string>) {
    var u := Classify(uses); Truthy(u.owner) && u.owner.value !in publishers
  }

  /** A finding about one reference, of those in a list that satisfy p. */
  predicate IsAbout(n: Native, findingType: string, refs: seq<string>, p: string -> bool) {
    n.findingType == findingType && n.ref.Some? && n.ref.value in refs && p(n.ref.value)
  }

  predicate PinsFlag(f: File, immutable: set<string>, n: Native) {
    IsAbout(n, "unpinned_action", AllUses(f.jobs), uses => Flag(uses, immutable).Some?)
  }

  predicate JobsFlag(jobs: seq<Job>, n: Native) {
    exists job :: job in jobs && IsBroad(job.permissions) && n == Native("broad_permissions", Some(job.id))
  }

  predicate PermissionsFlag(f: File, n: Native) {
    || (f.permissions.Absent? && n == Native("missing_permissions", None))
    || (IsBroad(f.permissions) && n == Native("broad_permissions", None))
    || JobsFlag(f.jobs, n)
  }

  predicate StepsFlag(steps: seq<Step>, n: Native) {
    exists step ::
      step in steps && RunsOldCommand(step, OLD_COMMANDS) && n == Native("deprecated_action", LocusOf(step))
  }

  predicate CommandsFlag(jobs: seq<Job>, n: Native) {
    exists job :: job in jobs && StepsFlag(job.steps, n)
  }

  predicate DeprecationsFlag(f: File, n: Native) {
    IsAbout(n, "deprecated_action", AllUses(f.jobs), IsDeprecated) || CommandsFlag(f.jobs, n)
  }

  predicate TrustFlags(f: File, publishers: Option<set<string>>, n: Native) {
    publishers.Some?
    && IsAbout(n, "unverified_publisher", AllUses(f.jobs), uses => IsUntrusted(uses, publishers.value))
  }

  /** What the audit of one workflow reports. */
  predicate WorkflowFlags(f: File, s: Settings, n: Native) {
    || PinsFlag(f, s.immutable, n) || PermissionsFlag(f, n) || DeprecationsFlag(f, n)
    || (f.concurrency.Absent? && n == Native("missing_concurrency", None))
    || TrustFlags(f, s.publishers, n)
  }

  // ---------------------------------------------------------------------------------------
  // What is reported, on the text of the workflow
  // ---------------------------------------------------------------------------------------

  const DEPRECATED_ACTIONS := ["actions/checkout", "actions/setup-node", "actions/setup-python",
                               "actions/upload-artifact", "actions/download-artifact", "actions/cache"]
  const IMPACTFUL := ["contents", "id-token", "packages", "actions", "deployments"]
  const COMMANDS := ["::set-output", "::save-state", "::set-env", "::add-path"]

  ghost predicate Holds(s: string, t: string) {
    exists a, b :: s == a + t + b
  }

  ghost predicate Ends(s: string, t: string) {
    exists a :: s == a + t
  }

  /** Everything may be written, or a scope with high impact. */
  ghost predicate MayWrite(perms: Block) {
    match perms
    case Absent => false
    case Text(t) => t == "write-all"
    case Mapping(entries) => exists scope :: scope in IMPACTFUL && (scope, "write") in entries
  }

  /** A ref of major version 1, 2 or 3, whatever follows the number. */
  ghost predicate IsOldRef(ref: string) {
    exists major, rest :: StartsOld(ref, major, rest)
  }

  ghost predicate StartsOld(ref: string, major: string, rest: string) {
    major in ["v1", "v2", "v3"] && ref == major + rest && (rest == "" || rest[0] !in DIGITS)
  }

  ghost predicate UsesOldAction(uses: string) {
    exists owner, repo, subpath, ref ::
      ReadsAs(uses, owner, repo, subpath, Some(ref)) && owner + "/" + repo in DEPRECATED_ACTIONS && IsOldRef(ref)
  }

  ghost predicate RunsOld(step: Step) {
    step.run.Some? && exists command :: command in COMMANDS && Holds(step.run.value, command)
  }

  /** The step's id or, if that is missing or empty, its name. */
  ghost predicate IsLocus(step: Step, ref: Option<string>) {
    ref == if step.id.Some? && step.id.value != "" then step.id else step.name
  }

  /** The reference is to an action or repository of this owner. */
  ghost predicate IsOwnedBy(uses: string, owner: string) {
    && !IsElsewhere(Strip(uses)) && owner != "" && '/' !in owner && '@' !in owner
    && exists rest :: Strip(uses) == owner + "/" + rest
  }

  /** What the audit of a workflow is to report. */
  ghost predicate Deserves(f: File, s: Settings, n: Native) {
    || (n.findingType == "unpinned_action" && n.ref.Some? && Uses(f.jobs, n.ref.value)
        && exists severity :: IsFlagged(n.ref.value, s.immutable, severity))
    || (n == Native("missing_permissions", None) && f.permissions == Absent)
    || (n == Native("broad_permissions", None) && MayWrite(f.permissions))
    || (n.findingType == "broad_permissions"
        && exists job :: job in f.jobs && n.ref == Some(job.id) && MayWrite(job.permissions))
    || (n.findingType == "deprecated_action" && n.ref.Some? && Uses(f.jobs, n.ref.value) && UsesOldAction(n.ref.value))
    || (n.findingType == "deprecated_action"
        && exists job, step :: job in f.jobs && step in job.steps && RunsOld(step) && IsLocus(step, n.ref))
    || (n == Native("missing_concurrency", None) && f.concurrency == Absent)
    || (n.findingType == "unverified_publisher" && n.ref.Some? && Uses(f.jobs, n.ref.value) && s.publishers.Some?
        && exists owner :: IsOwnedBy(n.ref.value, owner) && owner !in s.publishers.value)
  }

  lemma {:induction false} ContainsIff(s: string, t: string)
    ensures Contains(s, t) <==> Holds(s, t)
  {
    if t <= s {
      assert s == "" + t + s[|t|..];
    } else if s != "" {
      ContainsIff(s[1..], t);
      if Holds(s[1..], t) {
        var a, b :| s[1..] == a + t + b;
        assert s == ([s[0]] + a) + t + b;
      }
      if a, b :| s == a + t + b {
        if a != "" {
          assert s[1..] == a[1..] + t + b;
        }
      }
    }
  }

  lemma EndsIff(s: string, t: string)
    ensures EndsWith(s, t) <==> Ends(s, t)
  {
    if EndsWith(s, t) {
      assert s == s[..|s| - |t|] + t;
    }
  }

  lemma BroadIff(perms: Block)
    ensures IsBroad(perms) <==> MayWrite(perms)
  {
    assert forall scope :: scope in SENSITIVE <==> scope in IMPACTFUL;
  }

  lemma {:induction false} DigitsStop(s: string)
    ensures var d := Digits(s);
      d <= s && IsOver(d, DIGITS) && (|d| < |s| ==> s[|d|] !in DIGITS)
  {
    if s != "" {
      HexIff(s[0]);
      if '0' <= s[0] <= '9' {
        DigitsStop(s[1..]);
      }
    }
  }

  lemma {:induction false} DigitsOf(d: string, rest: string)
    requires IsOver(d, DIGITS) && (rest == "" || rest[0] !in DIGITS)
    ensures Digits(d + rest) == d
  {
    if d != "" {
      assert (d + rest)[1..] == d[1..] + rest && d[0] in d;
      HexIff(d[0]);
      DigitsOf(d[1..], rest);
      assert d == [d[0]] + d[1..];
    } else if rest != "" {
      assert d + rest == rest;
      HexIff(rest[0]);
    }
  }

  lemma OldMajor(m: string)
    ensures m in OLD_MAJORS <==> m in ["v1", "v2", "v3"]
    ensures m in OLD_MAJORS ==> |m| == 2 && m == "v" + [m[1]] && IsOver([m[1]], DIGITS)
  {
    if m in OLD_MAJORS {
      HexIff(m[1]);
    }
  }

  lemma OldRefIff(ref: string)
    ensures Major(Some(ref)).Some? && Major(Some(ref)).value in OLD_MAJORS <==> IsOldRef(ref)
  {
    hide OLD_MAJORS, IsOldRef, Major;
    if Major(Some(ref)).Some? && Major(Some(ref)).value in OLD_MAJORS {
      OldRefIsOld(ref);
    }
    if IsOldRef(ref) {
      IsOldMajor(ref);
    }
  }

  lemma IsOldMajor(ref: string)
    requires IsOldRef(ref)
    ensures Major(Some(ref)).Some? && Major(Some(ref)).value in OLD_MAJORS
  {
    hide OLD_MAJORS, DIGITS, Digits;
    var major, rest :| StartsOld(ref, major, rest);
    OldMajor(major);
    assert ref[1..] == [major[1]] + rest && ref[0] == 'v';
    DigitsOf([major[1]], rest);
    assert ref[..1] == "v";
  }

  lemma OldRefIsOld(ref: string)
    requires Major(Some(ref)).Some? && Major(Some(ref)).value in OLD_MAJORS
    ensures IsOldRef(ref)
  {
    hide OLD_MAJORS, DIGITS, Digits;
    var v := if ref[0] == 'v' then 1 else 0;
    var digits := Digits(ref[v..]);
    DigitsStop(ref[v..]);
    var major := ref[..v] + digits;
    OldMajor(major);
    NoLetter(digits);
    assert major[0] == 'v' && |major| == 2;
    assert v == 1;
    var rest := ref[2..];
    assert ref == major + rest;
    if rest != "" {
      assert rest[0] == ref[v..][|digits|];
    }
    assert StartsOld(ref, major, rest);
  }

  lemma NoLetter(digits: string)
    requires IsOver(digits, DIGITS)
    ensures 'v' !in digits
  {
    HexIff('v');
  }

  lemma DeprecatedIff(uses: string)
    ensures IsDeprecated(uses) <==> UsesOldAction(uses)
  {
    hide Classify, ReadsAs, Major, IsOldRef;
    var u := Classify(uses);
    if IsDeprecated(uses) {
      ReadsIff(uses, u.owner.value, u.repo.value, u.subpath, u.ref, {});
      MajorHasRef(u.ref);
      OldRefIff(u.ref.value);
    }
    if owner, repo, subpath, ref :|
      ReadsAs(uses, owner, repo, subpath, Some(ref)) && owner + "/" + repo in DEPRECATED_ACTIONS && IsOldRef(ref) {
      NotEmpty(uses, owner, repo, subpath, Some(ref));
      ReadsIff(uses, owner, repo, subpath, Some(ref), {});
      OldRefIff(ref);
    }
  }

  lemma MajorHasRef(ref: Option<string>)
    ensures Major(ref).Some? ==> ref.Some?
  {
  }

  lemma CommandIff(step: Step)
    ensures RunsOldCommand(step, OLD_COMMANDS) <==> RunsOld(step)
  {
    hide Contains, Holds;
    assert OLD_COMMANDS == COMMANDS;
    if step.run.Some? {
      forall command | command in COMMANDS
        ensures Contains(step.run.value, command) <==> Holds(step.run.value, command)
        ensures Holds(step.run.value, command) ==> step.run.value != ""
      {
        ContainsIff(step.run.value, command);
        HoldsIsLong(step.run.value, command);
      }
    }
  }

  lemma HoldsIsLong(s: string, t: string)
    requires t != ""
    ensures Holds(s, t) ==> s != ""
  {
  }

  lemma UntrustedIff(uses: string, publishers: set<string>)
    ensures IsUntrusted(uses, publishers) <==> exists owner :: IsOwnedBy(uses, owner) && owner !in publishers
  {
    hide Classify, IsOwnedBy;
    if IsUntrusted(uses, publishers) {
      OwnerIsOwner(uses);
    }
    if owner :| IsOwnedBy(uses, owner) && owner !in publishers {
      OwnedIsOwned(uses, owner);
    }
  }

  lemma OwnerIsOwner(uses: string)
    requires Truthy(Classify(uses).owner)
    ensures IsOwnedBy(uses, Classify(uses).owner.value)
  {
    hide Cut, Strip, Classify, ClassifyRef;
    var raw := Strip(uses);
    if IsElsewhere(raw) {
      ElsewhereParts(uses, {});
    }
    MarketParts(uses, {});
    var name := Cut(raw, '@').0;
    var tail := CutGivesPart(raw, '@');
    CutIsPartition(raw, '@');
    CutIsPartition(name, '/');
    var owner, rest := Cut(name, '/').0, Cut(name, '/').1;
    assert raw == owner + "/" + (rest.value + tail);
    assert forall c :: c in owner ==> c in name;
  }

  lemma OwnedIsOwned(uses: string, owner: string)
    requires IsOwnedBy(uses, owner)
    ensures Classify(uses).owner == Some(owner) && owner != ""
  {
    hide Cut, Strip, Classify, ClassifyRef;
    var raw := Strip(uses);
    var rest :| raw == owner + "/" + rest;
    MarketParts(uses, {});
    CutIsPartition(raw, '@');
    var name := Cut(raw, '@').0;
    assert owner + "/" <= name by { PrefixOfName(raw, owner, rest); }
    assert name == owner + ['/'] + name[|owner| + 1..];
    CutFinds(owner, '/', name[|owner| + 1..]);
  }

  lemma PrefixOfName(raw: string, owner: string, rest: string)
    requires raw == owner + "/" + rest && '@' !in owner
    ensures owner + "/" <= Cut(raw, '@').0
  {
    hide Cut;
    CutIsPartition(raw, '@');
    var name := Cut(raw, '@').0;
    assert forall i :: 0 <= i < |owner| ==> raw[i] == owner[i] && raw[i] in owner;
    assert raw[|owner|] == '/';
    assert |name| < |raw| ==> raw[|name|] == '@';
    assert |name| > |owner|;
    assert owner + "/" == raw[..|owner| + 1] == name[..|owner| + 1];
  }

  /** The audit of one workflow reports what it is to report. */
  lemma FlagsIff(f: File, s: Settings, n: Native)
    ensures WorkflowFlags(f, s, n) <==> Deserves(f, s, n)
  {
    hide AllUses, Flag, IsDeprecated, IsUntrusted, Uses, IsFlagged, UsesOldAction, IsOwnedBy, IsBroad, MayWrite,
         RunsOldCommand, RunsOld;
    BroadIff(f.permissions);
    forall job | job in f.jobs
      ensures IsBroad(job.permissions) <==> MayWrite(job.permissions)
      ensures forall step :: step in job.steps ==> (RunsOldCommand(step, OLD_COMMANDS) <==> RunsOld(step))
    {
      BroadIff(job.permissions);
      forall step | step in job.steps
        ensures RunsOldCommand(step, OLD_COMMANDS) <==> RunsOld(step)
      {
        CommandIff(step);
      }
    }
    if n.ref.Some? {
      AllUsesIff(f.jobs, n.ref.value);
      DeprecatedIff(n.ref.value);
      forall severity
        ensures Flag(n.ref.value, s.immutable) == Some(severity) <==> IsFlagged(n.ref.value, s.immutable, severity)
      {
        FlagIff(n.ref.value, s.immutable, severity);
      }
      if s.publishers.Some? {
        UntrustedIff(n.ref.value, s.publishers.value);
      }
    }
    CommandsIff(f.jobs, n);
  }

  lemma CommandsIff(jobs: seq<Job>, n: Native)
    ensures CommandsFlag(jobs, n) <==>
      n.findingType == "deprecated_action"
      && exists job, step :: job in jobs && step in job.steps && RunsOld(step) && IsLocus(step, n.ref)
  {
    hide RunsOldCommand, RunsOld;
    forall step
      ensures RunsOldCommand(step, OLD_COMMANDS) <==> RunsOld(step)
    {
      CommandIff(step);
    }
    if job, step :| job in jobs && step in job.steps && RunsOld(step) && IsLocus(step, n.ref) {
      assert n.findingType == "deprecated_action" ==> n == Native("deprecated_action", LocusOf(step));
    }
  }

  // ---------------------------------------------------------------------------------------
  // The checks
  // ---------------------------------------------------------------------------------------

  /** One finding for each reference that satisfies p. */
  method FlagUses(refs: seq<string>, findingType: string, p: string -> bool) returns (out: seq<Native>)
    ensures forall n :: n in out <==> IsAbout(n, findingType, refs, p)
  {
    out := [];
    for k := 0 to |refs|
      invariant forall n :: n in out <==> IsAbout(n, findingType, refs[..k], p)
    {
      if p(refs[k]) {
        out := out + [Native(findingType, Some(refs[k]))];
      }
    }
    assert refs[..|refs|] == refs;
  }

  method AuditPermissions(f: File) returns (out: seq<Native>)
    ensures forall n :: n in out <==> PermissionsFlag(f, n)
  {
    out := if f.permissions.Absent? then [Native("missing_permissions", None)] else [];
    if IsBroad(f.permissions) {
      out := out + [Native("broad_permissions", None)];
    }
    ghost var before := out;
    for k := 0 to |f.jobs|
      invariant forall n :: n in out <==> n in before || JobsFlag(f.jobs[..k], n)
    {
      if IsBroad(f.jobs[k].permissions) {
        out := out + [Native("broad_permissions", Some(f.jobs[k].id))];
      }
    }
    assert f.jobs[..|f.jobs|] == f.jobs;
  }

  method AuditDeprecations(f: File) returns (out: seq<Native>)
    ensures forall n :: n in out <==> DeprecationsFlag(f, n)
  {
    out := FlagUses(AllUses(f.jobs), "deprecated_action", IsDeprecated);
    ghost var before := out;
    for k := 0 to |f.jobs|
      invariant forall n :: n in out <==> n in before || CommandsFlag(f.jobs[..k], n)
    {
      var found := AuditCommands(f.jobs[k].steps);
      out := out + found;
    }
    assert f.jobs[..|f.jobs|] == f.jobs;
  }

  /** The deprecated commands in the scripts of a job's steps. */
  method AuditCommands(steps: seq<Step>) returns (out: seq<Native>)
    ensures forall n :: n in out <==> StepsFlag(steps, n)
  {
    out := [];
    for k := 0 to |steps|
      invariant forall n :: n in out <==> StepsFlag(steps[..k], n)
    {
      if Truthy(steps[k].run) {
        ghost var before := out;
        for c := 0 to |OLD_COMMANDS|
          invariant forall n :: n in out <==>
            n in before
            || (RunsOldCommand(steps[k], OLD_COMMANDS[..c]) && n == Native("deprecated_action", LocusOf(steps[k])))
        {
          if Contains(steps[k].run.value, OLD_COMMANDS[c]) {
            out := out + [Native("deprecated_action", LocusOf(steps[k]))];
          }
        }
        assert OLD_COMMANDS[..|OLD_COMMANDS|] == OLD_COMMANDS;
      }
    }
    assert steps[..|steps|] == steps;
  }

  /** The full suite over one workflow. */
  method AuditWorkflow(f: File, s: Settings) returns (out: seq<Native>)
    ensures forall n :: n in out <==> WorkflowFlags(f, s, n)
    ensures forall n :: n in out <==> Deserves(f, s, n)
  {
    forall n
      ensures WorkflowFlags(f, s, n) <==> Deserves(f, s, n)
    {
      FlagsIff(f, s, n);
    }
    hide Deserves;
    var pins := FlagUses(AllUses(f.jobs), "unpinned_action", uses => Flag(uses, s.immutable).Some?);
    var permissions := AuditPermissions(f);
    var deprecations := AuditDeprecations(f);
    var concurrency := if f.concurrency.Absent? then [Native("missing_concurrency", None)] else [];
    out := pins + permissions + deprecations + concurrency;
    if s.publishers.Some? {
      var trust := FlagUses(AllUses(f.jobs), "unverified_publisher", uses => IsUntrusted(uses, s.publishers.value));
      out := out + trust;
    }
  }

  // ---------------------------------------------------------------------------------------
  // Dangling references
  // ---------------------------------------------------------------------------------------

  predicate IsYaml(name: string) {
    EndsWith(name, ".yml") || EndsWith(name, ".yaml")
  }

  /** What passes for the path of a workflow in a `uses`. */
  predicate NamesWorkflow(path: string) {
    IsYaml(path) && Contains(path, "workflows")
  }

  /** lstrip("./") */
  function StripDots(s: string): string {
    if s != "" && (s[0] == '.' || s[0] == '/') then StripDots(s[1..]) else s
  }

  /** What follows the last slash. */
  function Basename(path: string): string {
    if '/' in path then Basename(path[1..]) else path
  }

  predicate IsRemoteCall(uses: string) {
    var u := Classify(uses); Truthy(u.owner) && Truthy(u.repo) && u.subpath.Some? && NamesWorkflow(u.subpath.value)
  }

  /** A job that calls a reusable workflow of its own repository. */
  predicate IsLocalCall(job: Job) {
    && Truthy(job.uses) && !IsRemoteCall(job.uses.value)
    && ("./" <= job.uses.value || "../" <= job.uses.value) && NamesWorkflow(job.uses.value)
  }

  /** The paths of those calls, in order. */
  function LocalCalls(jobs: seq<Job>): seq<string> {
    if jobs == [] then []
    else
      var last := jobs[|jobs| - 1];
      LocalCalls(jobs[..|jobs| - 1]) + if IsLocalCall(last) then [StripDots(last.uses.value)] else []
  }

  function NamesIn(files: seq<File>): set<string> {
    set f | f in files && Truthy(f.name) :: f.name.value
  }

  function BasenamesIn(files: seq<File>): set<string> {
    set f | f in files :: Basename(f.path)
  }

  /** What dangles in one file. */
  predicate FileDangles(f: File, names: set<string>, basenames: set<string>, n: Native) {
    || IsAbout(n, "dangling_workflow_run", f.upstreams, upstream => upstream != "" && upstream !in names)
    || IsAbout(n, "missing_reusable_workflow", LocalCalls(f.jobs),
               call => call != "" && Basename(call) !in basenames)
  }

  predicate Dangles(files: seq<File>, path: string, n: Native) {
    exists f :: f in files && f.path == path && FileDangles(f, NamesIn(files), BasenamesIn(files), n)
  }

  predicate EngineFlags(files: seq<File>, s: Settings, path: string, n: Native) {
    exists f :: f in files && f.path == path && WorkflowFlags(f, s, n)
  }

  /** What the audit of a repository reports at a path. */
  predicate Reports(files: seq<File>, s: Settings, path: string, n: Native) {
    EngineFlags(files, s, path, n) || Dangles(files, path, n)
  }

  // What dangles, on the text of the files

  ghost predicate IsYamlName(path: string) {
    Ends(path, ".yml") || Ends(path, ".yaml")
  }

  /** The job uses a file of its own repository that passes for a workflow; `call` is its path less leading dots. */
  ghost predicate CallsFile(job: Job, call: string) {
    exists dots ::
      && job.uses == Some(dots + call) && IsOver(dots, "./") && (call == "" || call[0] !in "./")
      && ("./" <= dots + call || "../" <= dots + call)
      && IsYamlName(dots + call) && Holds(dots + call, "workflows")
  }

  ghost predicate HasBasename(path: string, base: string) {
    '/' !in base && exists dir :: path == dir + base && (dir == "" || dir[|dir| - 1] == '/')
  }

  ghost predicate SameBasename(path: string, other: string) {
    exists base :: HasBasename(path, base) && HasBasename(other, base)
  }

  /** A trigger on a workflow that none is named, or a call of a file that no workflow has the base name of. */
  ghost predicate PointsNowhere(f: File, files: seq<File>, n: Native) {
    && n.ref.Some? && n.ref.value != ""
    && (|| (n.findingType == "dangling_workflow_run" && n.ref.value in f.upstreams
            && forall g :: g in files ==> g.name != n.ref)
        || (n.findingType == "missing_reusable_workflow"
            && (exists job :: job in f.jobs && CallsFile(job, n.ref.value))
            && forall g :: g in files ==> !SameBasename(n.ref.value, g.path)))
  }

  lemma {:induction false} BasenameHas(path: string) returns (dir: string)
    ensures '/' !in Basename(path) && path == dir + Basename(path) && (dir == "" || dir[|dir| - 1] == '/')
  {
    dir := "";
    if '/' in path {
      var rest := BasenameHas(path[1..]);
      assert rest == "" ==> path == [path[0]] + Basename(path) && path[0] == '/';
      dir := [path[0]] + rest;
    }
  }

  lemma {:induction false} BasenameOf(dir: string, base: string)
    requires '/' !in base && (dir == "" || dir[|dir| - 1] == '/')
    ensures Basename(dir + base) == base
  {
    if dir == "" {
      assert dir + base == base;
    } else {
      assert '/' in dir && (dir + base)[1..] == dir[1..] + base;
      BasenameOf(dir[1..], base);
    }
  }

  lemma BasenameIs(path: string)
    ensures HasBasename(path, Basename(path))
    ensures forall base :: HasBasename(path, base) ==> base == Basename(path)
  {
    hide Basename;
    var dir := BasenameHas(path);
    forall base | HasBasename(path, base)
      ensures base == Basename(path)
    {
      var front :| path == front + base && (front == "" || front[|front| - 1] == '/');
      BasenameOf(front, base);
    }
  }

  lemma SameBasenameIff(path: string, other: string)
    ensures SameBasename(path, other) <==> Basename(path) == Basename(other)
  {
    hide Basename, HasBasename;
    BasenameIs(path);
    BasenameIs(other);
  }

  lemma {:induction false} StripDotsCuts(s: string) returns (dots: string)
    ensures s == dots + StripDots(s) && IsOver(dots, "./")
    ensures StripDots(s) == "" || StripDots(s)[0] !in "./"
  {
    dots := "";
    if s != "" && (s[0] == '.' || s[0] == '/') {
      dots := StripDotsCuts(s[1..]);
      dots := [s[0]] + dots;
    }
  }

  lemma {:induction false} StripDotsOf(dots: string, call: string)
    requires IsOver(dots, "./") && (call == "" || call[0] !in "./")
    ensures StripDots(dots + call) == call
  {
    if dots != "" {
      assert dots[0] in dots && (dots + call)[1..] == dots[1..] + call;
      StripDotsOf(dots[1..], call);
    } else {
      assert dots + call == call;
    }
  }

  /** A reference that starts as a path has no owner. */
  lemma LocalReads(uses: string)
    requires "./" <= uses || "../" <= uses
    ensures Classify(uses).owner == None
  {
    hide Cut, SplitActionName, ClassifyRef, StripLeft, StripRight;
    var front := if "./" <= uses then ['.', '/'] else ['.', '.', '/'];
    assert uses == front + uses[|front|..] && uses[0] == '.';
    StripLeftStops(uses);
    StripRightKeeps(front, uses[|front|..]);
  }

  lemma CallsFileIff(job: Job, call: string)
    ensures CallsFile(job, call) <==> IsLocalCall(job) && StripDots(job.uses.value) == call
  {
    hide Classify, StripDots, Contains, EndsWith, Ends, Holds;
    if job.uses.Some? {
      var uses := job.uses.value;
      EndsIff(uses, ".yml");
      EndsIff(uses, ".yaml");
      ContainsIff(uses, "workflows");
      var dots := StripDotsCuts(uses);
      if "./" <= uses || "../" <= uses {
        LocalReads(uses);
      }
      if CallsFile(job, call) {
        var front :| uses == front + call && IsOver(front, "./") && (call == "" || call[0] !in "./");
        StripDotsOf(front, call);
      }
    }
  }

  lemma {:induction false} LocalCallsIff(jobs: seq<Job>, call: string)
    ensures call in LocalCalls(jobs) <==> exists job :: job in jobs && CallsFile(job, call)
  {
    hide CallsFile, IsLocalCall;
    if jobs != [] {
      var last := jobs[|jobs| - 1];
      LocalCallsIff(jobs[..|jobs| - 1], call);
      CallsFileIff(last, call);
      assert jobs == jobs[..|jobs| - 1] + [last];
    }
  }

  lemma DanglesIff(f: File, files: seq<File>, n: Native)
    ensures FileDangles(f, NamesIn(files), BasenamesIn(files), n) <==> PointsNowhere(f, files, n)
  {
    hide LocalCalls, CallsFile, SameBasename, Basename;
    if n.ref.Some? {
      LocalCallsIff(f.jobs, n.ref.value);
      forall g | g in files
        ensures SameBasename(n.ref.value, g.path) <==> Basename(n.ref.value) == Basename(g.path)
      {
        SameBasenameIff(n.ref.value, g.path);
      }
    }
  }

  function At(path: string, found: seq<Native>): seq<(string, Native)> {
    seq(|found|, i requires 0 <= i < |found| => (path, found[i]))
  }

  lemma AtMembers(path: string, found: seq<Native>)
    ensures forall p, n :: (p, n) in At(path, found) <==> p == path && n in found
  {
    forall p, n | p == path && n in found
      ensures (p, n) in At(path, found)
    {
      var i :| 0 <= i < |found| && found[i] == n;
      assert At(path, found)[i] == (p, n);
    }
  }

  method DetectDanglingReferences(files: seq<File>) returns (out: seq<(string, Native)>)
    ensures forall path, n :: (path, n) in out <==> Dangles(files, path, n)
    ensures forall path, n :: (path, n) in out <==>
      exists f :: f in files && f.path == path && PointsNowhere(f, files, n)
  {
    forall f, n
      ensures FileDangles(f, NamesIn(files), BasenamesIn(files), n) <==> PointsNowhere(f, files, n)
    {
      DanglesIff(f, files, n);
    }
    hide IsAbout, LocalCalls, PointsNowhere;
    var names, basenames := NamesIn(files), BasenamesIn(files);
    out := [];
    for k := 0 to |files|
      invariant forall path, n :: (path, n) in out <==>
        exists f :: f in files[..k] && f.path == path && FileDangles(f, names, basenames, n)
    {
      var f := files[k];
      var upstreams := FlagUses(f.upstreams, "dangling_workflow_run", up => up != "" && up !in names);
      var calls := FlagUses(LocalCalls(f.jobs), "missing_reusable_workflow",
                            call => call != "" && Basename(call) !in basenames);
      assert files[..k + 1] == files[..k] + [f];
      AtMembers(f.path, upstreams + calls);
      out := out + At(f.path, upstreams + calls);
    }
    assert files[..|files|] == files;
  }

  /** The findings of all files, then the dangling references, each with the path it is reported at. */
  method AuditFiles(files: seq<File>, s: Settings) returns (out: seq<(string, Native)>)
    ensures forall path, n :: (path, n) in out <==> Reports(files, s, path, n)
  {
    hide WorkflowFlags, Dangles;
    out := [];
    for k := 0 to |files|
      invariant forall path, n :: (path, n) in out <==> EngineFlags(files[..k], s, path, n)
    {
      var found := AuditWorkflow(files[k], s);
      assert files[..k + 1] == files[..k] + [files[k]];
      AtMembers(files[k].path, found);
      out := out + At(files[k].path, found);
    }
    assert files[..|files|] == files;
    var dangling := DetectDanglingReferences(files);
    out := out + dangling;
  }

  // ---------------------------------------------------------------------------------------
  // What can be reported at all
  // ---------------------------------------------------------------------------------------

  const WORKFLOWS := ".github/workflows/"

  /** The paths that are audited: the YAML files of one directory. */
  predicate IsListed(path: string) {
    WORKFLOWS <= path && '/' !in path[|WORKFLOWS|..] && IsYaml(path[|WORKFLOWS|..])
  }

  lemma ListedIff(path: string)
    ensures IsListed(path) <==>
      exists name :: path == ".github/workflows/" + name && '/' !in name && IsYamlName(name)
  {
    hide Ends, EndsWith;
    if IsListed(path) {
      var name := path[|WORKFLOWS|..];
      EndsIff(name, ".yml");
      EndsIff(name, ".yaml");
      assert path == ".github/workflows/" + name;
    }
    if name :| path == ".github/workflows/" + name && '/' !in name && IsYamlName(name) {
      EndsIff(name, ".yml");
      EndsIff(name, ".yaml");
      assert path[|WORKFLOWS|..] == name;
    }
  }

  ghost predicate AllListed(files: seq<File>) {
    forall f :: f in files ==> IsListed(f.path)
  }

  /** The types that are reported with a locus. */
  const LOCATED := {"unpinned_action", "broad_permissions", "deprecated_action", "unverified_publisher",
                    "dangling_workflow_run", "missing_reusable_workflow"}

  /** The path of a local call, as it is reported. */
  predicate IsCallPath(call: string) {
    call != "" && call[0] != '.' && call[0] != '/' && NamesWorkflow(call)
  }

  /** Which loci each type can have at a path. */
  predicate CanReportAt(s: Settings, path: string, findingType: string, ref: string) {
    || findingType == "broad_permissions" || findingType == "deprecated_action"
    || (ref != "" &&
        (|| (findingType == "unpinned_action" && Flag(ref, s.immutable).Some?)
         || (findingType == "unverified_publisher" && s.publishers.Some? && IsUntrusted(ref, s.publishers.value))
         || findingType == "dangling_workflow_run"
         || (findingType == "missing_reusable_workflow" && IsCallPath(ref) && Basename(ref) != Basename(path))))
  }

  predicate CanReport(s: Settings, path: string, n: Native) {
    IsListed(path) &&
    match n.ref
    case Some(ref) => CanReportAt(s, path, n.findingType, ref)
    case None =>
      n.findingType in {"missing_permissions", "missing_concurrency", "broad_permissions", "deprecated_action"}
  }

  lemma {:induction false} StepUsesAreNotEmpty(steps: seq<Step>)
    ensures "" !in StepUses(steps)
  {
    if steps != [] {
      StepUsesAreNotEmpty(steps[..|steps| - 1]);
    }
  }

  lemma {:induction false} UsesAreNotEmpty(jobs: seq<Job>)
    ensures "" !in AllUses(jobs)
  {
    if jobs != [] {
      UsesAreNotEmpty(jobs[..|jobs| - 1]);
      StepUsesAreNotEmpty(jobs[|jobs| - 1].steps);
    }
  }

  lemma {:induction false} StripDotsKeeps(s: string)
    requires NamesWorkflow(s)
    ensures NamesWorkflow(StripDots(s)) && StripDots(s) != ""
    ensures StripDots(s)[0] != '.' && StripDots(s)[0] != '/'
  {
    ContainsIsLong(s, "workflows");
    if s[0] == '.' || s[0] == '/' {
      ContainsIsLong(s[1..], "workflows");
      StripDotsKeeps(s[1..]);
    }
  }

  lemma {:induction false} ContainsIsLong(s: string, t: string)
    requires Contains(s, t)
    ensures |t| <= |s|
  {
    if !(t <= s) {
      ContainsIsLong(s[1..], t);
    }
  }

  lemma {:induction false} CallsAreCallPaths(jobs: seq<Job>, call: string)
    requires call in LocalCalls(jobs)
    ensures IsCallPath(call)
  {
    var last := jobs[|jobs| - 1];
    if call in LocalCalls(jobs[..|jobs| - 1]) {
      CallsAreCallPaths(jobs[..|jobs| - 1], call);
    } else {
      StripDotsKeeps(last.uses.value);
    }
  }

  /** Whatever an audit of listed files reports can be reported. */
  lemma ReportedCanBe(files: seq<File>, s: Settings, path: string, n: Native)
    requires AllListed(files) && Reports(files, s, path, n)
    ensures CanReport(s, path, n)
  {
    hide AllUses, LocalCalls, IsCallPath, Flag, IsDeprecated, IsUntrusted;
    if EngineFlags(files, s, path, n) {
      var f :| f in files && f.path == path && WorkflowFlags(f, s, n);
      UsesAreNotEmpty(f.jobs);
    } else {
      var f :| f in files && f.path == path && FileDangles(f, NamesIn(files), BasenamesIn(files), n);
      assert Basename(f.path) in BasenamesIn(files);
      if n.findingType == "missing_reusable_workflow" {
        CallsAreCallPaths(f.jobs, n.ref.value);
      }
    }
  }

  /** A workflow with all that a finding of this type and locus needs. */
  function Offender(path: string, n: Native): File {
    var ref := if n.ref.Some? then n.ref.value else "";
    File(path, None, [ref], if n.findingType == "missing_permissions" then Absent else Text("write-all"), Absent,
         if n.findingType == "missing_reusable_workflow" then [Job("", Some("./" + ref), [])]
         else [Job(ref, n.ref, [Step(None, Some("::set-env"), None, n.ref)], Text("write-all"))])
  }

  lemma OffenderUses(path: string, n: Native)
    requires n.findingType != "missing_reusable_workflow" && n.ref.Some? && n.ref.value != ""
    ensures n.ref.value in AllUses(Offender(path, n).jobs)
  {
    var jobs := Offender(path, n).jobs;
    assert jobs[..0] == [] && UsesOf(n.ref) == [n.ref.value];
    assert AllUses(jobs) == AllUses(jobs[..0]) + (UsesOf(jobs[0].uses) + StepUses(jobs[0].steps));
  }

  lemma OffenderRuns(path: string, ref: Option<string>)
    ensures var n := Native("deprecated_action", ref); CommandsFlag(Offender(path, n).jobs, n)
  {
    var job := Offender(path, Native("deprecated_action", ref)).jobs[0];
    var step := job.steps[0];
    assert step == Step(None, Some("::set-env"), None, ref);
    assert OLD_COMMANDS[2] == "::set-env" && OLD_COMMANDS[2] in OLD_COMMANDS;
    assert Contains("::set-env", OLD_COMMANDS[2]);
    assert RunsOldCommand(step, OLD_COMMANDS) && step in job.steps;
    assert job in Offender(path, Native("deprecated_action", ref)).jobs;
  }

  lemma OffenderCalls(path: string, ref: string)
    requires IsCallPath(ref)
    ensures LocalCalls(Offender(path, Native("missing_reusable_workflow", Some(ref))).jobs) == [ref]
  {
    hide Cut, SplitActionName, ClassifyRef;
    var uses := "./" + ref;
    var jobs := [Job("", Some(uses), [])];
    LocalReads(uses);
    assert uses[1..] == "/" + ref && uses[2..] == ref && uses[1..][1..] == ref;
    assert StripDots(ref) == ref;
    assert StripDots(uses) == StripDots(uses[1..]) == StripDots(ref);
    assert Contains(uses, "workflows") by { assert Contains(uses[1..], "workflows"); }
    assert jobs[..0] == [] && LocalCalls(jobs) == LocalCalls(jobs[..0]) + [ref];
  }

  lemma OffenderIsReported(s: Settings, path: string, n: Native)
    requires CanReport(s, path, n)
    ensures AllListed([Offender(path, n)]) && Reports([Offender(path, n)], s, path, n)
  {
    hide AllUses, LocalCalls, IsCallPath, Flag, IsDeprecated, IsUntrusted, CommandsFlag;
    var f := Offender(path, n);
    var files := [f];
    assert f in files;
    if n.ref.Some? && n.ref.value != "" && n.findingType != "missing_reusable_workflow" {
      OffenderUses(path, n);
    }
    if n.findingType == "deprecated_action" {
      OffenderRuns(path, n.ref);
    } else if n.findingType == "broad_permissions" {
      assert f.jobs[0] in f.jobs;
    } else if n.findingType == "missing_reusable_workflow" {
      OffenderCalls(path, n.ref.value);
      assert BasenamesIn(files) == {Basename(path)};
    } else if n.findingType == "dangling_workflow_run" {
      assert NamesIn(files) == {};
    }
  }

  /** The findings that some audit of listed files reports, type by type and locus by locus. */
  lemma CanReportIff(s: Settings, path: string, n: Native)
    ensures CanReport(s, path, n) <==> exists files :: AllListed(files) && Reports(files, s, path, n)
  {
    hide CanReport, Reports, AllListed;
    if CanReport(s, path, n) {
      OffenderIsReported(s, path, n);
    }
    if files :| AllListed(files) && Reports(files, s, path, n) {
      ReportedCanBe(files, s, path, n);
    }
  }
}
