/**
 The findings table: one row per fingerprint, opened or reopened when a finding is seen and
 closed by the resolve pass of the audit that no longer sees it.
 */
module Findings {
  import opened Common
  import opened Strings

  /** The finding types of the native audit; a scanner's type is its tool, a colon and the rule. */
  const NATIVE_TYPES := {"unpinned_action", "unverified_publisher", "missing_permissions", "broad_permissions",
                         "deprecated_action", "dangerous_secret_flow", "missing_concurrency", "dangling_workflow_run",
                         "missing_reusable_workflow"}

  type Fingerprint = string
  type RepoId = nat
  type Time = int

  /** A finding as an audit or a scanner reports it; the row adds the repository. */
  datatype Finding = Finding(path: Option<string>, findingType: string, ref: Option<string>, severity: Severity,
                             message: string)

  datatype Row = Row(repo: RepoId, path: Option<string>, findingType: string, ref: Option<string>,
                     severity: Severity, message: string, firstSeen: Time, lastSeen: Time, resolvedAt: Option<Time>)

  type Table = map<Fingerprint, Row>

  function OrEmpty(x: Option<string>): string {
    if x.Some? then x.value else ""
  }

  /** The key the fingerprint hashes; the hash is taken to be collision-free, so the key stands for it. */
  function Key(repo: RepoId, path: Option<string>, findingType: string, ref: Option<string>): Fingerprint {
    Decimal(repo) + ":" + (OrEmpty(path) + ":" + (findingType + ":" + OrEmpty(ref)))
  }

  function KeyOf(repo: RepoId, f: Finding): Fingerprint {
    Key(repo, f.path, f.findingType, f.ref)
  }

  /** A fingerprint belongs to one repository, whatever its path, type and locus look like. */
  lemma KeyNamesRepo(r: RepoId, path: Option<string>, t: string, ref: Option<string>,
                     r': RepoId, path': Option<string>, t': string, ref': Option<string>)
    requires Key(r, path, t, ref) == Key(r', path', t', ref')
    ensures r == r'
    ensures OrEmpty(path) + ":" + (t + ":" + OrEmpty(ref)) == OrEmpty(path') + ":" + (t' + ":" + OrEmpty(ref'))
  {
    FirstFieldIsUnique(Decimal(r), OrEmpty(path) + ":" + (t + ":" + OrEmpty(ref)),
                       Decimal(r'), OrEmpty(path') + ":" + (t' + ":" + OrEmpty(ref')), ':');
    DecimalIsInjective(r, r');
  }

  /** Native types hold no colon; where no path does either, two native keys agree only if everything does. */
  lemma KeyIsInjective(r: RepoId, path: Option<string>, t: string, ref: Option<string>,
                       r': RepoId, path': Option<string>, t': string, ref': Option<string>)
    requires ':' !in OrEmpty(path) && ':' !in OrEmpty(path') && ':' !in t && ':' !in t'
    ensures Key(r, path, t, ref) == Key(r', path', t', ref') <==>
      r == r' && OrEmpty(path) == OrEmpty(path') && t == t' && OrEmpty(ref) == OrEmpty(ref')
  {
    if Key(r, path, t, ref) == Key(r', path', t', ref') {
      KeyNamesRepo(r, path, t, ref, r', path', t', ref');
      FirstFieldIsUnique(OrEmpty(path), t + ":" + OrEmpty(ref), OrEmpty(path'), t' + ":" + OrEmpty(ref'), ':');
      FirstFieldIsUnique(t, OrEmpty(ref), t', OrEmpty(ref'), ':');
    }
  }

  lemma NativeTypes(findingType: string)
    requires findingType in NATIVE_TYPES
    ensures '_' in findingType && ':' !in findingType
  {
    assert findingType[5] == '_' || findingType[7] == '_' || findingType[8] == '_' || findingType[9] == '_'
           || findingType[10] == '_';
  }

  /** Every row is filed under the key of its own columns. */
  ghost predicate Keyed(t: Table) {
    forall fp :: fp in t ==> fp == Key(t[fp].repo, t[fp].path, t[fp].findingType, t[fp].ref)
  }

  predicate Open(t: Table, fp: Fingerprint) {
    fp in t && t[fp].resolvedAt.None?
  }

  // ---------------------------------------------------------------------------------------
  // The statements
  // ---------------------------------------------------------------------------------------

  /** INSERT, or bump last_seen, severity and message and reopen. */
  function Upserted(t: Table, repo: RepoId, f: Finding, now: Time): Table {
    var fp := KeyOf(repo, f);
    t[fp := if fp in t
            then t[fp].(lastSeen := now, severity := f.severity, message := f.message, resolvedAt := None)
            else Row(repo, f.path, f.findingType, f.ref, f.severity, f.message, now, now, None)]
  }

  /** NOT IN (seen or [""]). */
  predicate NotIn(fp: Fingerprint, seen: set<Fingerprint>) {
    fp !in if seen == {} then {""} else seen
  }

  function Resolved(t: Table, repo: RepoId, seen: set<Fingerprint>, now: Time): Table {
    map fp | fp in t ::
      if t[fp].repo == repo && t[fp].resolvedAt.None? && NotIn(fp, seen) then t[fp].(resolvedAt := Some(now)) else t[fp]
  }

  /** A finding and the moment its row is written. */
  datatype Sighting = Sighting(finding: Finding, at: Time)

  function AllUpserted(t: Table, repo: RepoId, sightings: seq<Sighting>): Table {
    if sightings == [] then t
    else
      var last := sightings[|sightings| - 1];
      Upserted(AllUpserted(t, repo, sightings[..|sightings| - 1]), repo, last.finding, last.at)
  }

  function Seen(repo: RepoId, sightings: seq<Sighting>): set<Fingerprint> {
    set s | s in sightings :: KeyOf(repo, s.finding)
  }

  /** The repository-level findings that the per-workflow pass has not written already, each once. */
  function NotYetSeen(repo: RepoId, seen: set<Fingerprint>, sightings: seq<Sighting>): seq<Sighting>
    decreases |sightings|
  {
    if sightings == [] then []
    else
      var fp := KeyOf(repo, sightings[0].finding);
      if fp in seen then NotYetSeen(repo, seen, sightings[1..])
      else [sightings[0]] + NotYetSeen(repo, seen + {fp}, sightings[1..])
  }

  /** One audit of a repository: what its workflows show, what dangles, and when the resolve pass runs. */
  datatype Audit = Audit(repo: RepoId, engine: seq<Sighting>, dangling: seq<Sighting>, at: Time)

  function Written(a: Audit): seq<Sighting> {
    a.engine + NotYetSeen(a.repo, Seen(a.repo, a.engine), a.dangling)
  }

  /** The fingerprints an audit sees. */
  function SeenBy(a: Audit): set<Fingerprint> {
    Seen(a.repo, a.engine + a.dangling)
  }

  function Audited(t: Table, a: Audit): Table {
    Resolved(AllUpserted(t, a.repo, Written(a)), a.repo, SeenBy(a), a.at)
  }

  // ---------------------------------------------------------------------------------------
  // What the statements keep
  // ---------------------------------------------------------------------------------------

  /** The later table still has every row, with its identity and first sighting. */
  ghost predicate Extends(t: Table, t': Table) {
    forall fp :: fp in t ==>
      && fp in t' && t'[fp].repo == t[fp].repo && t'[fp].path == t[fp].path && t'[fp].ref == t[fp].ref
      && t'[fp].findingType == t[fp].findingType && t'[fp].firstSeen == t[fp].firstSeen
  }

  /** Only rows of one repository differ. */
  ghost predicate OnlyRepo(t: Table, t': Table, repo: RepoId) {
    forall fp :: fp in t' && t'[fp].repo != repo ==> fp in t && t'[fp] == t[fp]
  }

  /** What every write to one repository's findings keeps. */
  ghost predicate Keeps(t: Table, t': Table, repo: RepoId) {
    Keyed(t') && Extends(t, t') && OnlyRepo(t, t', repo)
  }

  lemma UpsertKeeps(t: Table, repo: RepoId, f: Finding, now: Time)
    requires Keyed(t)
    ensures Keeps(t, Upserted(t, repo, f, now), repo)
    ensures Open(Upserted(t, repo, f, now), KeyOf(repo, f)) && Upserted(t, repo, f, now)[KeyOf(repo, f)].repo == repo
  {
    var fp := KeyOf(repo, f);
    if fp in t {
      KeyNamesRepo(repo, f.path, f.findingType, f.ref, t[fp].repo, t[fp].path, t[fp].findingType, t[fp].ref);
    }
  }

  lemma ResolveKeeps(t: Table, repo: RepoId, seen: set<Fingerprint>, now: Time)
    requires Keyed(t)
    ensures Keeps(t, Resolved(t, repo, seen, now), repo)
  {
  }

  lemma KeepsTransitive(t: Table, t': Table, t'': Table, repo: RepoId)
    requires Keeps(t, t', repo) && Keeps(t', t'', repo)
    ensures Keeps(t, t'', repo)
  {
    hide Key;
  }

  lemma {:induction false} AllUpsertedKeeps(t: Table, repo: RepoId, sightings: seq<Sighting>)
    requires Keyed(t)
    ensures Keeps(t, AllUpserted(t, repo, sightings), repo)
  {
    if sightings != [] {
      var before, last := sightings[..|sightings| - 1], sightings[|sightings| - 1];
      AllUpsertedKeeps(t, repo, before);
      var u := AllUpserted(t, repo, before);
      UpsertKeeps(u, repo, last.finding, last.at);
      KeepsTransitive(t, u, Upserted(u, repo, last.finding, last.at), repo);
    }
  }

  /** After the upserts the sighted rows are open, and no other row has changed. */
  lemma {:induction false} AllUpsertedOpens(t: Table, repo: RepoId, sightings: seq<Sighting>)
    requires Keyed(t)
    ensures forall fp :: fp in Seen(repo, sightings) ==>
      Open(AllUpserted(t, repo, sightings), fp) && AllUpserted(t, repo, sightings)[fp].repo == repo
    ensures forall fp :: fp in AllUpserted(t, repo, sightings) && fp !in Seen(repo, sightings) ==>
      fp in t && AllUpserted(t, repo, sightings)[fp] == t[fp]
  {
    hide Key, KeyOf, Keeps, Keyed;
    if sightings != [] {
      var before, last := sightings[..|sightings| - 1], sightings[|sightings| - 1];
      AllUpsertedKeeps(t, repo, before);
      AllUpsertedOpens(t, repo, before);
      UpsertKeeps(AllUpserted(t, repo, before), repo, last.finding, last.at);
      SeenGrows(repo, before, last);
      assert sightings == before + [last];
    }
  }

  /** x is sighted at i, and not after that. */
  ghost predicate IsLastSighting(repo: RepoId, sightings: seq<Sighting>, fp: Fingerprint, i: nat) {
    && i < |sightings| && KeyOf(repo, sightings[i].finding) == fp
    && forall j :: i < j < |sightings| ==> KeyOf(repo, sightings[j].finding) != fp
  }

  ghost predicate IsFirstSighting(repo: RepoId, sightings: seq<Sighting>, fp: Fingerprint, i: nat) {
    && i < |sightings| && KeyOf(repo, sightings[i].finding) == fp
    && forall j :: 0 <= j < i ==> KeyOf(repo, sightings[j].finding) != fp
  }

  /**
   What a sighted row shows: the severity, the message and the moment of its last sighting; a
   row that is new keeps the moment of its first.
   */
  lemma {:induction false} LastSightingShows(t: Table, repo: RepoId, sightings: seq<Sighting>, fp: Fingerprint)
      returns (first: nat, last: nat)
    requires fp in Seen(repo, sightings)
    ensures IsFirstSighting(repo, sightings, fp, first) && IsLastSighting(repo, sightings, fp, last)
    ensures fp in AllUpserted(t, repo, sightings)
    ensures var row := AllUpserted(t, repo, sightings)[fp];
      && row.severity == sightings[last].finding.severity && row.message == sightings[last].finding.message
      && row.lastSeen == sightings[last].at
      && row.firstSeen == if fp in t then t[fp].firstSeen else sightings[first].at
  {
    hide KeyOf;
    var n := |sightings| - 1;
    var before := sightings[..n];
    assert sightings == before + [sightings[n]];
    SeenGrows(repo, before, sightings[n]);
    if fp in Seen(repo, before) {
      first, last := LastSightingShows(t, repo, before, fp);
      if KeyOf(repo, sightings[n].finding) == fp {
        last := n;
      }
    } else {
      NotSeenUntouched(t, repo, before, fp);
      first, last := n, n;
    }
  }

  lemma {:induction false} NotSeenUntouched(t: Table, repo: RepoId, sightings: seq<Sighting>, fp: Fingerprint)
    requires fp !in Seen(repo, sightings)
    ensures fp in AllUpserted(t, repo, sightings) <==> fp in t
    ensures fp in t ==> AllUpserted(t, repo, sightings)[fp] == t[fp]
    ensures forall j :: 0 <= j < |sightings| ==> KeyOf(repo, sightings[j].finding) != fp
  {
    hide KeyOf;
    if sightings != [] {
      var n := |sightings| - 1;
      assert sightings == sightings[..n] + [sightings[n]];
      SeenGrows(repo, sightings[..n], sightings[n]);
      NotSeenUntouched(t, repo, sightings[..n], fp);
    }
  }

  lemma SeenGrows(repo: RepoId, before: seq<Sighting>, s: Sighting)
    ensures Seen(repo, before + [s]) == Seen(repo, before) + {KeyOf(repo, s.finding)}
  {
  }

  lemma {:induction false} NotYetSeenCovers(repo: RepoId, seen: set<Fingerprint>, sightings: seq<Sighting>)
    ensures seen + Seen(repo, NotYetSeen(repo, seen, sightings)) == seen + Seen(repo, sightings)
    decreases |sightings|
  {
    if sightings != [] {
      var fp := KeyOf(repo, sightings[0].finding);
      assert sightings == [sightings[0]] + sightings[1..];
      assert Seen(repo, sightings) == {fp} + Seen(repo, sightings[1..]);
      if fp in seen {
        NotYetSeenCovers(repo, seen, sightings[1..]);
      } else {
        NotYetSeenCovers(repo, seen + {fp}, sightings[1..]);
        var rest := NotYetSeen(repo, seen + {fp}, sightings[1..]);
        assert Seen(repo, [sightings[0]] + rest) == {fp} + Seen(repo, rest);
      }
    }
  }

  lemma SeenSplits(repo: RepoId, a: seq<Sighting>, b: seq<Sighting>)
    ensures Seen(repo, a + b) == Seen(repo, a) + Seen(repo, b)
  {
  }

  lemma WrittenIsSeen(a: Audit)
    ensures Seen(a.repo, Written(a)) == SeenBy(a)
  {
    var extra := NotYetSeen(a.repo, Seen(a.repo, a.engine), a.dangling);
    NotYetSeenCovers(a.repo, Seen(a.repo, a.engine), a.dangling);
    SeenSplits(a.repo, a.engine, extra);
    SeenSplits(a.repo, a.engine, a.dangling);
  }

  /**
   An audit leaves open, of its own repository, exactly the fingerprints it saw; it touches no
   other repository; rows are never dropped, re-identified or given a new first sighting.
   */
  lemma AuditOpensExactlySeen(t: Table, a: Audit)
    requires Keyed(t)
    ensures Keeps(t, Audited(t, a), a.repo)
    ensures forall fp :: fp in SeenBy(a) <==> Open(Audited(t, a), fp) && Audited(t, a)[fp].repo == a.repo
  {
    hide Keyed, AllUpserted, Written, SeenBy, KeyOf;
    var u := AllUpserted(t, a.repo, Written(a));
    AllUpsertedKeeps(t, a.repo, Written(a));
    AllUpsertedOpens(t, a.repo, Written(a));
    WrittenIsSeen(a);
    ResolveKeeps(u, a.repo, SeenBy(a), a.at);
    KeepsTransitive(t, u, Audited(t, a), a.repo);
    NoEmptyKey(u);
  }

  lemma NoEmptyKey(t: Table)
    requires Keyed(t)
    ensures "" !in t
  {
  }

  // ---------------------------------------------------------------------------------------
  // The table object
  // ---------------------------------------------------------------------------------------

  class FindingsTable {
    var rows: Table

    constructor ()
      ensures rows == map[] && Keyed(rows)
    {
      rows := map[];
    }

    /** INSERT ... ON CONFLICT (fingerprint) DO UPDATE. */
    method UpsertFinding(repo: RepoId, f: Finding, now: Time)
      modifies this
      ensures rows == Upserted(old(rows), repo, f, now)
      ensures var fp := KeyOf(repo, f);
        && Open(rows, fp) && rows[fp].severity == f.severity && rows[fp].message == f.message
        && rows[fp].lastSeen == now
        && rows[fp].firstSeen == if fp in old(rows) then old(rows)[fp].firstSeen else now
      ensures forall fp :: fp != KeyOf(repo, f) ==>
        (fp in rows <==> fp in old(rows)) && (fp in rows ==> rows[fp] == old(rows)[fp])
      ensures Keyed(old(rows)) ==> Keeps(old(rows), rows, repo)
    {
      hide Keyed, Keeps, Key;
      if Keyed(rows) {
        UpsertKeeps(rows, repo, f, now);
      }
      var fp := KeyOf(repo, f);
      if fp in rows {
        var row := rows[fp];
        rows := rows[fp := row.(lastSeen := now, severity := f.severity, message := f.message, resolvedAt := None)];
      } else {
        rows := rows[fp := Row(repo, f.path, f.findingType, f.ref, f.severity, f.message, now, now, None)];
      }
    }

    /** UPDATE ... SET resolved_at on the open findings of the repository that were not seen. */
    method ResolveStaleFindings(repo: RepoId, seen: set<Fingerprint>, now: Time)
      modifies this
      ensures rows == Resolved(old(rows), repo, seen, now)
      ensures rows.Keys == old(rows).Keys
      ensures forall fp :: fp in rows && (Open(rows, fp) || !Open(old(rows), fp)) ==> rows[fp] == old(rows)[fp]
      ensures forall fp :: fp in rows && !Open(rows, fp) && Open(old(rows), fp) ==>
        rows[fp] == old(rows)[fp].(resolvedAt := Some(now))
      ensures Keyed(old(rows)) ==> forall fp :: Open(rows, fp) <==>
        Open(old(rows), fp) && (old(rows)[fp].repo != repo || fp in seen)
      ensures Keyed(old(rows)) ==> Keeps(old(rows), rows, repo)
    {
      hide Keyed, Keeps, Key;
      if Keyed(rows) {
        ResolveKeeps(rows, repo, seen, now);
        NoEmptyKey(rows);
      }
      rows := Resolved(rows, repo, seen, now);
    }

    /** The database phase of an audit. Returns how many findings were written. */
    method AuditRepo(a: Audit) returns (written: nat)
      modifies this
      ensures rows == Audited(old(rows), a)
      ensures written == |Written(a)|
    {
      hide *;
      var seen: set<Fingerprint> := {};
      ghost var done: seq<Sighting> := [];
      written := 0;
      NothingSeen(rows, a);
      assert a.dangling[0..] == a.dangling && a.dangling[|a.dangling|..] == [];
      assert a.engine[..|a.engine|] == a.engine;
      for k := 0 to |a.engine|
        invariant done == a.engine[..k] && written == |done|
        invariant seen == Seen(a.repo, done)
        invariant rows == AllUpserted(old(rows), a.repo, done)
      {
        var s := a.engine[k];
        OneMoreSighting(rows, old(rows), a.repo, done, s);
        seen := seen + {KeyOf(a.repo, s.finding)};
        UpsertFinding(a.repo, s.finding, s.at);
        written := written + 1;
        done := done + [s];
      }
      for k := 0 to |a.dangling|
        invariant done + NotYetSeen(a.repo, seen, a.dangling[k..]) == Written(a) && written == |done|
        invariant seen == Seen(a.repo, done)
        invariant rows == AllUpserted(old(rows), a.repo, done)
      {
        var s := a.dangling[k];
        var fp := KeyOf(a.repo, s.finding);
        NextDangling(a.repo, seen, a.dangling, k, done);
        if fp in seen {
          continue;
        }
        OneMoreSighting(rows, old(rows), a.repo, done, s);
        seen := seen + {fp};
        UpsertFinding(a.repo, s.finding, s.at);
        written := written + 1;
        done := done + [s];
      }
      assert done + [] == done;
      WrittenIsSeen(a);
      ResolveStaleFindings(a.repo, seen, a.at);
    }
  }

  lemma NothingSeen(t: Table, a: Audit)
    ensures Seen(a.repo, []) == {} && AllUpserted(t, a.repo, []) == t
    ensures Written(a) == a.engine + NotYetSeen(a.repo, Seen(a.repo, a.engine), a.dangling)
    ensures forall seen :: NotYetSeen(a.repo, seen, []) == []
    ensures Audited(t, a) == Resolved(AllUpserted(t, a.repo, Written(a)), a.repo, SeenBy(a), a.at)
  {
  }

  lemma NextDangling(repo: RepoId, seen: set<Fingerprint>, dangling: seq<Sighting>, k: nat, done: seq<Sighting>)
    requires k < |dangling|
    ensures var fp := KeyOf(repo, dangling[k].finding);
      done + NotYetSeen(repo, seen, dangling[k..]) ==
      if fp in seen then done + NotYetSeen(repo, seen, dangling[k + 1..])
      else (done + [dangling[k]]) + NotYetSeen(repo, seen + {fp}, dangling[k + 1..])
  {
  }

  lemma OneMoreSighting(t: Table, start: Table, repo: RepoId, done: seq<Sighting>, s: Sighting)
    requires t == AllUpserted(start, repo, done)
    ensures AllUpserted(start, repo, done + [s]) == Upserted(t, repo, s.finding, s.at)
    ensures Seen(repo, done + [s]) == Seen(repo, done) + {KeyOf(repo, s.finding)}
  {
  }
}
