/**
 The verified-closed loop: a campaign snapshots the open findings it sets out to close; later
 the roll-up joins that snapshot to the live table and counts what is closed by now.
 */
module VerifiedClosed {
  import opened Common
  import opened Findings
  import opened FindingHistory

  type CampaignId = int
  datatype Target = Target(repo: RepoId, findingType: string, severity: Severity)

  /** campaign_findings, unique by campaign and fingerprint. */
  type Snapshots = map<(CampaignId, Fingerprint), Target>

  // ---------------------------------------------------------------------------------------
  // The snapshot
  // ---------------------------------------------------------------------------------------

  function Selected(t: Table, repos: set<RepoId>, types: set<string>): set<Fingerprint> {
    set fp | fp in t && t[fp].resolvedAt.None? && t[fp].repo in repos && t[fp].findingType in types
  }

  function TargetOf(row: Row): Target {
    Target(row.repo, row.findingType, row.severity)
  }

  /** INSERT ... ON CONFLICT (campaign_id, fingerprint) DO NOTHING. */
  function Snapshotted(snaps: Snapshots, t: Table, c: CampaignId, repos: set<RepoId>, types: set<string>): Snapshots {
    (map fp | fp in Selected(t, repos, types) :: (c, fp) := TargetOf(t[fp])) + snaps
  }

  class CampaignFindings {
    var rows: Snapshots

    constructor ()
      ensures rows == map[]
    {
      rows := map[];
    }

    /** Records the open findings a campaign targets; returns how many matched. */
    method SnapshotCampaignFindings(t: Table, c: CampaignId, repos: set<RepoId>, types: set<string>)
        returns (count: nat)
      modifies this
      ensures rows == Snapshotted(old(rows), t, c, repos, types)
      ensures count == |Selected(t, repos, types)|
      ensures Targets(rows, c) == Targets(old(rows), c) + Selected(t, repos, types)
      ensures forall k :: k in old(rows) ==> k in rows && rows[k] == old(rows)[k]
      ensures forall k :: k in rows && k !in old(rows) ==>
        k.0 == c && k.1 in Selected(t, repos, types) && rows[k] == TargetOf(t[k.1])
      ensures forall fp :: (c, fp) in rows && (c, fp) !in old(rows) <==>
        (c, fp) !in old(rows)
        && fp in t && t[fp].resolvedAt == None && t[fp].repo in repos && t[fp].findingType in types
      ensures forall fp :: (c, fp) in rows && (c, fp) !in old(rows) ==>
        rows[(c, fp)] == Target(t[fp].repo, t[fp].findingType, t[fp].severity)
      ensures Anchored(old(rows), t) ==> Anchored(rows, t)
    {
      SnapshotAdds(rows, t, c, repos, types);
      SnapshotTakes(rows, t, c, repos, types);
      hide Snapshotted, Anchored, Targets;
      if repos == {} || types == {} {
        assert Selected(t, repos, types) == {};
        return 0;
      }
      rows := Snapshotted(rows, t, c, repos, types);
      count := |Selected(t, repos, types)|;
    }
  }

  /** Every fingerprint the campaign snapshotted. */
  function Targets(snaps: Snapshots, c: CampaignId): set<Fingerprint> {
    set k | k in snaps && k.0 == c :: k.1
  }

  /** The inner join of the snapshot with the live table. */
  function Joined(snaps: Snapshots, t: Table, c: CampaignId): set<Fingerprint> {
    set k | k in snaps && k.0 == c && k.1 in t :: k.1
  }

  /** The joined fingerprints whose row is resolved. */
  function Closed(snaps: Snapshots, t: Table, c: CampaignId): set<Fingerprint> {
    set k | k in snaps && k.0 == c && k.1 in t && t[k.1].resolvedAt.Some? :: k.1
  }

  // ---------------------------------------------------------------------------------------
  // The roll-up
  // ---------------------------------------------------------------------------------------

  datatype Group = Group(repo: RepoId, findingType: string, targeted: nat, resolved: nat)

  type GroupKey = (RepoId, string)

  function KeyOfGroup(g: Group): GroupKey { (g.repo, g.findingType) }
  function KeyOfTarget(snaps: Snapshots, c: CampaignId, fp: Fingerprint): GroupKey {
    if (c, fp) in snaps then (snaps[(c, fp)].repo, snaps[(c, fp)].findingType) else (0, "")
  }

  /** The members of a set of fingerprints that fall in a group. */
  function InGroup(snaps: Snapshots, c: CampaignId, s: set<Fingerprint>, key: GroupKey): set<Fingerprint> {
    set fp | fp in s && KeyOfTarget(snaps, c, fp) == key
  }

  /** What GROUP BY repo_id, finding_type returns, in whatever order. */
  ghost predicate IsGrouped(groups: seq<Group>, snaps: Snapshots, t: Table, c: CampaignId) {
    && (forall i, j :: 0 <= i < j < |groups| ==> KeyOfGroup(groups[i]) != KeyOfGroup(groups[j]))
    && (forall g :: g in groups ==>
          && g.targeted == |InGroup(snaps, c, Joined(snaps, t, c), KeyOfGroup(g))|
          && g.resolved == |InGroup(snaps, c, Closed(snaps, t, c), KeyOfGroup(g))|)
    && (forall fp :: fp in Joined(snaps, t, c) ==>
          exists g :: g in groups && KeyOfGroup(g) == KeyOfTarget(snaps, c, fp))
  }

  /** One entry of by_repo or by_type. */
  datatype Roll<K> = Roll(key: K, targeted: nat, resolved: nat)

  /** setdefault, then += on both counters. */
  function Add<K(==)>(rolls: seq<Roll<K>>, key: K, targeted: nat, resolved: nat): seq<Roll<K>> {
    if rolls == [] then [Roll(key, targeted, resolved)]
    else if rolls[0].key == key then
      [Roll(key, rolls[0].targeted + targeted, rolls[0].resolved + resolved)] + rolls[1..]
    else [rolls[0]] + Add(rolls[1..], key, targeted, resolved)
  }

  function RollUp<K(==)>(groups: seq<Group>, key: Group -> K): seq<Roll<K>> {
    if groups == [] then []
    else
      var last := groups[|groups| - 1];
      Add(RollUp(groups[..|groups| - 1], key), key(last), last.targeted, last.resolved)
  }

  function SumRolls<K>(rolls: seq<Roll<K>>): (nat, nat) {
    if rolls == [] then (0, 0)
    else var rest := SumRolls(rolls[1..]); (rolls[0].targeted + rest.0, rolls[0].resolved + rest.1)
  }

  /** The totals over the groups a selection picks. */
  function SumGroups(groups: seq<Group>, pick: Group -> bool): (nat, nat) {
    if groups == [] then (0, 0)
    else
      var last := groups[|groups| - 1];
      var rest := SumGroups(groups[..|groups| - 1], pick);
      if pick(last) then (rest.0 + last.targeted, rest.1 + last.resolved) else rest
  }

  lemma {:induction false} AddSums<K>(rolls: seq<Roll<K>>, key: K, targeted: nat, resolved: nat)
    ensures SumRolls(Add(rolls, key, targeted, resolved)) ==
      (SumRolls(rolls).0 + targeted, SumRolls(rolls).1 + resolved)
  {
    if rolls != [] && rolls[0].key != key {
      AddSums(rolls[1..], key, targeted, resolved);
      assert Add(rolls, key, targeted, resolved)[1..] == Add(rolls[1..], key, targeted, resolved);
    } else if rolls != [] {
      assert Add(rolls, key, targeted, resolved)[1..] == rolls[1..];
    }
  }

  /** The entry a key has, or zeros. */
  function EntryOf<K(==)>(rolls: seq<Roll<K>>, key: K): (nat, nat) {
    if rolls == [] then (0, 0)
    else if rolls[0].key == key then (rolls[0].targeted, rolls[0].resolved)
    else EntryOf(rolls[1..], key)
  }

  lemma {:induction false} AddEntry<K>(rolls: seq<Roll<K>>, key: K, targeted: nat, resolved: nat, other: K)
    ensures EntryOf(Add(rolls, key, targeted, resolved), other) ==
      if other == key then (EntryOf(rolls, key).0 + targeted, EntryOf(rolls, key).1 + resolved)
      else EntryOf(rolls, other)
  {
    if rolls != [] {
      if rolls[0].key == key {
        assert Add(rolls, key, targeted, resolved)[1..] == rolls[1..];
      } else {
        AddEntry(rolls[1..], key, targeted, resolved, other);
        assert Add(rolls, key, targeted, resolved)[1..] == Add(rolls[1..], key, targeted, resolved);
      }
    }
  }

  lemma {:induction false} RollUpSums<K>(groups: seq<Group>, key: Group -> K)
    ensures SumRolls(RollUp(groups, key)) == SumGroups(groups, g => true)
  {
    if groups != [] {
      var last := groups[|groups| - 1];
      RollUpSums(groups[..|groups| - 1], key);
      AddSums(RollUp(groups[..|groups| - 1], key), key(last), last.targeted, last.resolved);
    }
  }

  lemma {:induction false} RollUpEntries<K>(groups: seq<Group>, key: Group -> K, k: K, pick: Group -> bool)
    requires forall g :: pick(g) <==> key(g) == k
    ensures EntryOf(RollUp(groups, key), k) == SumGroups(groups, pick)
  {
    if groups != [] {
      var last := groups[|groups| - 1];
      RollUpEntries(groups[..|groups| - 1], key, k, pick);
      AddEntry(RollUp(groups[..|groups| - 1], key), key(last), last.targeted, last.resolved, k);
    }
  }

  /** Members whose group key is one of these groups' and is picked. */
  function Picked(snaps: Snapshots, c: CampaignId, s: set<Fingerprint>, groups: seq<Group>, pick: Group -> bool)
    : set<Fingerprint>
  {
    set fp, g | fp in s && g in groups && pick(g) && KeyOfTarget(snaps, c, fp) == KeyOfGroup(g) :: fp
  }

  lemma PickOneMore(snaps: Snapshots, c: CampaignId, s: set<Fingerprint>, groups: seq<Group>, last: Group,
                    pick: Group -> bool)
    requires forall g :: g in groups ==> KeyOfGroup(g) != KeyOfGroup(last)
    ensures |Picked(snaps, c, s, groups + [last], pick)| ==
      |Picked(snaps, c, s, groups, pick)| + if pick(last) then |InGroup(snaps, c, s, KeyOfGroup(last))| else 0
  {
    hide KeyOfTarget, KeyOfGroup;
    var before, after := Picked(snaps, c, s, groups, pick), Picked(snaps, c, s, groups + [last], pick);
    var own := InGroup(snaps, c, s, KeyOfGroup(last));
    if pick(last) {
      assert last in groups + [last];
      assert after == before + own;
      assert before !! own;
    } else {
      assert after == before;
    }
  }

  lemma PickNone(snaps: Snapshots, c: CampaignId, s: set<Fingerprint>, pick: Group -> bool)
    ensures Picked(snaps, c, s, [], pick) == {}
  {
  }

  /** Adding up disjoint groups counts their members. */
  lemma {:induction false} SumIsCount(groups: seq<Group>, snaps: Snapshots, c: CampaignId, joined: set<Fingerprint>,
                                      closed: set<Fingerprint>, pick: Group -> bool)
    requires forall i, j :: 0 <= i < j < |groups| ==> KeyOfGroup(groups[i]) != KeyOfGroup(groups[j])
    requires forall g :: g in groups ==>
      && g.targeted == |InGroup(snaps, c, joined, KeyOfGroup(g))|
      && g.resolved == |InGroup(snaps, c, closed, KeyOfGroup(g))|
    ensures SumGroups(groups, pick) ==
      (|Picked(snaps, c, joined, groups, pick)|, |Picked(snaps, c, closed, groups, pick)|)
  {
    hide KeyOfGroup, InGroup, Picked;
    if groups == [] {
      PickNone(snaps, c, joined, pick);
      PickNone(snaps, c, closed, pick);
    } else {
      var before, last := groups[..|groups| - 1], groups[|groups| - 1];
      SumIsCount(before, snaps, c, joined, closed, pick);
      PickOneMore(snaps, c, joined, before, last, pick);
      PickOneMore(snaps, c, closed, before, last, pick);
      assert groups == before + [last];
    }
  }

  function ByRepo(g: Group): RepoId { g.repo }
  function ByType(g: Group): string { g.findingType }

  /** The targeted fingerprints of one repository, or of one type. */
  function OfRepo(snaps: Snapshots, c: CampaignId, s: set<Fingerprint>, repo: RepoId): set<Fingerprint> {
    set fp | fp in s && KeyOfTarget(snaps, c, fp).0 == repo
  }

  function OfType(snaps: Snapshots, c: CampaignId, s: set<Fingerprint>, findingType: string): set<Fingerprint> {
    set fp | fp in s && KeyOfTarget(snaps, c, fp).1 == findingType
  }

  /**
   The roll-up counts each targeted fingerprint once: its totals are the sizes of the join and
   of its closed part, every entry of by_repo and by_type is the size of its share, and each
   breakdown adds up to the totals.
   */
  ghost predicate IsVerification(snaps: Snapshots, t: Table, c: CampaignId, targeted: nat, resolved: nat,
                                 byRepo: seq<Roll<RepoId>>, byType: seq<Roll<string>>)
  {
    var joined, closed := Joined(snaps, t, c), Closed(snaps, t, c);
    && targeted == |joined| && resolved == |closed|
    && SumRolls(byRepo) == (targeted, resolved) && SumRolls(byType) == (targeted, resolved)
    && (forall repo :: EntryOf(byRepo, repo) == (|OfRepo(snaps, c, joined, repo)|, |OfRepo(snaps, c, closed, repo)|))
    && (forall ty :: EntryOf(byType, ty) == (|OfType(snaps, c, joined, ty)|, |OfType(snaps, c, closed, ty)|))
  }

  lemma ClosedIsJoined(snaps: Snapshots, t: Table, c: CampaignId)
    ensures Closed(snaps, t, c) <= Joined(snaps, t, c)
  {
  }

  lemma PickedIsAll(groups: seq<Group>, snaps: Snapshots, t: Table, c: CampaignId, s: set<Fingerprint>)
    requires IsGrouped(groups, snaps, t, c) && s <= Joined(snaps, t, c)
    ensures Picked(snaps, c, s, groups, g => true) == s
  {
    hide InGroup, KeyOfGroup, KeyOfTarget, Joined, Closed;
  }

  lemma PickedIsRepo(groups: seq<Group>, snaps: Snapshots, t: Table, c: CampaignId, s: set<Fingerprint>, repo: RepoId,
                     pick: Group -> bool)
    requires IsGrouped(groups, snaps, t, c) && s <= Joined(snaps, t, c)
    requires forall g :: pick(g) <==> ByRepo(g) == repo
    ensures Picked(snaps, c, s, groups, pick) == OfRepo(snaps, c, s, repo)
  {
    hide InGroup, KeyOfTarget, Joined, Closed;
  }

  lemma PickedIsType(groups: seq<Group>, snaps: Snapshots, t: Table, c: CampaignId, s: set<Fingerprint>, ty: string,
                     pick: Group -> bool)
    requires IsGrouped(groups, snaps, t, c) && s <= Joined(snaps, t, c)
    requires forall g :: pick(g) <==> ByType(g) == ty
    ensures Picked(snaps, c, s, groups, pick) == OfType(snaps, c, s, ty)
  {
    hide InGroup, KeyOfTarget, Joined, Closed;
  }

  /** However the database lists its groups, rolling them up gives the verification. */
  lemma RollUpVerifies(groups: seq<Group>, snaps: Snapshots, t: Table, c: CampaignId)
    requires IsGrouped(groups, snaps, t, c)
    ensures var total := SumGroups(groups, g => true);
      IsVerification(snaps, t, c, total.0, total.1, RollUp(groups, ByRepo), RollUp(groups, ByType))
  {
    var joined, closed := Joined(snaps, t, c), Closed(snaps, t, c);
    ClosedIsJoined(snaps, t, c);
    SumIsCount(groups, snaps, c, joined, closed, g => true);
    PickedIsAll(groups, snaps, t, c, joined);
    PickedIsAll(groups, snaps, t, c, closed);
    RollUpSums(groups, ByRepo);
    RollUpSums(groups, ByType);
    forall repo
      ensures EntryOf(RollUp(groups, ByRepo), repo) ==
        (|OfRepo(snaps, c, joined, repo)|, |OfRepo(snaps, c, closed, repo)|)
    {
      RepoEntry(groups, snaps, t, c, repo);
    }
    forall ty
      ensures EntryOf(RollUp(groups, ByType), ty) == (|OfType(snaps, c, joined, ty)|, |OfType(snaps, c, closed, ty)|)
    {
      TypeEntry(groups, snaps, t, c, ty);
    }
  }

  lemma RepoEntry(groups: seq<Group>, snaps: Snapshots, t: Table, c: CampaignId, repo: RepoId)
    requires IsGrouped(groups, snaps, t, c)
    ensures EntryOf(RollUp(groups, ByRepo), repo) ==
      (|OfRepo(snaps, c, Joined(snaps, t, c), repo)|, |OfRepo(snaps, c, Closed(snaps, t, c), repo)|)
  {
    var joined, closed := Joined(snaps, t, c), Closed(snaps, t, c);
    var pick := g => ByRepo(g) == repo;
    ClosedIsJoined(snaps, t, c);
    RollUpEntries(groups, ByRepo, repo, pick);
    SumIsCount(groups, snaps, c, joined, closed, pick);
    PickedIsRepo(groups, snaps, t, c, joined, repo, pick);
    PickedIsRepo(groups, snaps, t, c, closed, repo, pick);
  }

  lemma TypeEntry(groups: seq<Group>, snaps: Snapshots, t: Table, c: CampaignId, ty: string)
    requires IsGrouped(groups, snaps, t, c)
    ensures EntryOf(RollUp(groups, ByType), ty) ==
      (|OfType(snaps, c, Joined(snaps, t, c), ty)|, |OfType(snaps, c, Closed(snaps, t, c), ty)|)
  {
    var joined, closed := Joined(snaps, t, c), Closed(snaps, t, c);
    var pick := g => ByType(g) == ty;
    ClosedIsJoined(snaps, t, c);
    RollUpEntries(groups, ByType, ty, pick);
    SumIsCount(groups, snaps, c, joined, closed, pick);
    PickedIsType(groups, snaps, t, c, joined, ty, pick);
    PickedIsType(groups, snaps, t, c, closed, ty, pick);
  }

  /** So many of the campaign's fingerprints have a row and a target that satisfy p, each counted once. */
  ghost predicate Counts(n: nat, snaps: Snapshots, t: Table, c: CampaignId, p: (Target, Row) -> bool) {
    exists s: set<Fingerprint> ::
      |s| == n && forall fp :: fp in s <==> (c, fp) in snaps && fp in t && p(snaps[(c, fp)], t[fp])
  }

  /** What the numbers of a verification count. */
  lemma VerificationCounts(snaps: Snapshots, t: Table, c: CampaignId, targeted: nat, resolved: nat,
                           byRepo: seq<Roll<RepoId>>, byType: seq<Roll<string>>)
    requires IsVerification(snaps, t, c, targeted, resolved, byRepo, byType)
    ensures Counts(targeted, snaps, t, c, (x: Target, row: Row) => true)
    ensures Counts(resolved, snaps, t, c, (x: Target, row: Row) => row.resolvedAt.Some?)
    ensures forall repo ::
      && Counts(EntryOf(byRepo, repo).0, snaps, t, c, (x: Target, row: Row) => x.repo == repo)
      && Counts(EntryOf(byRepo, repo).1, snaps, t, c, (x: Target, row: Row) => x.repo == repo && row.resolvedAt.Some?)
    ensures forall ty ::
      && Counts(EntryOf(byType, ty).0, snaps, t, c, (x: Target, row: Row) => x.findingType == ty)
      && Counts(EntryOf(byType, ty).1, snaps, t, c,
                (x: Target, row: Row) => x.findingType == ty && row.resolvedAt.Some?)
  {
    var joined, closed := Joined(snaps, t, c), Closed(snaps, t, c);
    CountsAre(joined, snaps, t, c, (x: Target, row: Row) => true);
    CountsAre(closed, snaps, t, c, (x: Target, row: Row) => row.resolvedAt.Some?);
    forall repo
      ensures Counts(EntryOf(byRepo, repo).0, snaps, t, c, (x: Target, row: Row) => x.repo == repo)
      ensures Counts(EntryOf(byRepo, repo).1, snaps, t, c,
                     (x: Target, row: Row) => x.repo == repo && row.resolvedAt.Some?)
    {
      CountsAre(OfRepo(snaps, c, joined, repo), snaps, t, c, (x: Target, row: Row) => x.repo == repo);
      CountsAre(OfRepo(snaps, c, closed, repo), snaps, t, c,
                (x: Target, row: Row) => x.repo == repo && row.resolvedAt.Some?);
    }
    forall ty
      ensures Counts(EntryOf(byType, ty).0, snaps, t, c, (x: Target, row: Row) => x.findingType == ty)
      ensures Counts(EntryOf(byType, ty).1, snaps, t, c,
                     (x: Target, row: Row) => x.findingType == ty && row.resolvedAt.Some?)
    {
      CountsAre(OfType(snaps, c, joined, ty), snaps, t, c, (x: Target, row: Row) => x.findingType == ty);
      CountsAre(OfType(snaps, c, closed, ty), snaps, t, c,
                (x: Target, row: Row) => x.findingType == ty && row.resolvedAt.Some?);
    }
  }

  lemma CountsAre(s: set<Fingerprint>, snaps: Snapshots, t: Table, c: CampaignId, p: (Target, Row) -> bool)
    requires forall fp :: fp in s <==> (c, fp) in snaps && fp in t && p(snaps[(c, fp)], t[fp])
    ensures Counts(|s|, snaps, t, c, p)
  {
  }

  /** The roll-up of one campaign, from the rows of the grouped query. */
  method CampaignVerification(groups: seq<Group>, ghost snaps: Snapshots, ghost t: Table, ghost c: CampaignId)
      returns (targeted: nat, resolved: nat, byRepo: seq<Roll<RepoId>>, byType: seq<Roll<string>>)
    requires IsGrouped(groups, snaps, t, c)
    ensures IsVerification(snaps, t, c, targeted, resolved, byRepo, byType)
    ensures Counts(targeted, snaps, t, c, (x: Target, row: Row) => true)
    ensures Counts(resolved, snaps, t, c, (x: Target, row: Row) => row.resolvedAt.Some?)
    ensures forall repo ::
      && Counts(EntryOf(byRepo, repo).0, snaps, t, c, (x: Target, row: Row) => x.repo == repo)
      && Counts(EntryOf(byRepo, repo).1, snaps, t, c, (x: Target, row: Row) => x.repo == repo && row.resolvedAt.Some?)
    ensures forall ty ::
      && Counts(EntryOf(byType, ty).0, snaps, t, c, (x: Target, row: Row) => x.findingType == ty)
      && Counts(EntryOf(byType, ty).1, snaps, t, c,
                (x: Target, row: Row) => x.findingType == ty && row.resolvedAt.Some?)
  {
    hide IsGrouped, IsVerification, Add, InGroup, Joined, Closed, Counts, EntryOf;
    targeted, resolved, byRepo, byType := 0, 0, [], [];
    assert groups[..|groups|] == groups;
    for k := 0 to |groups|
      invariant (targeted, resolved) == SumGroups(groups[..k], g => true)
      invariant byRepo == RollUp(groups[..k], ByRepo)
      invariant byType == RollUp(groups[..k], ByType)
    {
      var r := groups[k];
      assert groups[..k + 1][..k] == groups[..k];
      targeted, resolved := targeted + r.targeted, resolved + r.resolved;
      byRepo := Add(byRepo, r.repo, r.targeted, r.resolved);
      byType := Add(byType, r.findingType, r.targeted, r.resolved);
    }
    RollUpVerifies(groups, snaps, t, c);
    VerificationCounts(snaps, t, c, targeted, resolved, byRepo, byType);
  }

  /** The list view: one grouped query over campaigns; a campaign that joins nothing is absent. */
  function CampaignVerificationCounts(snaps: Snapshots, t: Table, campaigns: set<CampaignId>)
    : map<CampaignId, (nat, nat)>
  {
    map c | c in campaigns && Joined(snaps, t, c) != {} :: (|Joined(snaps, t, c)|, |Closed(snaps, t, c)|)
  }

  /** The list view shows a campaign exactly when it targets something, with the totals of its roll-up. */
  lemma ListViewAgrees(snaps: Snapshots, t: Table, campaigns: set<CampaignId>, c: CampaignId, groups: seq<Group>)
    requires c in campaigns && IsGrouped(groups, snaps, t, c)
    ensures var total := SumGroups(groups, g => true);
      var counts := CampaignVerificationCounts(snaps, t, campaigns);
      (c in counts <==> total.0 > 0) && (c in counts ==> counts[c] == total)
  {
    RollUpVerifies(groups, snaps, t, c);
  }

  // ---------------------------------------------------------------------------------------
  // The roll-up over time
  // ---------------------------------------------------------------------------------------

  /** Every snapshotted fingerprint has a row, and the snapshot recorded that row's repository and type. */
  ghost predicate Anchored(snaps: Snapshots, t: Table) {
    forall k :: k in snaps ==>
      k.1 in t && t[k.1].repo == snaps[k].repo && t[k.1].findingType == snaps[k].findingType
  }

  /** A snapshot adds exactly the open findings selected, and changes nothing that was recorded. */
  lemma SnapshotAdds(snaps: Snapshots, t: Table, c: CampaignId, repos: set<RepoId>, types: set<string>)
    ensures var after := Snapshotted(snaps, t, c, repos, types);
      && Targets(after, c) == Targets(snaps, c) + Selected(t, repos, types)
      && (forall k :: k in snaps ==> k in after && after[k] == snaps[k])
      && (forall k :: k in after && k !in snaps ==>
            k.0 == c && k.1 in Selected(t, repos, types) && after[k] == TargetOf(t[k.1]))
      && (Anchored(snaps, t) ==> Anchored(after, t))
    ensures repos == {} || types == {} ==> Snapshotted(snaps, t, c, repos, types) == snaps
  {
    var after := Snapshotted(snaps, t, c, repos, types);
    forall fp | fp in Selected(t, repos, types)
      ensures fp in Targets(after, c)
    {
      assert (c, fp) in after;
    }
    forall fp | fp in Targets(snaps, c)
      ensures fp in Targets(after, c)
    {
      assert (c, fp) in after;
    }
  }

  lemma SnapshotTakes(snaps: Snapshots, t: Table, c: CampaignId, repos: set<RepoId>, types: set<string>)
    ensures var after := Snapshotted(snaps, t, c, repos, types);
      && (forall fp :: (c, fp) in after && (c, fp) !in snaps <==>
            (c, fp) !in snaps && fp in t && t[fp].resolvedAt == None && t[fp].repo in repos
            && t[fp].findingType in types)
      && (forall fp :: (c, fp) in after && (c, fp) !in snaps ==>
            fp in t && after[(c, fp)] == Target(t[fp].repo, t[fp].findingType, t[fp].severity))
  {
  }

  /** Taking a snapshot again changes nothing. */
  lemma SnapshotTwiceIsOnce(snaps: Snapshots, t: Table, c: CampaignId, repos: set<RepoId>, types: set<string>)
    ensures var after := Snapshotted(snaps, t, c, repos, types); Snapshotted(after, t, c, repos, types) == after
  {
  }

  /**
   After any later run of audits and ingests, a campaign still targets exactly what it
   snapshotted, and what counts as resolved is exactly the part of it whose rows are closed now.
   */
  lemma TargetedIsStable(snaps: Snapshots, t: Table, ops: seq<Op>, c: CampaignId)
    requires Keyed(t) && Anchored(snaps, t)
    ensures Joined(snaps, After(t, ops), c) == Targets(snaps, c)
    ensures forall fp :: fp in Closed(snaps, After(t, ops), c) <==> fp in Targets(snaps, c) && !Open(After(t, ops), fp)
    ensures Anchored(snaps, After(t, ops))
  {
    assert ops[..0] == [] && ops[..|ops|] == ops;
    RowsLive(t, ops, 0, |ops|);
    forall fp | fp in Targets(snaps, c)
      ensures fp in After(t, ops) && (c, fp) in snaps
    {
    }
    assert forall fp :: fp in Targets(snaps, c) <==> (c, fp) in snaps;
  }

  /** Every target's repository was audited after the snapshot, and nothing since could open or close the target. */
  ghost predicate Reaudited(snaps: Snapshots, t: Table, ops: seq<Op>, c: CampaignId, last: map<RepoId, nat>) {
    forall k :: k in snaps && k.0 == c ==>
      var repo := snaps[k].repo;
      && repo in last && last[repo] < |ops| && ops[last[repo]].AuditOp? && ops[last[repo]].audit.repo == repo
      && k.1 in t && forall j :: last[repo] < j < |ops| ==> LeavesRowAlone(ops[j], t[k.1])
  }

  /** Once every targeted repository is re-audited, the closures are exactly the targets those audits did not see. */
  lemma ReauditCountsUnseen(snaps: Snapshots, t: Table, ops: seq<Op>, c: CampaignId, last: map<RepoId, nat>)
    requires Keyed(t) && Anchored(snaps, t) && Reaudited(snaps, t, ops, c, last)
    ensures forall fp :: fp in Targets(snaps, c) ==>
      && (c, fp) in snaps && snaps[(c, fp)].repo in last && last[snaps[(c, fp)].repo] < |ops|
      && ops[last[snaps[(c, fp)].repo]].AuditOp?
    ensures Closed(snaps, After(t, ops), c) ==
      set fp | fp in Targets(snaps, c) && fp !in SeenBy(ops[last[snaps[(c, fp)].repo]].audit)
  {
    TargetedIsStable(snaps, t, ops, c);
    forall fp | fp in Targets(snaps, c)
      ensures (c, fp) in snaps
      ensures fp in Closed(snaps, After(t, ops), c) <==> fp !in SeenBy(ops[last[snaps[(c, fp)].repo]].audit)
    {
      assert (c, fp) in snaps;
      TargetIsDecided(snaps, t, ops, c, last, fp);
    }
  }

  lemma TargetIsDecided(snaps: Snapshots, t: Table, ops: seq<Op>, c: CampaignId, last: map<RepoId, nat>,
                        fp: Fingerprint)
    requires Keyed(t) && Anchored(snaps, t) && Reaudited(snaps, t, ops, c, last) && (c, fp) in snaps
    ensures Open(After(t, ops), fp) <==> fp in SeenBy(ops[last[snaps[(c, fp)].repo]].audit)
  {
    hide Keyed, SeenBy;
    assert ops[..0] == [] && ops[..|ops|] == ops;
    RowsLive(t, ops, 0, |ops|);
    LastAuditDecides(t, ops, last[snaps[(c, fp)].repo], fp);
  }

  /**
   Every target is a native row at a path without a colon, its repository was audited after the
   snapshot, and all that has happened there since are ingests that spare native rows.
   */
  ghost predicate NativeReaudited(snaps: Snapshots, t: Table, ops: seq<Op>, c: CampaignId, last: map<RepoId, nat>) {
    forall k :: k in snaps && k.0 == c ==>
      var repo := snaps[k].repo;
      && repo in last && last[repo] < |ops| && ops[last[repo]].AuditOp? && ops[last[repo]].audit.repo == repo
      && k.1 in t && t[k.1].findingType in NATIVE_TYPES && ':' !in OrEmpty(t[k.1].path)
      && forall j :: last[repo] < j < |ops| && RepoOf(ops[j]) == repo ==> SparesNative(ops[j])
  }

  /** What a campaign targets are native rows, so clean tool names are not needed for the count to be right. */
  lemma NativeReauditCountsUnseen(snaps: Snapshots, t: Table, ops: seq<Op>, c: CampaignId, last: map<RepoId, nat>)
    requires Keyed(t) && Anchored(snaps, t) && NativeReaudited(snaps, t, ops, c, last)
    ensures Reaudited(snaps, t, ops, c, last)
    ensures forall fp :: fp in Targets(snaps, c) ==>
      && (c, fp) in snaps && snaps[(c, fp)].repo in last && last[snaps[(c, fp)].repo] < |ops|
      && ops[last[snaps[(c, fp)].repo]].AuditOp?
    ensures Closed(snaps, After(t, ops), c) ==
      set fp | fp in Targets(snaps, c) && fp !in SeenBy(ops[last[snaps[(c, fp)].repo]].audit)
  {
    hide Keyed, SeenBy, SparesNative, LeavesRowAlone;
    forall k, j | k in snaps && k.0 == c && last[snaps[k].repo] < j < |ops|
      ensures LeavesRowAlone(ops[j], t[k.1])
    {
      NativeRowIsSpared(ops[j], t[k.1]);
    }
    ReauditCountsUnseen(snaps, t, ops, c, last);
  }

  /** The types each operation is expected to close. */
  const OPERATION_FINDING_TYPES := map[
    "pin-shas" := {"unpinned_action"},
    "set-permissions" := {"missing_permissions", "broad_permissions"},
    "add-concurrency" := {"missing_concurrency"},
    "bump-action-version" := {"deprecated_action"}]

  /** Each repository has been audited, and all that has happened to it since are ingests that spare native rows. */
  ghost predicate Audits(ops: seq<Op>, repos: set<RepoId>, last: map<RepoId, nat>) {
    forall repo :: repo in repos ==>
      && repo in last && last[repo] < |ops| && ops[last[repo]].AuditOp? && ops[last[repo]].audit.repo == repo
      && forall j :: last[repo] < j < |ops| && RepoOf(ops[j]) == repo ==> SparesNative(ops[j])
  }

  /**
   A campaign from start to end: of the findings that were open when it was created for an
   operation, it counts as closed exactly those that the last audits of its repositories did not see.
   */
  lemma OperationCountsUnseen(t: Table, ops: seq<Op>, c: CampaignId, repos: set<RepoId>, operation: string,
                              last: map<RepoId, nat>)
    requires Keyed(t) && operation in OPERATION_FINDING_TYPES && Audits(ops, repos, last)
    requires forall fp :: fp in t && t[fp].repo in repos ==> ':' !in OrEmpty(t[fp].path)
    ensures var selected := Selected(t, repos, OPERATION_FINDING_TYPES[operation]);
      Closed(Snapshotted(map[], t, c, repos, OPERATION_FINDING_TYPES[operation]), After(t, ops), c) ==
        set fp | fp in selected && fp !in SeenBy(ops[last[t[fp].repo]].audit)
  {
    hide Keyed, SeenBy, SparesNative, After;
    var types := OPERATION_FINDING_TYPES[operation];
    var snaps := Snapshotted(map[], t, c, repos, types);
    SnapshotAdds(map[], t, c, repos, types);
    assert types <= NATIVE_TYPES;
    NativeReauditCountsUnseen(snaps, t, ops, c, last);
    assert Targets(map[], c) == {};
  }
}
