/**
 The per-installation ETag cache: an ordered dictionary bounded by a number of entries and by
 the bytes of the bodies it holds, evicting the least recently used entries first.
 */
module EtagCache {
  import opened Common

  type Key = string
  type Etag = string
  type Body = string

  /** An entry as the dictionary stores it; `size` is the length of the body as received. */
  datatype Entry = Entry(key: Key, etag: Etag, body: Body, size: nat)

  // ---------------------------------------------------------------------------------------
  // The dictionary in iteration order, least recently used first
  // ---------------------------------------------------------------------------------------

  ghost predicate UniqueKeys(s: seq<Entry>) {
    forall i, j :: 0 <= i < j < |s| ==> s[i].key != s[j].key
  }

  function Bytes(s: seq<Entry>): nat {
    if s == [] then 0 else s[0].size + Bytes(s[1..])
  }

  function Find(s: seq<Entry>, key: Key): Option<Entry> {
    if s == [] then None else if s[0].key == key then Some(s[0]) else Find(s[1..], key)
  }

  /** The dictionary without a key. */
  function Remove(s: seq<Entry>, key: Key): seq<Entry> {
    if s == [] then [] else if s[0].key == key then s[1..] else [s[0]] + Remove(s[1..], key)
  }

  predicate Fits(s: seq<Entry>, cap: int, maxBytes: int) {
    |s| <= cap && Bytes(s) <= maxBytes
  }

  /** Pops from the old end while there is something to pop and a cap is exceeded. */
  function Evict(s: seq<Entry>, cap: int, maxBytes: int): seq<Entry> {
    if s == [] || Fits(s, cap, maxBytes) then s else Evict(s[1..], cap, maxBytes)
  }

  /** A read: a hit moves its entry to the recent end. */
  function Touched(s: seq<Entry>, key: Key): seq<Entry> {
    match Find(s, key)
    case None => s
    case Some(e) => Remove(s, key) + [e]
  }

  function Stored(s: seq<Entry>, e: Entry, cap: int, maxBytes: int): seq<Entry> {
    Evict(Remove(s, e.key) + [e], cap, maxBytes)
  }

  lemma {:induction false} FindFinds(s: seq<Entry>, key: Key)
    ensures Find(s, key).Some? ==> Find(s, key).value in s && Find(s, key).value.key == key
    ensures Find(s, key).None? ==> forall e :: e in s ==> e.key != key
  {
    if s != [] && s[0].key != key {
      FindFinds(s[1..], key);
      assert s == [s[0]] + s[1..];
    }
  }

  lemma {:induction false} FindsOnly(s: seq<Entry>, e: Entry)
    requires UniqueKeys(s) && e in s
    ensures Find(s, e.key) == Some(e)
  {
    assert s == [s[0]] + s[1..];
    if s[0] != e {
      FindsOnly(s[1..], e);
    }
  }

  lemma {:induction false} RemoveRemoves(s: seq<Entry>, key: Key)
    requires UniqueKeys(s)
    ensures UniqueKeys(Remove(s, key))
    ensures forall e :: e in Remove(s, key) <==> e in s && e.key != key
    ensures |Remove(s, key)| <= |s|
    ensures Bytes(Remove(s, key)) + (if Find(s, key).Some? then Find(s, key).value.size else 0) == Bytes(s)
  {
    if s != [] {
      assert s == [s[0]] + s[1..];
      if s[0].key == key {
        assert forall e :: e in s[1..] ==> e.key != key;
      } else {
        RemoveRemoves(s[1..], key);
        var r := Remove(s[1..], key);
        assert Remove(s, key) == [s[0]] + r;
        assert UniqueKeys([s[0]] + r) by {
          assert forall e :: e in r ==> e.key != s[0].key;
        }
      }
    }
  }

  lemma {:induction false} BytesAppend(s: seq<Entry>, e: Entry)
    ensures Bytes(s + [e]) == Bytes(s) + e.size
  {
    if s != [] {
      assert (s + [e])[1..] == s[1..] + [e];
      BytesAppend(s[1..], e);
    }
  }

  /** Dropping the k oldest entries brings both caps back, and dropping fewer does not. */
  ghost predicate IsShortestEviction(s: seq<Entry>, k: nat, cap: int, maxBytes: int)
    requires k <= |s|
  {
    && (k == |s| || Fits(s[k..], cap, maxBytes))
    && forall j :: 0 <= j < k ==> !Fits(s[j..], cap, maxBytes)
  }

  /** Eviction drops exactly the shortest run of oldest entries that brings both caps back. */
  lemma {:induction false} EvictIsShortest(s: seq<Entry>, cap: int, maxBytes: int)
    ensures exists k :: 0 <= k <= |s| && IsShortestEviction(s, k, cap, maxBytes) && Evict(s, cap, maxBytes) == s[k..]
  {
    if s == [] || Fits(s, cap, maxBytes) {
      assert s[0..] == s;
    } else {
      EvictIsShortest(s[1..], cap, maxBytes);
      var k :| 0 <= k <= |s[1..]| && IsShortestEviction(s[1..], k, cap, maxBytes)
               && Evict(s[1..], cap, maxBytes) == s[1..][k..];
      assert s[1..][k..] == s[k + 1..];
      forall j | 0 <= j < k + 1
        ensures !Fits(s[j..], cap, maxBytes)
      {
        if j == 0 {
          assert s[0..] == s;
        } else {
          assert s[1..][j - 1..] == s[j..];
        }
      }
    }
  }

  /** With caps that are not negative, both hold after every eviction. */
  lemma {:induction false} EvictRestoresCaps(s: seq<Entry>, cap: int, maxBytes: int)
    requires cap >= 0 && maxBytes >= 0
    ensures Fits(Evict(s, cap, maxBytes), cap, maxBytes)
  {
    if s != [] {
      EvictRestoresCaps(s[1..], cap, maxBytes);
    }
  }

  /** Eviction stops at the newest entry when that entry alone fits, and empties the dictionary when it does not. */
  lemma {:induction false} NewestSurvivesIffItFits(s: seq<Entry>, e: Entry, cap: int, maxBytes: int)
    ensures cap >= 1 && e.size <= maxBytes ==>
      Evict(s + [e], cap, maxBytes) != [] && Evict(s + [e], cap, maxBytes)[|Evict(s + [e], cap, maxBytes)| - 1] == e
    ensures !(cap >= 1 && e.size <= maxBytes) ==> Evict(s + [e], cap, maxBytes) == []
  {
    BytesAppend(s, e);
    if s == [] {
      assert Bytes([e]) == e.size;
    } else {
      NewestSurvivesIffItFits(s[1..], e, cap, maxBytes);
      assert (s + [e])[1..] == s[1..] + [e];
    }
  }

  lemma {:induction false} EvictIsSuffix(s: seq<Entry>, cap: int, maxBytes: int)
    ensures exists k :: 0 <= k <= |s| && Evict(s, cap, maxBytes) == s[k..]
  {
    EvictIsShortest(s, cap, maxBytes);
  }

  // ---------------------------------------------------------------------------------------
  // Runs
  // ---------------------------------------------------------------------------------------

  datatype Op = Read(key: Key) | Write(entry: Entry)

  function KeyOf(op: Op): Key {
    match op
    case Read(k) => k
    case Write(e) => e.key
  }

  function Apply(s: seq<Entry>, op: Op, cap: int, maxBytes: int): seq<Entry> {
    match op
    case Read(k) => Touched(s, k)
    case Write(e) => Stored(s, e, cap, maxBytes)
  }

  /** The dictionary after a run of operations on an empty cache. */
  function Run(ops: seq<Op>, cap: int, maxBytes: int): seq<Entry> {
    if ops == [] then [] else Apply(Run(ops[..|ops| - 1], cap, maxBytes), ops[|ops| - 1], cap, maxBytes)
  }

  /** The position of the last operation on a key, or -1. */
  function LastUse(ops: seq<Op>, key: Key): int {
    if ops == [] then -1
    else if KeyOf(ops[|ops| - 1]) == key then |ops| - 1
    else LastUse(ops[..|ops| - 1], key)
  }

  /** The last entry written under a key. */
  function LastWrite(ops: seq<Op>, key: Key): Option<Entry> {
    if ops == [] then None
    else match ops[|ops| - 1]
      case Write(e) => if e.key == key then Some(e) else LastWrite(ops[..|ops| - 1], key)
      case Read(_) => LastWrite(ops[..|ops| - 1], key)
  }

  /** The dictionary is in order of last use, and every entry is the last one written under its key. */
  ghost predicate InRecencyOrder(s: seq<Entry>, ops: seq<Op>) {
    && (forall i, j :: 0 <= i < j < |s| ==> LastUse(ops, s[i].key) < LastUse(ops, s[j].key))
    && (forall e :: e in s ==> LastWrite(ops, e.key) == Some(e))
  }

  lemma {:induction false} LastUseIsPast(ops: seq<Op>, key: Key)
    ensures -1 <= LastUse(ops, key) < |ops|
  {
    if ops != [] {
      LastUseIsPast(ops[..|ops| - 1], key);
    }
  }

  /** Moving or adding an entry at the recent end keeps recency order. */
  lemma AppendKeepsOrder(s: seq<Entry>, e: Entry, ops: seq<Op>, op: Op)
    requires InRecencyOrder(s, ops)
    requires KeyOf(op) == e.key && forall x :: x in s ==> x.key != e.key
    requires if op.Write? then op.entry == e else LastWrite(ops, e.key) == Some(e)
    ensures InRecencyOrder(s + [e], ops + [op])
  {
    var r, ops' := s + [e], ops + [op];
    assert ops'[..|ops|] == ops;
    forall x | x in s
      ensures LastUse(ops', x.key) == LastUse(ops, x.key) && LastWrite(ops', x.key) == LastWrite(ops, x.key)
    {
    }
    forall i, j | 0 <= i < j < |r|
      ensures LastUse(ops', r[i].key) < LastUse(ops', r[j].key)
    {
      assert r[i] in s;
      LastUseIsPast(ops, r[i].key);
      if j < |s| {
        assert r[j] in s;
      }
    }
  }

  function Without(s: seq<Entry>, i: nat): seq<Entry>
    requires i < |s|
  {
    s[..i] + s[i + 1..]
  }

  lemma WithoutLater(s: seq<Entry>, j: nat)
    requires j + 1 < |s|
    ensures Without(s, j + 1) == [s[0]] + Without(s[1..], j)
  {
  }

  lemma {:induction false} RemoveSplits(s: seq<Entry>, key: Key) returns (i: nat)
    ensures Remove(s, key) == if i < |s| then Without(s, i) else s
  {
    hide Without;
    i := 0;
    if s != [] {
      if s[0].key == key {
        WithoutFirst(s);
      } else {
        var j := RemoveSplits(s[1..], key);
        i := j + 1;
        if i < |s| {
          WithoutLater(s, j);
        } else {
          assert s == [s[0]] + s[1..];
        }
      }
    }
  }

  lemma WithoutFirst(s: seq<Entry>)
    requires s != []
    ensures Without(s, 0) == s[1..]
  {
  }

  lemma RemoveKeepsOrder(s: seq<Entry>, key: Key, ops: seq<Op>)
    requires UniqueKeys(s) && InRecencyOrder(s, ops)
    ensures InRecencyOrder(Remove(s, key), ops)
  {
    hide LastUse, LastWrite, Remove;
    var i := RemoveSplits(s, key);
    if i < |s| {
      var r := Without(s, i);
      forall x, y | 0 <= x < y < |r|
        ensures LastUse(ops, r[x].key) < LastUse(ops, r[y].key)
      {
        assert r[x] == s[if x < i then x else x + 1] && r[y] == s[if y < i then y else y + 1];
      }
    }
  }

  /** A read of a key the cache does not hold changes neither the dictionary nor its order. */
  lemma MissKeepsOrder(s: seq<Entry>, ops: seq<Op>, key: Key)
    requires InRecencyOrder(s, ops) && forall e :: e in s ==> e.key != key
    ensures InRecencyOrder(s, ops + [Read(key)])
  {
  }

  /**
   After any run: keys are unique, the dictionary is in order of last use, every entry is the
   last one written under its key, and both caps hold.
   */
  lemma {:induction false} RunIsLru(ops: seq<Op>, cap: int, maxBytes: int)
    requires cap >= 0 && maxBytes >= 0
    ensures UniqueKeys(Run(ops, cap, maxBytes))
    ensures InRecencyOrder(Run(ops, cap, maxBytes), ops)
    ensures Fits(Run(ops, cap, maxBytes), cap, maxBytes)
  {
    if ops != [] {
      var n := |ops| - 1;
      var before, op := ops[..n], ops[n];
      var s := Run(before, cap, maxBytes);
      RunIsLru(before, cap, maxBytes);
      assert ops == before + [op];
      RemoveRemoves(s, KeyOf(op));
      RemoveKeepsOrder(s, KeyOf(op), before);
      var rest := Remove(s, KeyOf(op));
      match op {
        case Read(k) =>
          FindFinds(s, k);
          match Find(s, k) {
            case None => MissKeepsOrder(s, before, k);
            case Some(e) =>
              AppendKeepsOrder(rest, e, before, op);
              BytesAppend(rest, e);
              HitKeepsSize(s, k);
          }
        case Write(e) =>
          AppendKeepsOrder(rest, e, before, op);
          EvictRestoresCaps(rest + [e], cap, maxBytes);
          EvictIsSuffix(rest + [e], cap, maxBytes);
          var k :| 0 <= k <= |rest + [e]| && Evict(rest + [e], cap, maxBytes) == (rest + [e])[k..];
          SuffixKeepsOrder(rest + [e], k, ops);
      }
    }
  }

  lemma SuffixKeepsOrder(s: seq<Entry>, k: nat, ops: seq<Op>)
    requires k <= |s| && UniqueKeys(s) && InRecencyOrder(s, ops)
    ensures UniqueKeys(s[k..]) && InRecencyOrder(s[k..], ops)
  {
  }

  lemma {:induction false} HitKeepsSize(s: seq<Entry>, key: Key)
    requires Find(s, key).Some?
    ensures |Remove(s, key)| + 1 == |s|
  {
    if s[0].key != key {
      HitKeepsSize(s[1..], key);
    }
  }

  /** Whatever a store evicts was used before everything it keeps. */
  lemma EvictedAreOlder(ops: seq<Op>, e: Entry, cap: int, maxBytes: int, gone: Entry, kept: Entry)
    requires cap >= 0 && maxBytes >= 0
    requires gone in Run(ops, cap, maxBytes) && gone.key != e.key
    requires gone !in Run(ops + [Write(e)], cap, maxBytes)
    requires kept in Run(ops + [Write(e)], cap, maxBytes)
    ensures LastUse(ops + [Write(e)], gone.key) < LastUse(ops + [Write(e)], kept.key)
  {
    var s := Run(ops, cap, maxBytes);
    var ops' := ops + [Write(e)];
    assert ops'[..|ops|] == ops;
    RunIsLru(ops, cap, maxBytes);
    RemoveRemoves(s, e.key);
    RemoveKeepsOrder(s, e.key, ops);
    var full := Remove(s, e.key) + [e];
    AppendKeepsOrder(Remove(s, e.key), e, ops, Write(e));
    EvictIsSuffix(full, cap, maxBytes);
    var k :| 0 <= k <= |full| && Evict(full, cap, maxBytes) == full[k..];
    assert gone in full;
    OlderThanSuffix(full, k, ops', gone, kept);
  }

  lemma OlderThanSuffix(s: seq<Entry>, k: nat, ops: seq<Op>, gone: Entry, kept: Entry)
    requires k <= |s| && InRecencyOrder(s, ops)
    requires gone in s && gone !in s[k..] && kept in s[k..]
    ensures LastUse(ops, gone.key) < LastUse(ops, kept.key)
  {
  }

  lemma UniqueAppended(s: seq<Entry>, e: Entry)
    requires UniqueKeys(s) && forall x :: x in s ==> x.key != e.key
    ensures UniqueKeys(s + [e])
  {
  }

  lemma UniqueTail(s: seq<Entry>)
    requires UniqueKeys(s) && s != []
    ensures UniqueKeys(s[1..])
  {
  }

  // ---------------------------------------------------------------------------------------
  // The cache object
  // ---------------------------------------------------------------------------------------

  class InstallationCache {
    var entries: seq<Entry>
    var bytes: int
    const cap: int
    const maxBytes: int

    /** The running byte count is the sum of the stored sizes. */
    ghost predicate Valid()
      reads this
    {
      UniqueKeys(entries) && bytes == Bytes(entries)
    }

    constructor (cap: int := 1000, maxBytes: int := 64 * 1024 * 1024)
      ensures Valid() && entries == [] && this.cap == cap && this.maxBytes == maxBytes
    {
      entries, bytes := [], 0;
      this.cap, this.maxBytes := cap, maxBytes;
    }

    /** LRU read. */
    method Get(key: Key) returns (found: Option<(Etag, Body)>)
      requires Valid()
      modifies this`entries
      ensures Valid()
      ensures entries == Touched(old(entries), key)
      ensures found.Some? <==> Find(old(entries), key).Some?
      ensures found.Some? ==> Find(old(entries), key).value.etag == found.value.0
      ensures found.Some? ==> Find(old(entries), key).value.body == found.value.1
    {
      match Find(entries, key)
      case None => found := None;
      case Some(e) =>
        RemoveRemoves(entries, key);
        BytesAppend(Remove(entries, key), e);
        FindFinds(entries, key);
        entries := Remove(entries, key) + [e];
        found := Some((e.etag, e.body));
    }

    /** Insert or replace, then evict from the old end until both caps hold. */
    method Store(key: Key, etag: Etag, body: Body, size: nat)
      requires Valid()
      modifies this
      ensures Valid()
      ensures entries == Stored(old(entries), Entry(key, etag, body, size), cap, maxBytes)
      ensures cap >= 0 && maxBytes >= 0 ==> |entries| <= cap && bytes <= maxBytes
      ensures cap >= 1 && size <= maxBytes ==> entries != [] && entries[|entries| - 1] == Entry(key, etag, body, size)
      ensures size > maxBytes ==> entries == [] && bytes == 0
    {
      hide UniqueKeys, Remove, Find;
      ghost var e := Entry(key, etag, body, size);
      RemoveRemoves(entries, key);
      var old_ := Find(entries, key);
      entries := Remove(entries, key);
      if old_.Some? {
        bytes := bytes - old_.value.size;
      }
      BytesAppend(entries, e);
      NewestSurvivesIffItFits(entries, e, cap, maxBytes);
      UniqueAppended(entries, e);
      entries := entries + [Entry(key, etag, body, size)];
      bytes := bytes + size;
      ghost var full := entries;
      EvictRestoresCapsIfSane(full, cap, maxBytes);
      while entries != [] && (|entries| > cap || bytes > maxBytes)
        invariant UniqueKeys(entries) && bytes == Bytes(entries)
        invariant Evict(entries, cap, maxBytes) == Evict(full, cap, maxBytes)
        decreases |entries|
      {
        var evicted := entries[0];
        UniqueTail(entries);
        entries := entries[1..];
        bytes := bytes - evicted.size;
      }
    }
  }

  lemma EvictRestoresCapsIfSane(s: seq<Entry>, cap: int, maxBytes: int)
    ensures cap >= 0 && maxBytes >= 0 ==> Fits(Evict(s, cap, maxBytes), cap, maxBytes)
  {
  }
}
