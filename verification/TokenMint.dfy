/**
 Installation tokens: many coroutines want a client for an installation, a token cache may hold
 a live token, and a per-installation lock with a second look at the cache keeps concurrent
 misses from minting more than one. Steps are what runs between two awaits.
 */
module TokenMint {
  import opened Common

  type Installation = int
  type CacheId = nat       // a sweep's token cache
  type Coroutine = nat
  type ObjectId = nat      // an ETag cache object
  type LockId = nat        // a lock object

  const EXPIRY_SKEW_SECONDS := 60

  datatype Token = Token(text: string, expiresAt: int)

  predicate Expired(t: Token, now: int) {
    now >= t.expiresAt - EXPIRY_SKEW_SECONDS
  }

  datatype Pc =
    | Starting
    | Asking                       // no live token in the cache; queued for the lock over the table of locks
    | Looking                      // holds that lock, about to look its installation up
    | Creating                     // holds it still, and found no lock for its installation
    | Waiting(lock: LockId)        // queued for its installation's lock
    | Inside(lock: LockId)         // holds that lock, has not looked at the cache again yet
    | Minting(lock: LockId, began: int)   // holds it, request in flight
    | Ready(token: Token)          // has its token
    | Done(token: Token, etags: ObjectId)
    | Failed

  /** `cache` is the token cache the caller passed, if it passed one. */
  datatype Caller = Caller(inst: Installation, cache: Option<CacheId>, pc: Pc)

  datatype Mint = Mint(inst: Installation, cache: Option<CacheId>, token: Token, began: int)

  /**
   `table` holds the lock of each installation that has one, and `meta` says who is at the table;
   `locks` are the locks that are held, and by whom.
   */
  datatype State = State(now: int, tokens: map<(CacheId, Installation), Token>, meta: Option<Coroutine>,
                         table: map<Installation, LockId>, locks: map<LockId, Coroutine>,
                         callers: map<Coroutine, Caller>, etags: map<Installation, ObjectId>, mints: seq<Mint>)

  datatype Step =
    | Tick(elapsed: nat)
    | Call(c: Coroutine, inst: Installation, cache: Option<CacheId>)
    | Check(c: Coroutine)
    | Approach(c: Coroutine)                     // take the lock over the table
    | Look(c: Coroutine)
    | Create(c: Coroutine, lock: LockId)         // put a new lock into the table
    | Acquire(c: Coroutine)
    | Recheck(c: Coroutine)
    | MintReturns(c: Coroutine, token: Token)
    | Abandon(c: Coroutine)                      // the mint raises, or the caller is cancelled
    | Finish(c: Coroutine, etags: ObjectId)     // take, or create, the installation's ETag cache

  /** The token a caller finds in its cache, if it is there and live. */
  function Cached(s: State, who: Caller): Option<Token> {
    if who.cache.Some? && (who.cache.value, who.inst) in s.tokens
       && !Expired(s.tokens[(who.cache.value, who.inst)], s.now)
    then Some(s.tokens[(who.cache.value, who.inst)]) else None
  }

  predicate HoldsLock(pc: Pc) { pc.Inside? || pc.Minting? }

  predicate HoldsMeta(pc: Pc) { pc.Looking? || pc.Creating? }

  predicate HasLock(pc: Pc) { pc.Waiting? || HoldsLock(pc) }

  /** The callers once c stands at pc. */
  function At(s: State, c: Coroutine, pc: Pc): map<Coroutine, Caller>
    requires c in s.callers
  {
    s.callers[c := s.callers[c].(pc := pc)]
  }

  /** The tokens once one is minted for a caller, if it passed a cache. */
  function Kept(s: State, who: Caller, token: Token): map<(CacheId, Installation), Token> {
    if who.cache.Some? then s.tokens[(who.cache.value, who.inst) := token] else s.tokens
  }

  /** The locks without the one its holder gives up. */
  function Freed(s: State, pc: Pc): map<LockId, Coroutine> {
    if HoldsLock(pc) then s.locks - {pc.lock} else s.locks
  }

  ghost predicate Next(s: State, step: Step, s': State) {
    match step
    case Tick(elapsed) => s' == s.(now := s.now + elapsed)
    case Call(c, inst, cache) =>
      && (c in s.callers ==> s.callers[c].pc.Done? || s.callers[c].pc.Failed?)
      && s' == s.(callers := s.callers[c := Caller(inst, cache, Starting)])
    case Check(c) =>
      && c in s.callers && s.callers[c].pc.Starting?
      && var found := Cached(s, s.callers[c]);
         s' == s.(callers := At(s, c, if found.Some? then Ready(found.value) else Asking))
    case Approach(c) =>
      && c in s.callers && s.callers[c].pc.Asking? && s.meta == None
      && s' == s.(callers := At(s, c, Looking), meta := Some(c))
    case Look(c) =>
      && c in s.callers && s.callers[c].pc.Looking?
      && var inst := s.callers[c].inst;
         if inst in s.table then s' == s.(callers := At(s, c, Waiting(s.table[inst])), meta := None)
         else s' == s.(callers := At(s, c, Creating))
    case Create(c, lock) =>
      && c in s.callers && s.callers[c].pc.Creating? && lock !in s.table.Values
      && s' == s.(callers := At(s, c, Waiting(lock)), meta := None, table := s.table[s.callers[c].inst := lock])
    case Acquire(c) =>
      && c in s.callers && s.callers[c].pc.Waiting?
      && var lock := s.callers[c].pc.lock;
         lock !in s.locks && s' == s.(callers := At(s, c, Inside(lock)), locks := s.locks[lock := c])
    case Recheck(c) =>
      && c in s.callers && s.callers[c].pc.Inside?
      && var (lock, found) := (s.callers[c].pc.lock, Cached(s, s.callers[c]));
         if found.Some? then s' == s.(callers := At(s, c, Ready(found.value)), locks := s.locks - {lock})
         else s' == s.(callers := At(s, c, Minting(lock, s.now)))
    case MintReturns(c, token) =>
      && c in s.callers && s.callers[c].pc.Minting?
      && var who := s.callers[c];
         s' == s.(callers := At(s, c, Ready(token)), locks := s.locks - {who.pc.lock}, tokens := Kept(s, who, token),
                  mints := s.mints + [Mint(who.inst, who.cache, token, who.pc.began)])
    case Abandon(c) =>
      && c in s.callers && !s.callers[c].pc.Done? && !s.callers[c].pc.Failed?
      && s' == s.(callers := At(s, c, Failed), locks := Freed(s, s.callers[c].pc),
                  meta := if HoldsMeta(s.callers[c].pc) then None else s.meta)
    case Finish(c, created) =>
      && c in s.callers && s.callers[c].pc.Ready?
      && var who := s.callers[c];
         if who.inst in s.etags then s' == s.(callers := At(s, c, Done(who.pc.token, s.etags[who.inst])))
         else created !in s.etags.Values
              && s' == s.(callers := At(s, c, Done(who.pc.token, created)), etags := s.etags[who.inst := created])
  }

  ghost predicate Init(s: State) {
    && s.tokens == map[] && s.meta == None && s.table == map[] && s.locks == map[] && s.callers == map[]
    && s.etags == map[] && s.mints == []
  }

  ghost predicate IsRun(states: seq<State>, steps: seq<Step>) {
    && |states| == |steps| + 1
    && Init(states[0])
    && forall i :: 0 <= i < |steps| ==> Next(states[i], steps[i], states[i + 1])
  }

  // ---------------------------------------------------------------------------------------
  // The invariant
  // ---------------------------------------------------------------------------------------

  /** Whoever holds a lock is on record as its holder, and so is whoever is at the table of locks. */
  ghost predicate HoldersAreRecorded(s: State) {
    forall c :: c in s.callers ==>
      && (HoldsLock(s.callers[c].pc) ==> s.callers[c].pc.lock in s.locks && s.locks[s.callers[c].pc.lock] == c)
      && (HoldsMeta(s.callers[c].pc) ==> s.meta == Some(c))
  }

  /** A lock on record is held: nobody waits for a lock that is not. */
  ghost predicate LocksHaveHolders(s: State) {
    && (forall lock :: lock in s.locks ==>
          && s.locks[lock] in s.callers && HoldsLock(s.callers[s.locks[lock]].pc)
          && s.callers[s.locks[lock]].pc.lock == lock)
    && (s.meta.Some? ==> s.meta.value in s.callers && HoldsMeta(s.callers[s.meta.value].pc))
  }

  /** All callers of an installation use the lock the table has for it, and no two installations have the same. */
  ghost predicate TableIsShared(s: State) {
    && (forall c :: c in s.callers && HasLock(s.callers[c].pc) ==>
          s.callers[c].inst in s.table && s.table[s.callers[c].inst] == s.callers[c].pc.lock)
    && (forall c :: c in s.callers && s.callers[c].pc.Creating? ==> s.callers[c].inst !in s.table)
    && (forall a, b :: a in s.table && b in s.table && s.table[a] == s.table[b] ==> a == b)
  }

  ghost predicate LocksAreHeld(s: State) {
    HoldersAreRecorded(s) && LocksHaveHolders(s) && TableIsShared(s)
  }

  /** Whether an earlier mint was for the same cache and installation. */
  predicate SameSlot(m: Mint, cache: Option<CacheId>, inst: Installation) {
    m.inst == inst && m.cache == cache && cache.Some?
  }

  /** The cache holds the last token minted for it; every other has expired. */
  ghost predicate OthersExpired(s: State) {
    forall m :: m in s.mints && m.cache.Some? ==>
      && (m.cache.value, m.inst) in s.tokens
      && (s.tokens[(m.cache.value, m.inst)] == m.token || Expired(m.token, s.now))
  }

  /** A mint in flight began when nothing live had been minted for its cache and installation. */
  ghost predicate MintsBeganStale(s: State) {
    forall c :: c in s.callers && s.callers[c].pc.Minting? ==>
      && s.callers[c].pc.began <= s.now
      && forall m :: m in s.mints && SameSlot(m, s.callers[c].cache, s.callers[c].inst) ==>
           Expired(m.token, s.callers[c].pc.began)
  }

  /** Among finished mints of one cache and installation, each began after the earlier ones' tokens expired. */
  ghost predicate MintsAreSpaced(mints: seq<Mint>) {
    forall i, j :: 0 <= i < j < |mints| && SameSlot(mints[i], mints[j].cache, mints[j].inst) ==>
      Expired(mints[i].token, mints[j].began)
  }

  ghost predicate EtagsAreShared(s: State) {
    && (forall c :: c in s.callers && s.callers[c].pc.Done? ==>
          s.callers[c].inst in s.etags && s.etags[s.callers[c].inst] == s.callers[c].pc.etags)
    && (forall a, b :: a in s.etags && b in s.etags && s.etags[a] == s.etags[b] ==> a == b)
  }

  ghost predicate Invariant(s: State) {
    LocksAreHeld(s) && OthersExpired(s) && MintsBeganStale(s) && MintsAreSpaced(s.mints) && EtagsAreShared(s)
  }

  // ---------------------------------------------------------------------------------------
  // What a step moves
  // ---------------------------------------------------------------------------------------

  function MoverOf(step: Step): Option<Coroutine> {
    match step
    case Tick(_) => None
    case Call(c, _, _) => Some(c)
    case Check(c) => Some(c)
    case Approach(c) => Some(c)
    case Look(c) => Some(c)
    case Create(c, _) => Some(c)
    case Acquire(c) => Some(c)
    case Recheck(c) => Some(c)
    case MintReturns(c, _) => Some(c)
    case Abandon(c) => Some(c)
    case Finish(c, _) => Some(c)
  }

  /** Where a coroutine stands; one that has not called stands nowhere. */
  function PcOf(s: State, c: Coroutine): Pc {
    if c in s.callers then s.callers[c].pc else Failed
  }

  lemma OnlyMoverMoves(s: State, step: Step, s': State)
    requires Next(s, step, s')
    ensures MoverOf(step).None? ==> s' == s.(now := s'.now) && s'.now >= s.now
    ensures MoverOf(step).Some? ==> var c := MoverOf(step).value;
      && s'.now == s.now && c in s'.callers && s'.callers == s.callers[c := s'.callers[c]]
      && (if step.Call? then s'.callers[c].pc == Starting && (PcOf(s, c).Done? || PcOf(s, c).Failed?)
          else c in s.callers && s'.callers[c] == s.callers[c].(pc := s'.callers[c].pc))
  {
  }

  /** A lock is taken when it is free, and released by whoever holds it. */
  lemma LockMoves(s: State, step: Step, s': State, c: Coroutine)
    requires Next(s, step, s') && MoverOf(step) == Some(c)
    ensures var (before, after) := (PcOf(s, c), PcOf(s', c));
      if HoldsLock(after) then
        || (HoldsLock(before) && after.lock == before.lock && s'.locks == s.locks)
        || (before == Waiting(after.lock) && after.lock !in s.locks && s'.locks == s.locks[after.lock := c])
      else s'.locks == if HoldsLock(before) then s.locks - {before.lock} else s.locks
  {
    hide Cached;
  }

  lemma MetaMoves(s: State, step: Step, s': State, c: Coroutine)
    requires Next(s, step, s') && MoverOf(step) == Some(c)
    ensures var (before, after) := (PcOf(s, c), PcOf(s', c));
      if HoldsMeta(after) then
        (HoldsMeta(before) && s'.meta == s.meta) || (!HoldsMeta(before) && s.meta == None && s'.meta == Some(c))
      else s'.meta == if HoldsMeta(before) then None else s.meta
  {
    hide Cached;
  }

  /** A caller's lock comes from the table, or is a new one it puts there. */
  lemma TableMoves(s: State, step: Step, s': State, c: Coroutine)
    requires Next(s, step, s') && MoverOf(step) == Some(c)
    ensures var (before, after) := (PcOf(s, c), PcOf(s', c));
      && (if HasLock(after) then
            c in s.callers && var inst := s.callers[c].inst;
            || (HasLock(before) && after.lock == before.lock && s'.table == s.table)
            || (inst in s.table && after.lock == s.table[inst] && s'.table == s.table)
            || (before.Creating? && after.lock !in s.table.Values && s'.table == s.table[inst := after.lock])
          else s'.table == s.table)
      && (after.Creating? ==> c in s.callers && s.callers[c].inst !in s.table)
  {
    hide Cached;
  }

  /** Mints begin on a second miss, and a mint that returns is the only thing that changes tokens. */
  lemma MintMoves(s: State, step: Step, s': State, c: Coroutine)
    requires Next(s, step, s') && MoverOf(step) == Some(c)
    ensures PcOf(s', c).Minting? ==>
      c in s.callers && step == Recheck(c) && Cached(s, s.callers[c]).None? && PcOf(s', c).began == s.now
    ensures if step.MintReturns? then
        c in s.callers && PcOf(s, c).Minting? && var who := s.callers[c];
        && s'.mints == s.mints + [Mint(who.inst, who.cache, step.token, who.pc.began)]
        && s'.tokens == Kept(s, who, step.token)
      else s'.mints == s.mints && s'.tokens == s.tokens
  {
    hide Cached;
  }

  lemma EtagMoves(s: State, step: Step, s': State, c: Coroutine)
    requires Next(s, step, s') && MoverOf(step) == Some(c)
    ensures if PcOf(s', c).Done? then
        c in s.callers && var inst := s.callers[c].inst;
        && inst in s'.etags && s'.etags[inst] == PcOf(s', c).etags
        && (s'.etags == s.etags
            || (inst !in s.etags && PcOf(s', c).etags !in s.etags.Values
                && s'.etags == s.etags[inst := PcOf(s', c).etags]))
      else s'.etags == s.etags
  {
    hide Cached;
  }

  // ---------------------------------------------------------------------------------------
  // Every step keeps the invariant
  // ---------------------------------------------------------------------------------------

  lemma NextKeepsInvariant(s: State, step: Step, s': State)
    requires Invariant(s) && Next(s, step, s')
    ensures Invariant(s')
  {
    hide Next, HoldersAreRecorded, LocksHaveHolders, TableIsShared, OthersExpired, MintsBeganStale, MintsAreSpaced,
         EtagsAreShared;
    HoldersStayRecorded(s, step, s');
    LocksKeepHolders(s, step, s');
    TableStaysShared(s, step, s');
    OthersStayExpired(s, step, s');
    MintsStayStale(s, step, s');
    MintsStaySpaced(s, step, s');
    EtagsStay(s, step, s');
  }

  lemma TableStaysShared(s: State, step: Step, s': State)
    requires HoldersAreRecorded(s) && TableIsShared(s) && Next(s, step, s')
    ensures TableIsShared(s')
  {
    hide Next;
    OnlyMoverMoves(s, step, s');
    if MoverOf(step).Some? {
      TableMoves(s, step, s', MoverOf(step).value);
    }
  }

  lemma HoldersStayRecorded(s: State, step: Step, s': State)
    requires HoldersAreRecorded(s) && Next(s, step, s')
    ensures HoldersAreRecorded(s')
  {
    hide Next;
    OnlyMoverMoves(s, step, s');
    if MoverOf(step).Some? {
      LockMoves(s, step, s', MoverOf(step).value);
      MetaMoves(s, step, s', MoverOf(step).value);
    }
  }

  lemma LocksKeepHolders(s: State, step: Step, s': State)
    requires HoldersAreRecorded(s) && LocksHaveHolders(s) && Next(s, step, s')
    ensures LocksHaveHolders(s')
  {
    hide Next;
    OnlyMoverMoves(s, step, s');
    if MoverOf(step).Some? {
      LockMoves(s, step, s', MoverOf(step).value);
      MetaMoves(s, step, s', MoverOf(step).value);
    }
  }

  lemma OthersStayExpired(s: State, step: Step, s': State)
    requires OthersExpired(s) && MintsBeganStale(s) && Next(s, step, s')
    ensures OthersExpired(s')
  {
    hide Next;
    OnlyMoverMoves(s, step, s');
    if MoverOf(step).Some? {
      MintMoves(s, step, s', MoverOf(step).value);
    }
  }

  lemma MintsStayStale(s: State, step: Step, s': State)
    requires HoldersAreRecorded(s) && TableIsShared(s) && OthersExpired(s) && MintsBeganStale(s) && Next(s, step, s')
    ensures MintsBeganStale(s')
  {
    hide Next;
    OnlyMoverMoves(s, step, s');
    if MoverOf(step).Some? {
      MintMoves(s, step, s', MoverOf(step).value);
    }
  }

  lemma MintsStaySpaced(s: State, step: Step, s': State)
    requires MintsBeganStale(s) && MintsAreSpaced(s.mints) && Next(s, step, s')
    ensures MintsAreSpaced(s'.mints)
  {
    hide Next;
    OnlyMoverMoves(s, step, s');
    if MoverOf(step).Some? {
      MintMoves(s, step, s', MoverOf(step).value);
    }
  }

  lemma EtagsStay(s: State, step: Step, s': State)
    requires EtagsAreShared(s) && Next(s, step, s')
    ensures EtagsAreShared(s')
  {
    hide Next;
    OnlyMoverMoves(s, step, s');
    if MoverOf(step).Some? {
      EtagMoves(s, step, s', MoverOf(step).value);
    }
  }

  lemma {:induction false} RunKeepsInvariant(states: seq<State>, steps: seq<Step>, i: nat)
    requires IsRun(states, steps) && i < |states|
    ensures Invariant(states[i])
  {
    hide Next, LocksAreHeld, OthersExpired, MintsBeganStale, MintsAreSpaced, EtagsAreShared;
    if i == 0 {
      InitHolds(states[0]);
    } else {
      RunKeepsInvariant(states, steps, i - 1);
      NextKeepsInvariant(states[i - 1], steps[i - 1], states[i]);
    }
  }

  lemma InitHolds(s: State)
    requires Init(s)
    ensures Invariant(s)
  {
  }

  // ---------------------------------------------------------------------------------------
  // Over every run
  // ---------------------------------------------------------------------------------------

  /** At any moment at most one mint per installation is in flight, whatever caches the callers use. */
  lemma SingleFlight(states: seq<State>, steps: seq<Step>, i: nat, a: Coroutine, b: Coroutine)
    requires IsRun(states, steps) && i < |states|
    requires a in states[i].callers && b in states[i].callers
    requires states[i].callers[a].pc.Minting? && states[i].callers[b].pc.Minting?
    requires states[i].callers[a].inst == states[i].callers[b].inst
    ensures a == b
  {
    RunKeepsInvariant(states, steps, i);
  }

  /** The caller's cache holds this token for its installation, with more than the skew left to live. */
  predicate FindsLive(s: State, who: Caller, token: Token) {
    && who.cache.Some? && (who.cache.value, who.inst) in s.tokens && s.tokens[(who.cache.value, who.inst)] == token
    && s.now + EXPIRY_SKEW_SECONDS < token.expiresAt
  }

  /** A live token in the cache is taken as soon as the caller looks, and only a live one or a new one is taken. */
  lemma LiveTokenIsTaken(states: seq<State>, steps: seq<Step>, i: nat, c: Coroutine, token: Token)
    requires IsRun(states, steps) && i < |steps| && c in states[i].callers
    ensures (steps[i] == Check(c) || steps[i] == Recheck(c)) && FindsLive(states[i], states[i].callers[c], token) ==>
      c in states[i + 1].callers && states[i + 1].callers[c].pc == Ready(token)
    ensures (c in states[i + 1].callers && states[i + 1].callers[c].pc == Ready(token)
             && states[i].callers[c].pc != Ready(token)) ==>
        || steps[i] == MintReturns(c, token)
        || ((steps[i] == Check(c) || steps[i] == Recheck(c)) && FindsLive(states[i], states[i].callers[c], token))
  {
    assert Next(states[i], steps[i], states[i + 1]);
  }

  /** The token was minted for this installation and this cache, or for no cache. */
  ghost predicate IsMinted(s: State, inst: Installation, cache: Option<CacheId>, token: Token) {
    exists m :: m in s.mints && m.inst == inst && m.cache == cache && m.token == token
  }

  ghost predicate TokensAreMinted(s: State) {
    && (forall k :: k in s.tokens ==> IsMinted(s, k.1, Some(k.0), s.tokens[k]))
    && forall c :: c in s.callers && (s.callers[c].pc.Ready? || s.callers[c].pc.Done?) ==>
         IsMinted(s, s.callers[c].inst, s.callers[c].cache, s.callers[c].pc.token)
  }

  lemma MintedStays(s: State, s': State)
    requires TokensAreMinted(s) && |s.mints| <= |s'.mints| && s'.mints[..|s.mints|] == s.mints
    ensures forall inst, cache, token :: IsMinted(s, inst, cache, token) ==> IsMinted(s', inst, cache, token)
  {
    forall m | m in s.mints
      ensures m in s'.mints
    {
    }
  }

  lemma StepMints(s: State, step: Step, s': State)
    requires TokensAreMinted(s) && Next(s, step, s')
    ensures TokensAreMinted(s')
  {
    hide IsMinted;
    if step.MintReturns? {
      NewMint(s, step.c, step.token, s');
    } else {
      assert s'.mints == s.mints;
      MintedStays(s, s');
    }
  }

  lemma NewMint(s: State, c: Coroutine, token: Token, s': State)
    requires TokensAreMinted(s) && Next(s, MintReturns(c, token), s')
    ensures TokensAreMinted(s')
  {
    var who := s.callers[c];
    var m := Mint(who.inst, who.cache, token, who.pc.began);
    assert s'.mints == s.mints + [m] && m in s'.mints;
    MintedStays(s, s');
    assert IsMinted(s', who.inst, who.cache, token);
    hide IsMinted;
  }

  /** In every run, whoever has a token has one minted for its own installation and its own cache. */
  lemma {:induction false} TokensAreOnesOwn(states: seq<State>, steps: seq<Step>, i: nat)
    requires IsRun(states, steps) && i < |states|
    ensures TokensAreMinted(states[i])
  {
    hide Next;
    if i > 0 {
      TokensAreOnesOwn(states, steps, i - 1);
      StepMints(states[i - 1], steps[i - 1], states[i]);
    }
  }

  /** A mint goes out only when the caller's cache holds no live token, and it goes out at that moment. */
  lemma MintsOnlyWhenStale(states: seq<State>, steps: seq<Step>, i: nat, c: Coroutine)
    requires IsRun(states, steps) && i < |steps|
    requires c in states[i + 1].callers && states[i + 1].callers[c].pc.Minting?
    requires c in states[i].callers ==> states[i].callers[c].pc != states[i + 1].callers[c].pc
    ensures steps[i] == Recheck(c) && states[i + 1].callers[c].pc.began == states[i].now
    ensures forall token :: !FindsLive(states[i], states[i].callers[c], token)
  {
    assert Next(states[i], steps[i], states[i + 1]);
  }

  /** Two successful mints for one cache and installation: the earlier token had expired when the later mint began. */
  lemma MintsAreNeeded(states: seq<State>, steps: seq<Step>, n: nat, i: nat, j: nat)
    requires IsRun(states, steps) && n < |states| && i < j < |states[n].mints|
    requires SameSlot(states[n].mints[i], states[n].mints[j].cache, states[n].mints[j].inst)
    ensures states[n].mints[j].began + EXPIRY_SKEW_SECONDS >= states[n].mints[i].token.expiresAt
  {
    RunKeepsInvariant(states, steps, n);
  }

  /** While nothing minted has expired, a cache and installation see one successful mint at most. */
  lemma OneMintWithoutExpiry(states: seq<State>, steps: seq<Step>, n: nat, i: nat, j: nat)
    requires IsRun(states, steps) && n < |states|
    requires i < |states[n].mints| && j < |states[n].mints|
    requires SameSlot(states[n].mints[i], states[n].mints[j].cache, states[n].mints[j].inst)
    requires forall m :: m in states[n].mints ==> states[n].now + EXPIRY_SKEW_SECONDS < m.token.expiresAt
    ensures i == j
  {
    RunKeepsInvariant(states, steps, n);
    MintsAreInThePast(states, steps, n);
  }

  lemma {:induction false} MintsAreInThePast(states: seq<State>, steps: seq<Step>, n: nat)
    requires IsRun(states, steps) && n < |states|
    ensures forall m :: m in states[n].mints ==> m.began <= states[n].now
  {
    if n > 0 {
      MintsAreInThePast(states, steps, n - 1);
      RunKeepsInvariant(states, steps, n - 1);
      assert Next(states[n - 1], steps[n - 1], states[n]);
    }
  }

  /** All callers of an installation end up with the same ETag cache, callers of different ones with different ones. */
  lemma OneEtagCachePerInstallation(states: seq<State>, steps: seq<Step>, i: nat, a: Coroutine, b: Coroutine)
    requires IsRun(states, steps) && i < |states|
    requires a in states[i].callers && b in states[i].callers
    requires states[i].callers[a].pc.Done? && states[i].callers[b].pc.Done?
    ensures states[i].callers[a].inst == states[i].callers[b].inst <==>
      states[i].callers[a].pc.etags == states[i].callers[b].pc.etags
  {
    RunKeepsInvariant(states, steps, i);
  }

  /** An ETag cache, once an installation has one, is never replaced. */
  lemma {:induction false} EtagCacheIsKept(states: seq<State>, steps: seq<Step>, i: nat, j: nat, inst: Installation)
    requires IsRun(states, steps) && i <= j < |states| && inst in states[i].etags
    ensures inst in states[j].etags && states[j].etags[inst] == states[i].etags[inst]
  {
    hide Next;
    if i < j {
      EtagCacheIsKept(states, steps, i, j - 1, inst);
      var s, step := states[j - 1], steps[j - 1];
      assert Next(s, step, states[j]);
      OnlyMoverMoves(s, step, states[j]);
      if MoverOf(step).Some? {
        EtagMoves(s, step, states[j], MoverOf(step).value);
      }
    }
  }
}
