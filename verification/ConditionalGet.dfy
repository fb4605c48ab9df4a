/**
 GET with ETag revalidation: many clients of one installation share one cache, and each call
 reads it, sends a conditional request, perhaps sleeps and retries, and stores what it got,
 with other clients running between any two of these steps.
 */
module ConditionalGet {
  import opened Common
  import opened EtagCache

  /** What the server holds at a URL. */
  datatype Resource = Resource(etag: Option<Etag>, body: Body, size: nat)

  datatype Response =
    | NotModified                                            // 304
    | Success(etag: Option<Etag>, body: Body, size: nat)     // 2xx
    | Throttled                                              // 429 or 403 with a Retry-After header
    | Failure                                                // any other status

  type Cached = Option<(Etag, Body)>

  /** raise_for_status and the 304 case: what the call returns once it has stopped retrying. */
  function Outcome(cached: Cached, resp: Response): Result<Body> {
    match resp
    case NotModified => if cached.Some? then Ok(cached.value.1) else Raised
    case Success(_, body, _) => Ok(body)
    case Throttled => Raised
    case Failure => Raised
  }

  /** A 2xx answer with a non-empty ETag is stored; anything else leaves the cache alone. */
  function CacheAfter(cache: seq<Entry>, key: Key, resp: Response, cap: int, maxBytes: int): seq<Entry> {
    if resp.Success? && resp.etag.Some? && resp.etag.value != "" then
      Stored(cache, Entry(key, resp.etag.value, resp.body, resp.size), cap, maxBytes)
    else cache
  }

  function Lookup(cache: seq<Entry>, key: Key): Cached {
    match Find(cache, key)
    case None => None
    case Some(e) => Some((e.etag, e.body))
  }

  /** The call with nobody else running: `answers` are the server's replies to the two attempts. */
  method GetCached(cache: InstallationCache, key: Key, answers: (Response, Response)) returns (r: Result<Body>)
    requires cache.Valid()
    modifies cache
    ensures cache.Valid()
    ensures r == Outcome(Lookup(old(cache.entries), key), if answers.0.Throttled? then answers.1 else answers.0)
    ensures cache.entries ==
      CacheAfter(Touched(old(cache.entries), key), key, if answers.0.Throttled? then answers.1 else answers.0,
                 cache.cap, cache.maxBytes)
    ensures var resp := if answers.0.Throttled? then answers.1 else answers.0;
      var cached := Lookup(old(cache.entries), key);
      && (resp.Success? ==> r == Ok(resp.body))
      && (!resp.Success? ==> r == if resp.NotModified? && cached.Some? then Ok(cached.value.1) else Raised)
      && (!resp.Success? || resp.etag in {None, Some("")} ==> cache.entries == Touched(old(cache.entries), key))
  {
    var cached := cache.Get(key);
    var resp := answers.0;
    for attempt := 0 to 2
      invariant attempt == 0 ==> resp == answers.0
      invariant attempt == 1 ==> answers.0.Throttled?
      invariant attempt == 2 ==> answers.0.Throttled? && resp == answers.1
      invariant cache.Valid() && cache.entries == Touched(old(cache.entries), key)
      invariant cached == Lookup(old(cache.entries), key)
    {
      resp := if attempt == 0 then answers.0 else answers.1;
      if resp.Throttled? && attempt == 0 {
        continue;
      }
      break;
    }
    if resp.NotModified? && cached.Some? {
      return Ok(cached.value.1);
    }
    if !resp.Success? {
      return Raised;
    }
    if resp.etag.Some? && resp.etag.value != "" {
      cache.Store(key, resp.etag.value, resp.body, resp.size);
    }
    return Ok(resp.body);
  }

  // ---------------------------------------------------------------------------------------
  // Many clients
  // ---------------------------------------------------------------------------------------

  type ClientId = nat

  /** Where a call stands. `truth` is what the server held when it gave the answer at hand. */
  datatype Call =
    | Idle
    | Sending(key: Key, cached: Cached, attempt: nat)
    | Answered(key: Key, cached: Cached, attempt: nat, resp: Response, truth: Resource)
    | Returned(key: Key, result: Result<Body>, truth: Resource)

  datatype State = State(server: map<Key, Resource>, cache: seq<Entry>, calls: map<ClientId, Call>)

  datatype Step =
    | Begin(c: ClientId, key: Key)              // read the cache
    | Serve(c: ClientId, full: bool)            // the server answers from what it holds
    | Refuse(c: ClientId, resp: Response)       // the server throttles or fails
    | Receive(c: ClientId)                      // the client handles the answer
    | Abort(c: ClientId)                        // the call is cancelled
    | Change(key: Key, now: Option<Resource>)   // the resource changes on the server

  /**
   ETags are strong validators: over the whole run a URL and an ETag name one body
   (section 8.8.3 of RFC 9110). `names` is that body.
   */
  type Validators = (Key, Etag) -> Body

  ghost predicate Consistent(names: Validators, key: Key, r: Resource) {
    r.etag.Some? ==> r.body == names(key, r.etag.value)
  }

  function Etagged(r: Resource): Response {
    Success(r.etag, r.body, r.size)
  }

  ghost predicate Next(names: Validators, cap: int, maxBytes: int, s: State, step: Step, s': State) {
    match step
    case Begin(c, key) =>
      && (c in s.calls ==> s.calls[c].Idle? || s.calls[c].Returned?)
      && s' == s.(cache := Touched(s.cache, key), calls := s.calls[c := Sending(key, Lookup(s.cache, key), 0)])
    case Serve(c, full) =>
      && c in s.calls && s.calls[c].Sending? && s.calls[c].key in s.server
      && var call := s.calls[c];
         var r := s.server[call.key];
         // 304 exactly answers an If-None-Match that matches (sections 13.1.2 and 15.4.5 of RFC 9110)
         && (!full ==> call.cached.Some? && r.etag == Some(call.cached.value.0))
         && s' == s.(calls := s.calls[c :=
              Answered(call.key, call.cached, call.attempt, if full then Etagged(r) else NotModified, r)])
    case Refuse(c, resp) =>
      && c in s.calls && s.calls[c].Sending? && (resp.Throttled? || resp.Failure?)
      && exists r :: s' == s.(calls := s.calls[c :=
           Answered(s.calls[c].key, s.calls[c].cached, s.calls[c].attempt, resp, r)])
    case Receive(c) =>
      && c in s.calls && s.calls[c].Answered?
      && var call := s.calls[c];
         if call.resp.Throttled? && call.attempt == 0 then
           s' == s.(calls := s.calls[c := Sending(call.key, call.cached, 1)])
         else
           s' == s.(cache := CacheAfter(s.cache, call.key, call.resp, cap, maxBytes),
                    calls := s.calls[c := Returned(call.key, Outcome(call.cached, call.resp), call.truth)])
    case Abort(c) =>
      s' == s.(calls := s.calls[c := Idle])
    case Change(key, now) =>
      && (now.Some? ==> Consistent(names, key, now.value))
      && s' == s.(server := if now.Some? then s.server[key := now.value] else s.server - {key})
  }

  ghost predicate Init(names: Validators, s: State) {
    && s.cache == [] && s.calls == map[]
    && forall key :: key in s.server ==> Consistent(names, key, s.server[key])
  }

  /** A run: the states it passes through and the steps between them. */
  ghost predicate IsRun(names: Validators, cap: int, maxBytes: int, states: seq<State>, steps: seq<Step>) {
    && |states| == |steps| + 1
    && Init(names, states[0])
    && forall i :: 0 <= i < |steps| ==> Next(names, cap, maxBytes, states[i], steps[i], states[i + 1])
  }

  ghost predicate GoodPair(names: Validators, key: Key, cached: Cached) {
    cached.Some? ==> cached.value.1 == names(key, cached.value.0)
  }

  ghost predicate GoodCall(names: Validators, call: Call) {
    match call
    case Idle => true
    case Sending(key, cached, _) => GoodPair(names, key, cached)
    case Answered(key, cached, _, resp, truth) =>
      && GoodPair(names, key, cached)
      && (resp.NotModified? ==> cached.Some? && cached.value.1 == truth.body)
      && (resp.Success? ==> resp == Etagged(truth) && Consistent(names, key, truth))
    case Returned(_, result, truth) => result.Ok? ==> result.value == truth.body
  }

  ghost predicate GoodCache(names: Validators, cache: seq<Entry>) {
    && UniqueKeys(cache)
    && forall e :: e in cache ==> e.body == names(e.key, e.etag)
  }

  ghost predicate Invariant(names: Validators, s: State) {
    && (forall key :: key in s.server ==> Consistent(names, key, s.server[key]))
    && GoodCache(names, s.cache)
    && (forall c :: c in s.calls ==> GoodCall(names, s.calls[c]))
  }

  lemma TouchKeepsGood(names: Validators, cache: seq<Entry>, key: Key)
    requires GoodCache(names, cache)
    ensures GoodCache(names, Touched(cache, key))
    ensures GoodPair(names, key, Lookup(cache, key))
  {
    FindFinds(cache, key);
    RemoveRemoves(cache, key);
  }

  lemma StoreKeepsGood(names: Validators, cache: seq<Entry>, e: Entry, cap: int, maxBytes: int)
    requires GoodCache(names, cache) && e.body == names(e.key, e.etag)
    ensures GoodCache(names, Stored(cache, e, cap, maxBytes))
  {
    RemoveRemoves(cache, e.key);
    EvictIsSuffix(Remove(cache, e.key) + [e], cap, maxBytes);
  }

  lemma NextKeepsInvariant(names: Validators, cap: int, maxBytes: int, s: State, step: Step, s': State)
    requires Invariant(names, s) && Next(names, cap, maxBytes, s, step, s')
    ensures Invariant(names, s')
  {
    match step {
      case Begin(c, key) =>
        TouchKeepsGood(names, s.cache, key);
      case Receive(c) =>
        var call := s.calls[c];
        if !(call.resp.Throttled? && call.attempt == 0) && call.resp.Success? && call.resp.etag.Some? {
          StoreKeepsGood(names, s.cache, Entry(call.key, call.resp.etag.value, call.resp.body, call.resp.size),
                         cap, maxBytes);
        }
      case _ =>
    }
  }

  /** In every run every cached body is the one its URL and ETag name. */
  lemma {:induction false} RunKeepsInvariant(names: Validators, cap: int, maxBytes: int, states: seq<State>,
                                             steps: seq<Step>, i: nat)
    requires IsRun(names, cap, maxBytes, states, steps) && i < |states|
    ensures Invariant(names, states[i])
  {
    if i > 0 {
      RunKeepsInvariant(names, cap, maxBytes, states, steps, i - 1);
      NextKeepsInvariant(names, cap, maxBytes, states[i - 1], steps[i - 1], states[i]);
    }
  }

  /**
   The cache is invisible: in every run, whatever the interleaving, evictions and overwrites,
   a call that handles an answer of the server either raises or retries, or returns the body
   the server held when it gave that answer.
   */
  lemma CacheIsTransparent(names: Validators, cap: int, maxBytes: int, states: seq<State>, steps: seq<Step>,
                           i: nat, j: nat, c: ClientId)
    requires IsRun(names, cap, maxBytes, states, steps)
    requires i < j < |steps|
    requires steps[i].Serve? && steps[i].c == c
    requires steps[j] == Receive(c)
    requires forall k :: i < k < j ==> steps[k].Change? || steps[k].c != c
    ensures c in states[i].calls && states[i].calls[c].Sending? && states[i].calls[c].key in states[i].server
    ensures c in states[j + 1].calls && states[j + 1].calls[c].Returned?
    ensures states[j + 1].calls[c].result == Ok(states[i].server[states[i].calls[c].key].body)
  {
    assert Next(names, cap, maxBytes, states[i], steps[i], states[i + 1]);
    Undisturbed(names, cap, maxBytes, states, steps, i + 1, j, c);
    assert Next(names, cap, maxBytes, states[j], steps[j], states[j + 1]);
    RunKeepsInvariant(names, cap, maxBytes, states, steps, j);
    RunKeepsInvariant(names, cap, maxBytes, states, steps, j + 1);
  }

  lemma {:induction false} Undisturbed(names: Validators, cap: int, maxBytes: int, states: seq<State>,
                                       steps: seq<Step>, i: nat, j: nat, c: ClientId)
    requires IsRun(names, cap, maxBytes, states, steps)
    requires i <= j < |states| && c in states[i].calls
    requires forall k :: i <= k < j ==> steps[k].Change? || steps[k].c != c
    ensures c in states[j].calls && states[j].calls[c] == states[i].calls[c]
  {
    if i < j {
      Undisturbed(names, cap, maxBytes, states, steps, i, j - 1, c);
      assert Next(names, cap, maxBytes, states[j - 1], steps[j - 1], states[j]);
    }
  }

  lemma {:induction false} AttemptsAreTwo(names: Validators, cap: int, maxBytes: int, states: seq<State>,
                                          steps: seq<Step>, i: nat, c: ClientId)
    requires IsRun(names, cap, maxBytes, states, steps) && i < |states| && c in states[i].calls
    ensures states[i].calls[c].Sending? || states[i].calls[c].Answered? ==> states[i].calls[c].attempt <= 1
  {
    if i > 0 {
      assert Next(names, cap, maxBytes, states[i - 1], steps[i - 1], states[i]);
      if c in states[i - 1].calls {
        AttemptsAreTwo(names, cap, maxBytes, states, steps, i - 1, c);
      }
    }
  }

  /** A call sends again exactly when its first answer is throttled; what it gets then is what it returns on. */
  lemma OneRetry(names: Validators, cap: int, maxBytes: int, states: seq<State>, steps: seq<Step>, i: nat, c: ClientId)
    requires IsRun(names, cap, maxBytes, states, steps) && i < |steps|
    ensures steps[i].Begin? && steps[i].c == c ==>
      c in states[i + 1].calls
      && states[i + 1].calls[c] == Sending(steps[i].key, Lookup(states[i].cache, steps[i].key), 0)
    ensures steps[i] == Receive(c) ==>
      c in states[i].calls && states[i].calls[c].Answered? && c in states[i + 1].calls &&
      var call := states[i].calls[c];
      if call.resp.Throttled? && call.attempt == 0 then states[i + 1].calls[c] == Sending(call.key, call.cached, 1)
      else call.attempt <= 1 && states[i + 1].calls[c].Returned?
  {
    assert Next(names, cap, maxBytes, states[i], steps[i], states[i + 1]);
    if c in states[i].calls {
      AttemptsAreTwo(names, cap, maxBytes, states, steps, i, c);
    }
  }

  /** A fetched body that fits is revalidated by the next read, whatever else happened to the cache before. */
  lemma FetchedIsRevalidated(cache: seq<Entry>, key: Key, r: Resource, cap: int, maxBytes: int)
    requires UniqueKeys(cache) && cap >= 1 && r.size <= maxBytes
    requires r.etag.Some? && r.etag.value != ""
    ensures Lookup(CacheAfter(cache, key, Etagged(r), cap, maxBytes), key) == Some((r.etag.value, r.body))
  {
    hide Evict, Remove, Find, UniqueKeys;
    var e := Entry(key, r.etag.value, r.body, r.size);
    StoredIsUnique(cache, e, cap, maxBytes);
    NewestSurvivesIffItFits(Remove(cache, key), e, cap, maxBytes);
    FindsOnly(Stored(cache, e, cap, maxBytes), e);
  }

  lemma StoredIsUnique(cache: seq<Entry>, e: Entry, cap: int, maxBytes: int)
    requires UniqueKeys(cache)
    ensures UniqueKeys(Stored(cache, e, cap, maxBytes))
  {
    RemoveRemoves(cache, e.key);
    EvictIsSuffix(Remove(cache, e.key) + [e], cap, maxBytes);
  }
}
