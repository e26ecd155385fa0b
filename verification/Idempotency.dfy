/** The idempotency middleware of internal/adapter/middleware/idempotency.go as
    interleaved steps of any number of requests over one key-value store. */
module Idempotency {

  import opened Wrappers

  const LOCK_TTL := 30
  const CACHE_TTL := 86400
  const PREFIX := "tally:idem:"

  // ---- keys and fingerprints ----

  /** A write request with a usable key; `tenant` is a uuid in text form, `path` is decoded. */
  datatype Req = Req(tenant: string, raw: string, method_: string, path: string, body: string)

  /** A method is a token; a decoded path may hold any character, NUL too (as "%00"). */
  predicate ValidReq(r: Req) { |r.tenant| == 36 && 0 < |r.raw| <= 200 && '\0' !in r.method_ }

  function CacheKey(r: Req): string { PREFIX + r.tenant + ":" + r.raw }

  function LockKey(r: Req): string { CacheKey(r) + ":lock" }

  /** What requestFingerprint hashes; SHA-256 is taken to be injective. */
  function Fingerprint(r: Req): string { r.method_ + "\0" + r.path + "\0" + r.body }

  predicate SameKey(a: Req, b: Req) { a.tenant == b.tenant && a.raw == b.raw }

  lemma CacheKeysApart(a: Req, b: Req)
    requires |a.tenant| == 36 && |b.tenant| == 36
    ensures CacheKey(a) == CacheKey(b) <==> SameKey(a, b)
    ensures LockKey(a) == LockKey(b) <==> SameKey(a, b)
    ensures CacheKey(a) == LockKey(b) <==> a.tenant == b.tenant && a.raw == b.raw + ":lock"
  {
    KeyParts(a);
    KeyParts(b);
    var n := |PREFIX|;
    if CacheKey(a) == CacheKey(b) {
      assert a.tenant == CacheKey(a)[n..n + 36] == b.tenant;
      assert a.raw == CacheKey(a)[n + 37..] == b.raw;
    }
    if LockKey(a) == LockKey(b) {
      var m := |CacheKey(a)|;
      assert CacheKey(a) == LockKey(a)[..m] && CacheKey(b) == LockKey(b)[..m];
      assert a.tenant == CacheKey(a)[n..n + 36] == b.tenant;
      assert a.raw == CacheKey(a)[n + 37..] == b.raw;
    }
    if CacheKey(a) == LockKey(b) {
      assert a.tenant == CacheKey(a)[n..n + 36] == LockKey(b)[n..n + 36] == b.tenant;
      assert a.raw == CacheKey(a)[n + 37..] == LockKey(b)[n + 37..] == b.raw + ":lock";
    }
    if a.tenant == b.tenant && a.raw == b.raw + ":lock" {
      assert CacheKey(a) == PREFIX + b.tenant + ":" + (b.raw + ":lock") == LockKey(b);
    }
  }

  lemma KeyParts(r: Req)
    requires |r.tenant| == 36
    ensures var n := |PREFIX|; var k := CacheKey(r);
      |k| == n + 37 + |r.raw| && k[n..n + 36] == r.tenant && k[n + 37..] == r.raw
  {
  }

  /** The path of b goes on where a's ends, with NUL and text that a's body has in front of
      NUL and b's body: the hashed bytes then agree. */
  predicate Collide(a: Req, b: Req) {
    var n := |a.path|;
    && n < |b.path| && b.path[..n] == a.path && b.path[n] == '\0'
    && a.body == b.path[n + 1..] + "\0" + b.body
  }

  predicate Alike(a: Req, b: Req) {
    a.method_ == b.method_ && ((a.path == b.path && a.body == b.body) || Collide(a, b) || Collide(b, a))
  }

  /** Fingerprints agree if and only if the requests are the same or one's path swallows, behind
      a NUL, the front of the other's body. */
  lemma FingerprintExactly(a: Req, b: Req)
    requires ValidReq(a) && ValidReq(b)
    ensures Fingerprint(a) == Fingerprint(b) <==> Alike(a, b)
  {
    assert Fingerprint(a) == a.method_ + "\0" + (a.path + "\0" + a.body);
    assert Fingerprint(b) == b.method_ + "\0" + (b.path + "\0" + b.body);
    FirstNul(a.method_, a.path + "\0" + a.body, b.method_, b.path + "\0" + b.body);
    if |a.path| <= |b.path| {
      RestExactly(a, b);
      NoLongerPath(b, a);
    } else {
      RestExactly(b, a);
      NoLongerPath(a, b);
    }
  }

  lemma NoLongerPath(a: Req, b: Req)
    requires |b.path| <= |a.path|
    ensures !Collide(a, b)
  {
  }

  lemma RestExactly(a: Req, b: Req)
    requires |a.path| <= |b.path|
    ensures a.path + "\0" + a.body == b.path + "\0" + b.body <==>
      (a.path == b.path && a.body == b.body) || Collide(a, b)
  {
    var n := |a.path|;
    var u, v := a.path + "\0" + a.body, b.path + "\0" + b.body;
    assert u[..n] == a.path && u[n] == '\0' && u[n + 1..] == a.body;
    if n == |b.path| {
      assert v[..n] == b.path && v[n + 1..] == b.body;
    } else {
      assert v[..n] == b.path[..n] && v[n] == b.path[n];
      assert v[n + 1..] == b.path[n + 1..] + "\0" + b.body;
      assert u == u[..n] + [u[n]] + u[n + 1..] && v == v[..n] + [v[n]] + v[n + 1..];
    }
  }

  /** Requests whose paths have no NUL are alike only if they are the same. */
  lemma PlainPathsApart(a: Req, b: Req)
    requires '\0' !in a.path && '\0' !in b.path
    ensures Alike(a, b) <==> a.method_ == b.method_ && a.path == b.path && a.body == b.body
    ensures !Collide(a, b) && !Collide(b, a)
  {
  }

  lemma FirstNul(p: string, s: string, q: string, t: string)
    requires '\0' !in p && '\0' !in q
    ensures p + "\0" + s == q + "\0" + t ==> p == q && s == t
  {
    var u, v := p + "\0" + s, q + "\0" + t;
    assert |p| < |q| ==> u[|p|] == '\0' && v[|p|] == q[|p|];
    assert |q| < |p| ==> v[|q|] == '\0' && u[|q|] == p[|q|];
    if u == v {
      assert p == u[..|p|] && q == v[..|q|];
      assert s == u[|p| + 1..] && t == v[|q| + 1..];
    }
  }

  // ---- responses ----

  datatype Response = Response(status: int, contentType: string, body: string)

  datatype Kind = Ok | Transient | ClientError | Uncached

  function ClassifyStatus(status: int): Kind {
    if 200 <= status < 300 then Ok
    else if status == 429 then Transient
    else if 400 <= status < 500 then ClientError
    else Uncached
  }

  // ---- the store and the requests in flight ----

  /** What a key holds: a cached response, the lock mark "1", or bytes that are no entry. */
  datatype Value = Entry(resp: Response, fp: string) | LockMark | Malformed

  datatype Item = Item(val: Value, expires: nat)

  /** A store call succeeds, or reports an error although its write may have landed. */
  datatype Reply = Good | Fault(landed: bool)

  datatype Outcome = Replayed(resp: Response) | KeyReused | InFlight | Answered(resp: Response) | Panicked

  /** Where a request stands. Open: its handler runs without deduplication after a store
      fault. Running, Ran: between lock and unlock. Unlocked: before the cache write. */
  datatype Phase =
    | Start
    | Missed
    | Open
    | Running(since: nat)
    | Ran(since: nat, resp: Response)
    | Unlocked(resp: Response)
    | Done(outcome: Outcome)

  /** The log holds every response a handler gave under the lock, with its request. */
  datatype State = State(now: nat, store: map<string, Item>, phases: seq<Phase>, log: set<(nat, Response)>)

  datatype Event =
    | Get(i: nat, reply: Reply)
    | Acquire(i: nat, reply: Reply)
    | Finish(i: nat, resp: Response)
    | Panic(i: nat)
    | Release(i: nat, reply: Reply)
    | Save(i: nat, reply: Reply)
    | Tick

  predicate Live(s: State, k: string) { k in s.store && s.now < s.store[k].expires }

  function Initial(n: nat): State { State(0, map[], seq(n, i => Start), {}) }

  predicate Enabled(s: State, e: Event) {
    match e
    case Tick => true
    case Get(i, _) => i < |s.phases| && s.phases[i].Start?
    case Acquire(i, _) => i < |s.phases| && s.phases[i].Missed?
    case Finish(i, _) => i < |s.phases| && (s.phases[i].Running? || s.phases[i].Open?)
    case Panic(i) => i < |s.phases| && (s.phases[i].Running? || s.phases[i].Open?)
    case Release(i, _) => i < |s.phases| && s.phases[i].Ran?
    case Save(i, _) => i < |s.phases| && s.phases[i].Unlocked?
  }

  /** A usable cached answer for k. */
  predicate Cached(s: State, k: string) { Live(s, k) && s.store[k].val.Entry? && s.store[k].val.resp.status > 0 }

  /** Cache lookup: reused key, hit, or a miss (also on bytes that are no entry). */
  function Looked(r: Req, s: State): Phase {
    if !Cached(s, CacheKey(r)) then Missed
    else
      var entry := s.store[CacheKey(r)].val;
      if entry.fp != "" && entry.fp != Fingerprint(r) then Done(KeyReused) else Done(Replayed(entry.resp))
  }

  function WithLock(r: Req, s: State): map<string, Item> {
    s.store[LockKey(r) := Item(LockMark, s.now + LOCK_TTL)]
  }

  /** The store after the cache write of a finished request; only 2xx answers are kept. */
  function WithEntry(r: Req, resp: Response, s: State): map<string, Item> {
    if ClassifyStatus(resp.status) != Ok then s.store
    else s.store[CacheKey(r) := Item(Entry(resp, Fingerprint(r)), s.now + CACHE_TTL)]
  }

  function Move(s: State, i: nat, p: Phase): State
    requires i < |s.phases|
  {
    s.(phases := s.phases[i := p])
  }

  function Next(rs: seq<Req>, s: State, e: Event): State
    requires |rs| == |s.phases| && Enabled(s, e)
  {
    match e
    case Tick => s.(now := s.now + 1)
    case Get(i, reply) => Move(s, i, if reply.Fault? then Open else Looked(rs[i], s))
    case Acquire(i, reply) =>
      var free := !Live(s, LockKey(rs[i]));
      var store := if free && reply != Fault(false) then WithLock(rs[i], s) else s.store;
      var next := if reply.Fault? then Open else if free then Running(s.now) else Done(InFlight);
      Move(s, i, next).(store := store)
    case Finish(i, resp) =>
      if s.phases[i].Open? then Move(s, i, Done(Answered(resp)))
      else Move(s, i, Ran(s.phases[i].since, resp)).(log := s.log + {(i, resp)})
    case Panic(i) => Move(s, i, Done(Panicked))
    case Release(i, reply) =>
      Move(s, i, Unlocked(s.phases[i].resp)).(
        store := if reply == Fault(false) then s.store else s.store - {LockKey(rs[i])})
    case Save(i, reply) =>
      var resp := s.phases[i].resp;
      Move(s, i, Done(Answered(resp))).(
        store := if reply == Fault(false) then s.store else WithEntry(rs[i], resp, s))
  }

  /** A run: each state follows from the one before by an enabled event. */
  predicate IsRun(rs: seq<Req>, states: seq<State>, events: seq<Event>) {
    && |states| == |events| + 1
    && (forall n :: 0 <= n <= |events| ==> |states[n].phases| == |rs|)
    && forall n :: 0 <= n < |events| ==>
         Enabled(states[n], events[n]) && states[n + 1] == Next(rs, states[n], events[n])
  }

  predicate Requests(rs: seq<Req>) { forall i :: 0 <= i < |rs| ==> ValidReq(rs[i]) }

  predicate FaultFree(e: Event) {
    match e
    case Get(_, reply) => reply.Good?
    case Acquire(_, reply) => reply.Good?
    case Release(_, reply) => reply.Good?
    case Save(_, reply) => reply.Good?
    case _ => true
  }

  // ---- at most one handler at a time ----

  predicate Holds(p: Phase) { p.Running? || p.Ran? }

  /** Every lock holder is done within the lock's lifetime of 30 seconds. */
  predicate Timely(s: State) {
    forall i :: 0 <= i < |s.phases| && Holds(s.phases[i]) ==> s.now < s.phases[i].since + 30
  }

  predicate Exclusive(rs: seq<Req>, s: State) {
    && |s.phases| == |rs|
    && (forall i :: 0 <= i < |rs| && Holds(s.phases[i]) ==>
          && s.phases[i].since <= s.now
          && LockKey(rs[i]) in s.store
          && s.phases[i].since + LOCK_TTL <= s.store[LockKey(rs[i])].expires)
    && (forall i, j :: 0 <= i < j < |rs| && LockKey(rs[i]) == LockKey(rs[j]) ==>
          !(Holds(s.phases[i]) && Holds(s.phases[j])))
  }

  lemma ExclusiveStep(rs: seq<Req>, s: State, e: Event)
    requires |rs| == |s.phases| && Enabled(s, e) && Exclusive(rs, s) && Timely(s)
    ensures Exclusive(rs, Next(rs, s, e))
  {
    hide CacheKey, LockKey, Fingerprint, Looked;
    match e
    case Get(i, reply) => LookedKinds(rs[i], s);
    case _ =>
  }

  lemma LookedKinds(r: Req, s: State)
    ensures !Holds(Looked(r, s)) && !Looked(r, s).Open?
  {
  }

  lemma RunPrefix(rs: seq<Req>, states: seq<State>, events: seq<Event>, n: nat)
    requires IsRun(rs, states, events) && n <= |events|
    ensures IsRun(rs, states[..n + 1], events[..n])
  {
    hide Next, Enabled;
  }

  /** In a timely run no two requests with one key are ever between lock and unlock
      together, whatever faults the store has. */
  lemma {:induction false} AtMostOneHolder(rs: seq<Req>, states: seq<State>, events: seq<Event>)
    requires IsRun(rs, states, events) && states[0] == Initial(|rs|)
    requires forall n :: 0 <= n < |events| ==> Timely(states[n])
    ensures Exclusive(rs, states[|events|])
  {
    hide Next, Enabled, Timely;
    if events == [] {
      FreshExclusive(rs);
    } else {
      var m := |events| - 1;
      RunPrefix(rs, states, events, m);
      AtMostOneHolder(rs, states[..m + 1], events[..m]);
      ExclusiveStep(rs, states[m], events[m]);
    }
  }

  lemma FreshExclusive(rs: seq<Req>)
    ensures Exclusive(rs, Initial(|rs|))
  {
  }

  /** With no store fault in the run, no handler runs outside the lock. */
  predicate NoneOpen(s: State) { forall i :: 0 <= i < |s.phases| ==> !s.phases[i].Open? }

  lemma NoneOpenStep(rs: seq<Req>, s: State, e: Event)
    requires |rs| == |s.phases| && Enabled(s, e) && FaultFree(e) && NoneOpen(s)
    ensures NoneOpen(Next(rs, s, e))
  {
    hide CacheKey, LockKey, Fingerprint, Looked;
    match e
    case Get(i, reply) => LookedKinds(rs[i], s);
    case _ =>
  }

  predicate Executing(p: Phase) { p.Running? || p.Open? }

  /** Without store faults, and with every handler done within the lock's lifetime, at most
      one handler runs for a (tenant, key) at any time of any run. */
  lemma {:induction false} AtMostOneHandler(rs: seq<Req>, states: seq<State>, events: seq<Event>)
    requires Requests(rs) && IsRun(rs, states, events) && states[0] == Initial(|rs|)
    requires forall n :: 0 <= n < |events| ==> FaultFree(events[n]) && Timely(states[n])
    ensures var s := states[|events|]; forall i, j :: 0 <= i < j < |rs| && SameKey(rs[i], rs[j]) ==>
      !(Executing(s.phases[i]) && Executing(s.phases[j]))
  {
    hide Next, Enabled, Timely, FaultFree, CacheKey, LockKey;
    AtMostOneHolder(rs, states, events);
    NeverOpen(rs, states, events);
    forall i, j | 0 <= i < j < |rs| && SameKey(rs[i], rs[j]) ensures LockKey(rs[i]) == LockKey(rs[j]) {
      CacheKeysApart(rs[i], rs[j]);
    }
  }

  lemma {:induction false} NeverOpen(rs: seq<Req>, states: seq<State>, events: seq<Event>)
    requires IsRun(rs, states, events) && states[0] == Initial(|rs|)
    requires forall n :: 0 <= n < |events| ==> FaultFree(events[n])
    ensures NoneOpen(states[|events|])
  {
    hide Next, Enabled, FaultFree;
    if events != [] {
      var m := |events| - 1;
      RunPrefix(rs, states, events, m);
      NeverOpen(rs, states[..m + 1], events[..m]);
      NoneOpenStep(rs, states[m], events[m]);
    }
  }

  // ---- a late lookup never runs the handler ----

  /** The cache key of r is nobody's lock key: within its tenant nobody has r's raw key
      without a final ":lock". */
  predicate CacheApart(rs: seq<Req>, r: Req) { forall j :: 0 <= j < |rs| ==> CacheKey(r) != LockKey(rs[j]) }

  /** The lock key of r is nobody's cache key: within its tenant nobody has r's raw key
      followed by ":lock". */
  predicate LockApart(rs: seq<Req>, r: Req) { forall j :: 0 <= j < |rs| ==> CacheKey(rs[j]) != LockKey(r) }

  predicate Stored(s: State, k: string, until: nat) {
    k in s.store && s.store[k].val.Entry? && s.store[k].val.resp.status > 0 && until <= s.store[k].expires
  }

  lemma StoredStep(rs: seq<Req>, s: State, e: Event, r: nat, until: nat)
    requires |rs| == |s.phases| && Enabled(s, e) && r < |rs| && CacheApart(rs, rs[r])
    requires Stored(s, CacheKey(rs[r]), until) && until <= s.now + CACHE_TTL
    ensures Stored(Next(rs, s, e), CacheKey(rs[r]), until)
    ensures s.now <= Next(rs, s, e).now
  {
    hide CacheKey, LockKey, Fingerprint, Looked;
  }

  lemma {:induction false} StoredStays(rs: seq<Req>, states: seq<State>, events: seq<Event>, p: nat, q: nat, r: nat,
                                       until: nat)
    requires IsRun(rs, states, events) && r < |rs| && CacheApart(rs, rs[r]) && p <= q <= |events|
    requires Stored(states[p], CacheKey(rs[r]), until) && until <= states[p].now + CACHE_TTL
    ensures Stored(states[q], CacheKey(rs[r]), until) && states[p].now <= states[q].now
    decreases q - p
  {
    hide Next, Enabled, CacheApart, Stored;
    if p < q {
      StoredStays(rs, states, events, p, q - 1, r, until);
      StoredStep(rs, states[q - 1], events[q - 1], r, until);
    }
  }

  lemma {:induction false} DoneStays(rs: seq<Req>, states: seq<State>, events: seq<Event>, p: nat, q: nat, i: nat)
    requires IsRun(rs, states, events) && i < |rs| && p <= q <= |events|
    requires states[p].phases[i].Done?
    ensures states[q].phases[i] == states[p].phases[i]
    decreases q - p
  {
    hide Next, Enabled;
    if p < q {
      DoneStays(rs, states, events, p, q - 1, i);
      DoneStep(rs, states[q - 1], events[q - 1], i);
    }
  }

  lemma DoneStep(rs: seq<Req>, s: State, e: Event, i: nat)
    requires |rs| == |s.phases| && Enabled(s, e) && i < |rs| && s.phases[i].Done?
    ensures Next(rs, s, e).phases[i] == s.phases[i]
  {
    hide CacheKey, LockKey, Fingerprint, Looked;
  }

  lemma SaveStores(rs: seq<Req>, s: State, e: Event)
    requires |rs| == |s.phases| && Enabled(s, e) && e.Save? && e.reply != Fault(false)
    requires ClassifyStatus(s.phases[e.i].resp.status) == Ok
    ensures Stored(Next(rs, s, e), CacheKey(rs[e.i]), s.now + CACHE_TTL) && Next(rs, s, e).now == s.now
  {
    hide CacheKey, LockKey, Fingerprint, Looked;
  }

  lemma HitAnswers(rs: seq<Req>, s: State, e: Event, until: nat)
    requires |rs| == |s.phases| && Enabled(s, e) && e.Get? && e.reply.Good?
    requires Stored(s, CacheKey(rs[e.i]), until) && s.now < until
    ensures Next(rs, s, e).phases[e.i].Done?
    ensures var o := Next(rs, s, e).phases[e.i].outcome; o.Replayed? || o.KeyReused?
  {
    hide CacheKey, LockKey, Fingerprint;
  }

  /** A request whose lookup comes after the cache write of a 2xx answer to its key, and
      within the cache's lifetime, is answered from the store and its handler never runs. */
  lemma LateLookupNeverRuns(rs: seq<Req>, states: seq<State>, events: seq<Event>, p: nat, q: nat, n: nat)
    requires Requests(rs) && IsRun(rs, states, events) && p < q < n <= |events|
    requires events[p].Save? && events[p].reply != Fault(false)
    requires Enabled(states[p], events[p]) && CacheApart(rs, rs[events[p].i])
    requires 200 <= states[p].phases[events[p].i].resp.status < 300
    requires events[q].Get? && events[q].reply.Good? && states[q].now < states[p].now + 86400
    requires Enabled(states[q], events[q]) && SameKey(rs[events[p].i], rs[events[q].i])
    ensures states[n].phases[events[q].i].Done?
    ensures var o := states[n].phases[events[q].i].outcome; o.Replayed? || o.KeyReused?
  {
    hide Next, CacheApart, Stored, CacheKey, LockKey;
    var i, j := events[q].i, events[p].i;
    var until := states[p].now + CACHE_TTL;
    assert states[p + 1] == Next(rs, states[p], events[p]);
    assert states[q + 1] == Next(rs, states[q], events[q]);
    CacheKeysApart(rs[j], rs[i]);
    SaveStores(rs, states[p], events[p]);
    StoredStays(rs, states, events, p + 1, q, j, until);
    HitAnswers(rs, states[q], events[q], until);
    DoneStays(rs, states, events, q + 1, n, i);
  }

  // ---- a replay is faithful ----

  /** Some request with cache key k and fingerprint fp was run under the lock and answered resp. */
  predicate Source(rs: seq<Req>, s: State, k: string, resp: Response, fp: string) {
    && ClassifyStatus(resp.status) == Ok
    && exists j: nat :: j < |rs| && (j, resp) in s.log && CacheKey(rs[j]) == k && Fingerprint(rs[j]) == fp
  }

  /** A different request with cache key k was run and answered 2xx. */
  predicate Clash(rs: seq<Req>, k: string, fp: string) {
    exists j: nat :: j < |rs| && CacheKey(rs[j]) == k && Fingerprint(rs[j]) != fp
  }

  predicate Faithful(rs: seq<Req>, s: State) {
    && |s.phases| == |rs|
    && (forall k :: k in s.store && s.store[k].val.Entry? ==>
          Source(rs, s, k, s.store[k].val.resp, s.store[k].val.fp))
    && (forall i :: 0 <= i < |rs| && (s.phases[i].Ran? || s.phases[i].Unlocked?) ==> (i, s.phases[i].resp) in s.log)
    && (forall i :: 0 <= i < |rs| && s.phases[i].Done? ==> FaithfulOutcome(rs, s, i, s.phases[i].outcome))
  }

  predicate FaithfulOutcome(rs: seq<Req>, s: State, i: nat, o: Outcome)
    requires i < |rs|
  {
    match o
    case Replayed(resp) => Source(rs, s, CacheKey(rs[i]), resp, Fingerprint(rs[i]))
    case KeyReused => Clash(rs, CacheKey(rs[i]), Fingerprint(rs[i]))
    case _ => true
  }

  lemma FingerprintNotEmpty(r: Req)
    ensures Fingerprint(r) != ""
  {
    assert |Fingerprint(r)| >= 2;
  }

  lemma LookupFaithful(rs: seq<Req>, s: State, i: nat)
    requires Faithful(rs, s) && i < |rs|
    ensures var p := Looked(rs[i], s); p.Missed? || (p.Done? && FaithfulOutcome(rs, s, i, p.outcome))
  {
    hide CacheKey, LockKey, Fingerprint;
    forall r ensures Fingerprint(r) != "" {
      FingerprintNotEmpty(r);
    }
  }

  lemma SourceKept(rs: seq<Req>, s: State, t: State, k: string, resp: Response, fp: string)
    requires Source(rs, s, k, resp, fp) && s.log <= t.log
    ensures Source(rs, t, k, resp, fp)
  {
  }

  lemma OutcomeKept(rs: seq<Req>, s: State, t: State, i: nat, o: Outcome)
    requires i < |rs| && FaithfulOutcome(rs, s, i, o) && s.log <= t.log
    ensures FaithfulOutcome(rs, t, i, o)
  {
    hide Source;
    if o.Replayed? {
      SourceKept(rs, s, t, CacheKey(rs[i]), o.resp, Fingerprint(rs[i]));
    }
  }

  lemma FaithfulStep(rs: seq<Req>, s: State, e: Event)
    requires |rs| == |s.phases| && Enabled(s, e) && Faithful(rs, s)
    ensures Faithful(rs, Next(rs, s, e))
  {
    hide CacheKey, LockKey, Fingerprint, Looked, Source, Clash, FaithfulOutcome;
    var t := Next(rs, s, e);
    forall k, resp, fp | Source(rs, s, k, resp, fp) ensures Source(rs, t, k, resp, fp) {
      SourceKept(rs, s, t, k, resp, fp);
    }
    forall i: nat, o | i < |rs| && FaithfulOutcome(rs, s, i, o) ensures FaithfulOutcome(rs, t, i, o) {
      OutcomeKept(rs, s, t, i, o);
    }
    forall i: nat, o: Outcome | i < |rs| && !o.Replayed? && !o.KeyReused? ensures FaithfulOutcome(rs, t, i, o) {
      PlainOutcome(rs, t, i, o);
    }
    match e
    case Get(i, reply) => LookupFaithful(rs, s, i);
    case Save(i, reply) => SaveFaithful(rs, s, t, i);
    case _ =>
  }

  lemma PlainOutcome(rs: seq<Req>, s: State, i: nat, o: Outcome)
    requires i < |rs| && !o.Replayed? && !o.KeyReused?
    ensures FaithfulOutcome(rs, s, i, o)
  {
  }

  lemma SaveFaithful(rs: seq<Req>, s: State, t: State, i: nat)
    requires |rs| == |s.phases| && i < |rs| && Faithful(rs, s) && s.phases[i].Unlocked? && s.log == t.log
    ensures ClassifyStatus(s.phases[i].resp.status) == Ok ==>
      Source(rs, t, CacheKey(rs[i]), s.phases[i].resp, Fingerprint(rs[i]))
  {
  }

  lemma {:induction false} AlwaysFaithful(rs: seq<Req>, states: seq<State>, events: seq<Event>)
    requires IsRun(rs, states, events) && states[0] == Initial(|rs|)
    ensures Faithful(rs, states[|events|])
  {
    hide Next, Enabled;
    if events != [] {
      var m := |events| - 1;
      RunPrefix(rs, states, events, m);
      AlwaysFaithful(rs, states[..m + 1], events[..m]);
      FaithfulStep(rs, states[m], events[m]);
    }
  }

  /** Whatever the faults and delays, a replayed response is the 2xx response of an earlier
      run of the same tenant and key for an alike request: the same one, unless it collides,
      which paths without NUL never do. */
  lemma ReplayIsFaithful(rs: seq<Req>, states: seq<State>, events: seq<Event>, i: nat) returns (j: nat)
    requires Requests(rs) && IsRun(rs, states, events) && states[0] == Initial(|rs|)
    requires i < |rs| && states[|events|].phases[i].Done? && states[|events|].phases[i].outcome.Replayed?
    ensures j < |rs| && SameKey(rs[i], rs[j]) && Alike(rs[i], rs[j])
    ensures rs[j] == rs[i] <==> !Collide(rs[i], rs[j]) && !Collide(rs[j], rs[i])
    ensures '\0' !in rs[i].path && '\0' !in rs[j].path ==> rs[j] == rs[i]
    ensures var resp := states[|events|].phases[i].outcome.resp;
      200 <= resp.status < 300 && (j, resp) in states[|events|].log
  {
    hide Next, Enabled, CacheKey, Fingerprint;
    AlwaysFaithful(rs, states, events);
    var s := states[|events|];
    var resp := s.phases[i].outcome.resp;
    assert Source(rs, s, CacheKey(rs[i]), resp, Fingerprint(rs[i]));
    j :| j < |rs| && (j, resp) in s.log && CacheKey(rs[j]) == CacheKey(rs[i]) && Fingerprint(rs[j]) == Fingerprint(rs[i]);
    CacheKeysApart(rs[i], rs[j]);
    FingerprintExactly(rs[i], rs[j]);
  }

  /** A lookup that finds the answer stored for request q is replayed if the requests are alike
      and refused as a reused key otherwise. */
  lemma LookupExactly(r: Req, q: Req, s: State)
    requires ValidReq(r) && ValidReq(q) && SameKey(r, q)
    requires Cached(s, CacheKey(q)) && s.store[CacheKey(q)].val.fp == Fingerprint(q)
    ensures Looked(r, s) ==
      Done(if Alike(r, q) then Replayed(s.store[CacheKey(q)].val.resp) else KeyReused)
  {
    hide CacheKey, Fingerprint, Alike;
    CacheKeysApart(r, q);
    FingerprintExactly(r, q);
    FingerprintNotEmpty(q);
  }

  /** If requests that share a key are equal, none is ever refused as a reused key. */
  lemma HonestKeysNeverRefused(rs: seq<Req>, states: seq<State>, events: seq<Event>, i: nat)
    requires Requests(rs) && IsRun(rs, states, events) && states[0] == Initial(|rs|)
    requires forall a, b :: 0 <= a < |rs| && 0 <= b < |rs| && SameKey(rs[a], rs[b]) ==> rs[a] == rs[b]
    requires i < |rs|
    ensures states[|events|].phases[i] != Done(KeyReused)
  {
    hide Next, Enabled, CacheKey, Fingerprint;
    AlwaysFaithful(rs, states, events);
    if states[|events|].phases[i] == Done(KeyReused) {
      assert Clash(rs, CacheKey(rs[i]), Fingerprint(rs[i]));
      var j: nat :| j < |rs| && CacheKey(rs[j]) == CacheKey(rs[i]) && Fingerprint(rs[j]) != Fingerprint(rs[i]);
      CacheKeysApart(rs[i], rs[j]);
      assert false;
    }
  }

  // ---- a refusal as "in flight" is true ----

  predicate Calm(e: Event) { FaultFree(e) && !e.Panic? }

  /** What stands under the lock key of r belongs to a request between lock and unlock. */
  predicate Owned(rs: seq<Req>, s: State, r: Req) {
    |s.phases| == |rs| && (LockKey(r) in s.store ==> Held(rs, s, r))
  }

  /** Some request with the lock key of r is between lock and unlock. */
  predicate Held(rs: seq<Req>, s: State, r: Req)
    requires |s.phases| == |rs|
  {
    exists i :: 0 <= i < |rs| && LockKey(rs[i]) == LockKey(r) && Holds(s.phases[i])
  }

  lemma OwnedStep(rs: seq<Req>, s: State, e: Event, r: Req)
    requires |rs| == |s.phases| && Enabled(s, e) && Calm(e) && LockApart(rs, r) && Owned(rs, s, r)
    ensures Owned(rs, Next(rs, s, e), r)
  {
    hide CacheKey, LockKey, Fingerprint, Looked;
    var t := Next(rs, s, e);
    assert forall i :: 0 <= i < |rs| && Holds(s.phases[i]) && !Holds(t.phases[i]) ==> e == Release(i, Good);
    if LockKey(r) in t.store {
      if e.Acquire? && t.phases[e.i].Running? && LockKey(rs[e.i]) == LockKey(r) {
        assert Holds(t.phases[e.i]);
      } else {
        assert LockKey(r) in s.store;
        var i :| 0 <= i < |rs| && LockKey(rs[i]) == LockKey(r) && Holds(s.phases[i]);
        assert e != Release(i, Good);
        assert Holds(t.phases[i]);
      }
    }
  }

  lemma {:induction false} AlwaysOwned(rs: seq<Req>, states: seq<State>, events: seq<Event>, n: nat, r: Req)
    requires IsRun(rs, states, events) && states[0] == Initial(|rs|) && LockApart(rs, r) && n <= |events|
    requires forall m :: 0 <= m < n ==> Calm(events[m])
    ensures Owned(rs, states[n], r)
  {
    hide Next, Enabled, LockApart, Calm;
    if n > 0 {
      AlwaysOwned(rs, states, events, n - 1, r);
      OwnedStep(rs, states[n - 1], events[n - 1], r);
    }
  }

  lemma RefusalStep(rs: seq<Req>, s: State, e: Event) returns (j: nat)
    requires |rs| == |s.phases| && Enabled(s, e) && e.Acquire? && Next(rs, s, e).phases[e.i] == Done(InFlight)
    requires Owned(rs, s, rs[e.i])
    ensures j < |rs| && j != e.i && LockKey(rs[j]) == LockKey(rs[e.i]) && Holds(s.phases[j])
  {
    hide CacheKey, LockKey, Fingerprint, Looked;
    j :| 0 <= j < |rs| && LockKey(rs[j]) == LockKey(rs[e.i]) && Holds(s.phases[j]);
  }

  /** Without faults and panics, a request refused as in flight really met another request
      with its key between lock and unlock, unless another key of the run is its key followed
      by ":lock". */
  lemma RefusalIsTrue(rs: seq<Req>, states: seq<State>, events: seq<Event>, e: Event) returns (j: nat)
    requires Requests(rs) && IsRun(rs, states, events) && states[0] == Initial(|rs|)
    requires forall n :: 0 <= n < |events| ==> Calm(events[n])
    requires e.Acquire? && Enabled(states[|events|], e) && LockApart(rs, rs[e.i])
    requires Next(rs, states[|events|], e).phases[e.i] == Done(InFlight)
    ensures j < |rs| && j != e.i && SameKey(rs[j], rs[e.i]) && Holds(states[|events|].phases[j])
  {
    hide Next, LockApart, CacheKey, LockKey, Owned, Calm;
    AlwaysOwned(rs, states, events, |events|, rs[e.i]);
    j := RefusalStep(rs, states[|events|], e);
    CacheKeysApart(rs[j], rs[e.i]);
  }

  // ---- exactly when a handler runs ----

  /** A 2xx answer to the key of r is stored at step p. */
  predicate Saves(rs: seq<Req>, s: State, e: Event, r: Req)
    requires |s.phases| == |rs| && Enabled(s, e)
  {
    e.Save? && e.reply != Fault(false) && SameKey(rs[e.i], r) && 200 <= s.phases[e.i].resp.status < 300
  }

  /** Before step q a 2xx answer to the key of r was stored, less than the cache TTL ago. */
  predicate Answered2xx(rs: seq<Req>, states: seq<State>, events: seq<Event>, q: nat, r: Req)
    requires IsRun(rs, states, events) && q <= |events|
  {
    exists p :: 0 <= p < q && Saves(rs, states[p], events[p], r) && states[q].now < states[p].now + 86400
  }

  /** Nothing but the cache write of its key puts anything under the cache key of r. */
  lemma EntryStep(rs: seq<Req>, s: State, e: Event, r: Req)
    requires Requests(rs) && ValidReq(r) && |rs| == |s.phases| && Enabled(s, e) && CacheApart(rs, r)
    ensures var t := Next(rs, s, e); CacheKey(r) in t.store ==>
      (CacheKey(r) in s.store && t.store[CacheKey(r)] == s.store[CacheKey(r)])
      || (Saves(rs, s, e, r) && t.store[CacheKey(r)].expires == s.now + CACHE_TTL)
  {
    hide CacheKey, LockKey, Fingerprint, Looked;
    if e.Save? {
      CacheKeysApart(rs[e.i], r);
    }
  }

  lemma {:induction false} EntryOrigin(rs: seq<Req>, states: seq<State>, events: seq<Event>, q: nat, r: Req) returns (p: nat)
    requires Requests(rs) && ValidReq(r) && IsRun(rs, states, events) && states[0] == Initial(|rs|) && CacheApart(rs, r)
    requires q <= |events| && CacheKey(r) in states[q].store
    ensures p < q && Saves(rs, states[p], events[p], r)
    ensures states[q].store[CacheKey(r)].expires == states[p].now + CACHE_TTL
  {
    hide Next, Enabled, CacheApart, CacheKey, Saves, Requests, ValidReq;
    EntryStep(rs, states[q - 1], events[q - 1], r);
    if CacheKey(r) in states[q - 1].store && states[q].store[CacheKey(r)] == states[q - 1].store[CacheKey(r)] {
      p := EntryOrigin(rs, states, events, q - 1, r);
    } else {
      p := q - 1;
    }
  }

  lemma MissIs(rs: seq<Req>, s: State, e: Event)
    requires |rs| == |s.phases| && Enabled(s, e) && e.Get? && e.reply.Good?
    ensures Next(rs, s, e).phases[e.i].Missed? <==> !Cached(s, CacheKey(rs[e.i]))
  {
    hide CacheKey, LockKey, Fingerprint;
  }

  /** Over every run with any faults and delays: a lookup that gets an answer from the store
      misses if and only if no 2xx answer to its key was stored before it, less than the cache
      TTL ago; unless its key without a final ":lock" is a key of the run. */
  lemma MissExactly(rs: seq<Req>, states: seq<State>, events: seq<Event>, q: nat)
    requires Requests(rs) && IsRun(rs, states, events) && states[0] == Initial(|rs|)
    requires q < |events| && events[q].Get? && events[q].reply.Good? && events[q].i < |rs| && CacheApart(rs, rs[events[q].i])
    ensures states[q + 1].phases[events[q].i].Missed? <==> !Answered2xx(rs, states, events, q, rs[events[q].i])
  {
    hide Next, CacheApart, CacheKey, LockKey, Saves, Stored, ValidReq;
    var r := rs[events[q].i];
    MissIs(rs, states[q], events[q]);
    if Cached(states[q], CacheKey(r)) {
      var p := EntryOrigin(rs, states, events, q, r);
    }
    if Answered2xx(rs, states, events, q, r) {
      var p: nat :| p < q && Saves(rs, states[p], events[p], r) && states[q].now < states[p].now + CACHE_TTL;
      SavedIsCached(rs, states, events, p, q, events[q].i);
    }
  }

  lemma SavedIsCached(rs: seq<Req>, states: seq<State>, events: seq<Event>, p: nat, q: nat, i: nat)
    requires Requests(rs) && IsRun(rs, states, events) && i < |rs| && CacheApart(rs, rs[i]) && p < q <= |events|
    requires Enabled(states[p], events[p]) && Saves(rs, states[p], events[p], rs[i])
    requires states[q].now < states[p].now + CACHE_TTL
    ensures Cached(states[q], CacheKey(rs[i]))
  {
    hide Next, CacheApart, CacheKey, LockKey;
    assert states[p + 1] == Next(rs, states[p], events[p]);
    CacheKeysApart(rs[events[p].i], rs[i]);
    SaveStores(rs, states[p], events[p]);
    StoredStays(rs, states, events, p + 1, q, i, states[p].now + CACHE_TTL);
  }

  lemma HeldLocks(rs: seq<Req>, s: State, r: Req)
    requires Exclusive(rs, s) && Timely(s) && Held(rs, s, r)
    ensures Live(s, LockKey(r))
  {
    hide LockKey;
  }

  lemma AcquireIs(rs: seq<Req>, s: State, e: Event)
    requires |rs| == |s.phases| && Enabled(s, e) && e.Acquire? && e.reply.Good?
    ensures Next(rs, s, e).phases[e.i] == if Live(s, LockKey(rs[e.i])) then Done(InFlight) else Running(s.now)
  {
    hide CacheKey, LockKey;
  }

  /** Over every run without faults and panics whose lock holders finish within the lock TTL: a
      lock attempt runs the handler if and only if no request with its key is between lock and
      unlock; unless its key followed by ":lock" is a key of the run. */
  lemma AcquireExactly(rs: seq<Req>, states: seq<State>, events: seq<Event>, a: nat)
    requires Requests(rs) && IsRun(rs, states, events) && states[0] == Initial(|rs|) && a < |events|
    requires forall n :: 0 <= n <= a ==> Calm(events[n]) && Timely(states[n])
    requires events[a].Acquire? && events[a].i < |rs| && LockApart(rs, rs[events[a].i])
    ensures states[a + 1].phases[events[a].i].Running? <==> !Held(rs, states[a], rs[events[a].i])
  {
    hide Next, LockApart, CacheKey, LockKey, Timely, Exclusive, Held, Live, Initial;
    var r := rs[events[a].i];
    AlwaysOwned(rs, states, events, a, r);
    RunPrefix(rs, states, events, a);
    AtMostOneHolder(rs, states[..a + 1], events[..a]);
    AcquireIs(rs, states[a], events[a]);
    if Held(rs, states[a], r) {
      HeldLocks(rs, states[a], r);
    }
    LiveIsIn(states[a], LockKey(r));
  }

  lemma LiveIsIn(s: State, k: string)
    ensures Live(s, k) ==> k in s.store
  {
  }

  /** The handler of a request runs or has run, in a run without faults and panics. */
  predicate HasRun(p: Phase) { p.Running? || p.Ran? || p.Unlocked? || (p.Done? && p.outcome.Answered?) }

  /** The lookup of j at q misses and its lock attempt at a finds nobody with its key between
      lock and unlock. */
  predicate GoesThrough(rs: seq<Req>, states: seq<State>, events: seq<Event>, j: nat, q: nat, a: nat)
    requires IsRun(rs, states, events) && j < |rs|
  {
    && q < a < |events| && events[q] == Get(j, Good) && events[a] == Acquire(j, Good)
    && !Answered2xx(rs, states, events, q, rs[j])
    && !Held(rs, states[a], rs[j])
  }

  lemma PhaseStep(rs: seq<Req>, s: State, e: Event, j: nat)
    requires |rs| == |s.phases| && Enabled(s, e) && Calm(e) && NoneOpen(s) && j < |rs|
    ensures var p, t := s.phases[j], Next(rs, s, e).phases[j];
      && (t.Missed? ==> p.Missed? || e == Get(j, Good))
      && (HasRun(t) ==> HasRun(p) || (e == Acquire(j, Good) && p.Missed? && t.Running?))
      && (HasRun(p) ==> HasRun(t))
  {
    hide CacheKey, LockKey, Fingerprint, Looked;
    if e.Get? {
      LookedIs(rs[e.i], s);
    }
  }

  lemma LookedIs(r: Req, s: State)
    ensures var p := Looked(r, s); p.Missed? || (p.Done? && !p.outcome.Answered?)
  {
  }

  lemma {:induction false} MissedOrigin(rs: seq<Req>, states: seq<State>, events: seq<Event>, n: nat, j: nat) returns (q: nat)
    requires IsRun(rs, states, events) && states[0] == Initial(|rs|) && n <= |events| && j < |rs|
    requires forall m :: 0 <= m < n ==> Calm(events[m])
    requires states[n].phases[j].Missed?
    ensures q < n && events[q] == Get(j, Good) && states[q + 1].phases[j].Missed?
  {
    hide Next, Enabled, Calm;
    AlwaysNoneOpen(rs, states, events, n - 1);
    PhaseStep(rs, states[n - 1], events[n - 1], j);
    if states[n - 1].phases[j].Missed? {
      q := MissedOrigin(rs, states, events, n - 1, j);
    } else {
      q := n - 1;
    }
  }

  lemma {:induction false} RunOrigin(rs: seq<Req>, states: seq<State>, events: seq<Event>, n: nat, j: nat) returns (a: nat)
    requires IsRun(rs, states, events) && states[0] == Initial(|rs|) && n <= |events| && j < |rs|
    requires forall m :: 0 <= m < n ==> Calm(events[m])
    requires HasRun(states[n].phases[j])
    ensures a < n && events[a] == Acquire(j, Good) && states[a].phases[j].Missed? && states[a + 1].phases[j].Running?
  {
    hide Next, Enabled, Calm;
    AlwaysNoneOpen(rs, states, events, n - 1);
    PhaseStep(rs, states[n - 1], events[n - 1], j);
    if HasRun(states[n - 1].phases[j]) {
      a := RunOrigin(rs, states, events, n - 1, j);
    } else {
      a := n - 1;
    }
  }

  lemma {:induction false} RunStays(rs: seq<Req>, states: seq<State>, events: seq<Event>, m: nat, n: nat, j: nat)
    requires IsRun(rs, states, events) && states[0] == Initial(|rs|) && m <= n <= |events| && j < |rs|
    requires forall k :: 0 <= k < n ==> Calm(events[k])
    requires HasRun(states[m].phases[j])
    ensures HasRun(states[n].phases[j])
    decreases n
  {
    hide Next, Enabled, Calm, HasRun;
    if m < n {
      RunStays(rs, states, events, m, n - 1, j);
      AlwaysNoneOpen(rs, states, events, n - 1);
      PhaseStep(rs, states[n - 1], events[n - 1], j);
    }
  }

  lemma AlwaysNoneOpen(rs: seq<Req>, states: seq<State>, events: seq<Event>, n: nat)
    requires IsRun(rs, states, events) && states[0] == Initial(|rs|) && n <= |events|
    requires forall m :: 0 <= m < n ==> Calm(events[m])
    ensures NoneOpen(states[n]) && |states[n].phases| == |rs|
  {
    hide Next, Enabled, FaultFree;
    RunPrefix(rs, states, events, n);
    NeverOpen(rs, states[..n + 1], events[..n]);
  }

  /** Over every run without faults and panics whose lock holders finish within the lock TTL:
      the handler of j runs if and only if the lookup of j came before every 2xx answer to its
      key was stored, or the cache TTL after the last, and its lock attempt met nobody with its
      key between lock and unlock. Only its own key must not be an alias. */
  lemma HandlerRunsExactly(rs: seq<Req>, states: seq<State>, events: seq<Event>, j: nat)
    requires Requests(rs) && IsRun(rs, states, events) && states[0] == Initial(|rs|)
    requires forall n :: 0 <= n < |events| ==> Calm(events[n]) && Timely(states[n])
    requires j < |rs| && CacheApart(rs, rs[j]) && LockApart(rs, rs[j])
    ensures HasRun(states[|events|].phases[j]) <==> exists q: nat, a: nat :: GoesThrough(rs, states, events, j, q, a)
  {
    hide Next, Enabled, Calm, Timely, CacheApart, LockApart, Answered2xx, Held, Requests, Initial;
    if HasRun(states[|events|].phases[j]) {
      var a := RunOrigin(rs, states, events, |events|, j);
      var q := MissedOrigin(rs, states, events, a, j);
      MissExactly(rs, states, events, q);
      AcquireExactly(rs, states, events, a);
      assert GoesThrough(rs, states, events, j, q, a);
    }
    if exists q: nat, a: nat :: GoesThrough(rs, states, events, j, q, a) {
      var q: nat, a: nat :| GoesThrough(rs, states, events, j, q, a);
      AcquireExactly(rs, states, events, a);
      RunStays(rs, states, events, a + 1, |events|, j);
    }
  }

  // ---- the path of one request ----

  predicate Of(e: Event, j: nat) { !e.Tick? && e.i == j }

  /** The events of request j, in order. */
  function Own(events: seq<Event>, j: nat): (own: seq<Event>)
    ensures forall e <- own :: Of(e, j)
  {
    if events == [] then []
    else
      var e := events[|events| - 1];
      Own(events[..|events| - 1], j) + if Of(e, j) then [e] else []
  }

  /** A store fault at the lookup or at the lock. */
  predicate MetFault(own: seq<Event>) {
    || (|own| == 1 && own[0].Get? && own[0].reply.Fault?)
    || (|own| == 2 && LookedUp(own) && own[1].Acquire? && own[1].reply.Fault?)
  }

  /** A lookup without a fault. */
  predicate LookedUp(own: seq<Event>) { |own| >= 1 && own[0].Get? && own[0].reply.Good? }

  /** A lookup and a lock attempt without a fault. */
  predicate Attempted(own: seq<Event>) { |own| >= 2 && LookedUp(own) && own[1].Acquire? && own[1].reply.Good? }

  /** The events that lead a request to where it stands: after a fault its handler runs and
      its answer is given, without lock, unlock or cache write; without one the handler runs
      after the lock, and its answer is given after unlock and cache write. */
  predicate Path(own: seq<Event>, j: nat, p: Phase) {
    var n := |own|;
    match p
    case Start => n == 0
    case Missed => n == 1 && LookedUp(own)
    case Open => MetFault(own)
    case Running(_) => n == 2 && Attempted(own)
    case Ran(_, resp) => n == 3 && Attempted(own) && own[2] == Finish(j, resp)
    case Unlocked(resp) => n == 4 && Attempted(own) && own[2] == Finish(j, resp) && own[3].Release?
    case Done(Replayed(_)) => n == 1 && LookedUp(own)
    case Done(KeyReused) => n == 1 && LookedUp(own)
    case Done(InFlight) => n == 2 && Attempted(own)
    case Done(Panicked) =>
      && n >= 1 && own[n - 1] == Panic(j)
      && (MetFault(own[..n - 1]) || (n == 3 && Attempted(own)))
    case Done(Answered(resp)) =>
      || (n >= 1 && own[n - 1] == Finish(j, resp) && MetFault(own[..n - 1]))
      || (n == 5 && Attempted(own) && own[2] == Finish(j, resp) && own[3].Release? && own[4].Save?)
  }

  lemma PathStep(rs: seq<Req>, s: State, e: Event, own: seq<Event>, j: nat)
    requires |rs| == |s.phases| && Enabled(s, e) && j < |rs| && Path(own, j, s.phases[j])
    ensures Path(own + (if Of(e, j) then [e] else []), j, Next(rs, s, e).phases[j])
  {
    hide CacheKey, LockKey, Fingerprint, Looked;
    var grown := own + if Of(e, j) then [e] else [];
    if Of(e, j) {
      assert grown[..|own|] == own;
      if e.Get? {
        LookedAnswers(rs[j], s);
      }
    } else {
      assert grown == own;
    }
  }

  lemma LookedAnswers(r: Req, s: State)
    ensures var p := Looked(r, s); p.Missed? || (p.Done? && (p.outcome.Replayed? || p.outcome.KeyReused?))
  {
  }

  /** In every run, whatever faults the store has, the events of each request are the path to
      where it stands. */
  lemma {:induction false} EveryPath(rs: seq<Req>, states: seq<State>, events: seq<Event>, j: nat)
    requires IsRun(rs, states, events) && states[0] == Initial(|rs|) && j < |rs|
    ensures Path(Own(events, j), j, states[|events|].phases[j])
  {
    hide Next, Enabled, Path, Of;
    if events == [] {
      FreshPath(j);
    } else {
      var m := |events| - 1;
      RunPrefix(rs, states, events, m);
      EveryPath(rs, states[..m + 1], events[..m], j);
      PathStep(rs, states[m], events[m], Own(events[..m], j), j);
    }
  }

  lemma FreshPath(j: nat)
    ensures Path([], j, Start)
  {
  }

  /** A request whose lookup or lock attempt met a store fault is never refused, replayed or
      stored: its handler runs, and what the handler gives is the answer. */
  lemma FaultRunsOpen(rs: seq<Req>, states: seq<State>, events: seq<Event>, j: nat, m: nat)
    requires IsRun(rs, states, events) && states[0] == Initial(|rs|) && j < |rs| && m < |events|
    requires Of(events[m], j) && (events[m].Get? || events[m].Acquire?) && events[m].reply.Fault?
    ensures var p := states[|events|].phases[j];
      && (p.Open? || (p.Done? && (p.outcome.Answered? || p.outcome.Panicked?)))
      && (forall resp :: p == Done(Answered(resp)) ==> Finish(j, resp) in events)
      && (p == Done(Panicked) ==> Panic(j) in events)
    ensures forall reply :: Save(j, reply) !in events && Release(j, reply) !in events
  {
    hide Next, Enabled, Path, Of;
    EveryPath(rs, states, events, j);
    forall e ensures e in Own(events, j) <==> e in events && Of(e, j) {
      OwnHas(events, j, e);
    }
    FaultPath(Own(events, j), j, states[|events|].phases[j], events[m]);
    forall reply ensures Of(Save(j, reply), j) && Of(Release(j, reply), j) {
      OfStore(j, reply);
    }
  }

  lemma OfStore(j: nat, reply: Reply)
    ensures Of(Save(j, reply), j) && Of(Release(j, reply), j)
  {
  }

  lemma FaultPath(own: seq<Event>, j: nat, p: Phase, e: Event)
    requires Path(own, j, p) && e in own && (e.Get? || e.Acquire?) && e.reply.Fault?
    ensures p.Open? || (p.Done? && (p.outcome.Answered? || p.outcome.Panicked?))
    ensures forall resp :: p == Done(Answered(resp)) ==> Finish(j, resp) in own
    ensures p == Done(Panicked) ==> Panic(j) in own
    ensures forall reply :: Save(j, reply) !in own && Release(j, reply) !in own
  {
  }

  lemma {:induction false} OwnHas(events: seq<Event>, j: nat, e: Event)
    ensures e in Own(events, j) <==> e in events && Of(e, j)
  {
    hide Of;
    if events != [] {
      var m := |events| - 1;
      OwnHas(events[..m], j, e);
      assert events == events[..m] + [events[m]];
    }
  }

  // ---- what the protocol does not promise ----

  /** A fault-free step of request i, and what it leaves. */
  function Step(s: State, i: nat, p: Phase, store: map<string, Item>, log: set<(nat, Response)>): State
    requires i < |s.phases|
  {
    State(s.now, store, s.phases[i := p], log)
  }

  /** Drives the run one event further. */
  lemma Extend(rs: seq<Req>, states: seq<State>, events: seq<Event>, e: Event, t: State)
    returns (longer: seq<State>, more: seq<Event>)
    requires IsRun(rs, states, events) && Enabled(states[|events|], e) && Calm(e)
    requires t == Next(rs, states[|events|], e)
    requires forall n :: 0 <= n < |events| ==> Calm(events[n])
    ensures IsRun(rs, longer, more) && |more| == |events| + 1 && longer[|more|] == t && longer[0] == states[0]
    ensures forall n :: 0 <= n < |more| ==> Calm(more[n])
    ensures more == events + [e] && longer == states + [t]
  {
    hide CacheKey, LockKey, Fingerprint, Looked, Calm;
    longer, more := states + [t], events + [e];
  }

  lemma MissStep(rs: seq<Req>, s: State, i: nat)
    requires |rs| == |s.phases| && i < |rs| && s.phases[i].Start? && !Cached(s, CacheKey(rs[i]))
    ensures Enabled(s, Get(i, Good)) && Next(rs, s, Get(i, Good)) == Step(s, i, Missed, s.store, s.log)
  {
    hide CacheKey, LockKey, Fingerprint;
  }

  lemma LockStep(rs: seq<Req>, s: State, i: nat)
    requires |rs| == |s.phases| && i < |rs| && s.phases[i].Missed? && !Live(s, LockKey(rs[i]))
    ensures Enabled(s, Acquire(i, Good))
    ensures Next(rs, s, Acquire(i, Good)) == Step(s, i, Running(s.now), WithLock(rs[i], s), s.log)
  {
    hide CacheKey, LockKey, Fingerprint, Looked;
  }

  lemma FinishStep(rs: seq<Req>, s: State, i: nat, resp: Response)
    requires |rs| == |s.phases| && i < |rs| && s.phases[i].Running?
    ensures Enabled(s, Finish(i, resp))
    ensures Next(rs, s, Finish(i, resp)) == Step(s, i, Ran(s.phases[i].since, resp), s.store, s.log + {(i, resp)})
  {
    hide CacheKey, LockKey, Fingerprint, Looked;
  }

  lemma UnlockStep(rs: seq<Req>, s: State, i: nat)
    requires |rs| == |s.phases| && i < |rs| && s.phases[i].Ran?
    ensures Enabled(s, Release(i, Good))
    ensures Next(rs, s, Release(i, Good)) ==
            Step(s, i, Unlocked(s.phases[i].resp), s.store - {LockKey(rs[i])}, s.log)
  {
    hide CacheKey, LockKey, Fingerprint, Looked;
  }

  lemma SaveStep(rs: seq<Req>, s: State, i: nat)
    requires |rs| == |s.phases| && i < |rs| && s.phases[i].Unlocked?
    ensures Enabled(s, Save(i, Good))
    ensures Next(rs, s, Save(i, Good)) ==
            Step(s, i, Done(Answered(s.phases[i].resp)), WithEntry(rs[i], s.phases[i].resp, s), s.log)
  {
    hide CacheKey, LockKey, Fingerprint, Looked;
  }

  const CREATED := Response(201, "application/json", "{}")

  /** Runs the handler of i, which has missed the cache and finds the lock free. */
  lemma RunHandler(rs: seq<Req>, states: seq<State>, events: seq<Event>, i: nat)
    returns (longer: seq<State>, more: seq<Event>)
    requires IsRun(rs, states, events) && forall n :: 0 <= n < |events| ==> Calm(events[n])
    requires var s := states[|events|]; i < |rs| && s.phases[i].Missed? && !Live(s, LockKey(rs[i]))
    ensures IsRun(rs, longer, more) && longer[0] == states[0] && |more| == |events| + 2
    ensures forall n :: 0 <= n < |more| ==> Calm(more[n])
    ensures longer[..|states|] == states && more[..|events|] == events
    ensures AllAt(states, states[|events|].now) ==> AllAt(longer, states[|events|].now)
    ensures var s, t := states[|events|], longer[|more|];
      t == Step(s, i, Ran(s.now, CREATED), WithLock(rs[i], s), s.log + {(i, CREATED)})
  {
    hide Next, Enabled, CacheKey, LockKey;
    var s := states[|events|];
    LockStep(rs, s, i);
    var s1 := Step(s, i, Running(s.now), WithLock(rs[i], s), s.log);
    longer, more := Extend(rs, states, events, Acquire(i, Good), s1);
    FinishStep(rs, s1, i, CREATED);
    var s2 := Step(s1, i, Ran(s.now, CREATED), s1.store, s1.log + {(i, CREATED)});
    longer, more := Extend(rs, longer, more, Finish(i, CREATED), s2);
    assert s2.phases == s.phases[i := Ran(s.now, CREATED)];
  }

  predicate AllAt(states: seq<State>, now: nat) { forall n :: 0 <= n < |states| ==> states[n].now == now }

  predicate AllCalm(events: seq<Event>) { forall n :: 0 <= n < |events| ==> Calm(events[n]) }

  /** A run from the initial state in which requests 0 and 1 have both looked up a miss. */
  lemma TwoMisses(rs: seq<Req>) returns (states: seq<State>, events: seq<Event>)
    requires |rs| >= 2
    ensures IsRun(rs, states, events) && AllCalm(events) && AllAt(states, 0) && states[0] == Initial(|rs|)
    ensures var s := states[|events|];
      s.store == map[] && s.phases[0].Missed? && s.phases[1].Missed?
      && (forall i :: 2 <= i < |rs| ==> s.phases[i].Start?)
  {
    hide Next, Enabled, CacheKey, LockKey, Calm;
    var s := Initial(|rs|);
    states, events := [s], [];
    MissStep(rs, s, 0);
    var s1 := Step(s, 0, Missed, s.store, s.log);
    CalmGood(0);
    states, events := Extend(rs, states, events, Get(0, Good), s1);
    MissStep(rs, s1, 1);
    var s2 := Step(s1, 1, Missed, s1.store, s1.log);
    CalmGood(1);
    states, events := Extend(rs, states, events, Get(1, Good), s2);
  }

  lemma CalmGood(i: nat)
    ensures Calm(Get(i, Good)) && Calm(Acquire(i, Good)) && Calm(Release(i, Good)) && Calm(Save(i, Good)) && Calm(Tick)
  {
  }

  /** Lets n units of time pass. */
  lemma {:induction false} Wait(rs: seq<Req>, states: seq<State>, events: seq<Event>, n: nat)
    returns (longer: seq<State>, more: seq<Event>)
    requires IsRun(rs, states, events) && AllCalm(events)
    ensures IsRun(rs, longer, more) && AllCalm(more) && longer[0] == states[0]
    ensures longer[|more|] == states[|events|].(now := states[|events|].now + n)
  {
    hide Next, Enabled, Calm;
    longer, more := states, events;
    if n > 0 {
      longer, more := Wait(rs, states, events, n - 1);
      var s := longer[|more|];
      TickStep(rs, s);
      CalmGood(0);
      longer, more := Extend(rs, longer, more, Tick, s.(now := s.now + 1));
    }
  }

  lemma TickStep(rs: seq<Req>, s: State)
    requires |rs| == |s.phases|
    ensures Enabled(s, Tick) && Next(rs, s, Tick) == s.(now := s.now + 1)
  {
  }

  /** A handler that takes the lock's lifetime, 30 seconds, lets a second one with its key in, so
      AtMostOneHandler needs its time bound. */
  lemma SlowHandlerOverlaps(rs: seq<Req>) returns (states: seq<State>, events: seq<Event>)
    requires |rs| >= 2 && Requests(rs) && SameKey(rs[0], rs[1])
    ensures IsRun(rs, states, events) && AllCalm(events) && states[0] == Initial(|rs|)
    ensures states[|events|].phases[0] == Running(0) && states[|events|].phases[1] == Running(30)
  {
    hide Next, Enabled, CacheKey, LockKey, Calm;
    CacheKeysApart(rs[0], rs[1]);
    CalmGood(0);
    CalmGood(1);
    states, events := TwoMisses(rs);
    var s := states[|events|];
    LockStep(rs, s, 0);
    var s1 := Step(s, 0, Running(s.now), WithLock(rs[0], s), s.log);
    states, events := Extend(rs, states, events, Acquire(0, Good), s1);
    states, events := Wait(rs, states, events, LOCK_TTL);
    var s2 := states[|events|];
    LockStep(rs, s2, 1);
    var s3 := Step(s2, 1, Running(s2.now), WithLock(rs[1], s2), s2.log);
    states, events := Extend(rs, states, events, Acquire(1, Good), s3);
  }

  /** Unlocks and saves request i, whose handler has answered CREATED. */
  lemma UnlockAndSave(rs: seq<Req>, states: seq<State>, events: seq<Event>, i: nat)
    returns (longer: seq<State>, more: seq<Event>)
    requires IsRun(rs, states, events) && AllCalm(events)
    requires var s := states[|events|]; i < |rs| && s.phases[i].Ran? && s.phases[i].resp == CREATED
    ensures IsRun(rs, longer, more) && AllCalm(more) && |more| == |events| + 2
    ensures more[|events| + 1] == Save(i, Good) && longer[|events| + 1].phases[i] == Unlocked(CREATED)
    ensures longer[..|states|] == states
    ensures AllAt(states, states[|events|].now) ==> AllAt(longer, states[|events|].now)
    ensures var s, t := states[|events|], longer[|more|];
      && t == Step(s, i, Done(Answered(CREATED)), t.store, s.log)
      && t.store == (s.store - {LockKey(rs[i])})[CacheKey(rs[i]) := Item(Entry(CREATED, Fingerprint(rs[i])), s.now + CACHE_TTL)]
  {
    hide Next, Enabled, CacheKey, LockKey, Calm, Fingerprint;
    CalmGood(i);
    var s := states[|events|];
    UnlockStep(rs, s, i);
    var s1 := Step(s, i, Unlocked(CREATED), s.store - {LockKey(rs[i])}, s.log);
    longer, more := Extend(rs, states, events, Release(i, Good), s1);
    SaveStep(rs, s1, i);
    var s2 := Step(s1, i, Done(Answered(CREATED)), WithEntry(rs[i], CREATED, s1), s1.log);
    longer, more := Extend(rs, longer, more, Save(i, Good), s2);
    assert s2.phases == s.phases[i := Done(Answered(CREATED))];
  }

  /** Exactly-once execution is not promised: a request that looked up before the first
      answer was stored, and locks after the unlock, runs the handler again. No fault, no
      delay and no second lock holder is needed. */
  lemma RunsTwice(rs: seq<Req>) returns (states: seq<State>, events: seq<Event>)
    requires |rs| >= 2 && Requests(rs) && SameKey(rs[0], rs[1])
    ensures IsRun(rs, states, events) && AllCalm(events) && AllAt(states, 0) && states[0] == Initial(|rs|)
    ensures var log := states[|events|].log; (0, CREATED) in log && (1, CREATED) in log
  {
    hide Next, Enabled, CacheKey, LockKey, Calm, Fingerprint;
    CacheKeysApart(rs[0], rs[1]);
    KeyAndLockApart(rs[0]);
    states, events := TwoMisses(rs);
    states, events := RunHandler(rs, states, events, 0);
    states, events := UnlockAndSave(rs, states, events, 0);
    states, events := RunHandler(rs, states, events, 1);
  }

  lemma HitStep(rs: seq<Req>, s: State, i: nat, q: Req)
    requires |rs| == |s.phases| && i < |rs| && s.phases[i].Start?
    requires ValidReq(rs[i]) && ValidReq(q) && SameKey(rs[i], q) && Alike(rs[i], q)
    requires Cached(s, CacheKey(q)) && s.store[CacheKey(q)].val == Entry(CREATED, Fingerprint(q))
    ensures Enabled(s, Get(i, Good))
    ensures Next(rs, s, Get(i, Good)) == Step(s, i, Done(Replayed(CREATED)), s.store, s.log)
  {
    hide CacheKey, LockKey, Fingerprint, Alike, Cached;
    LookupExactly(rs[i], q, s);
  }

  /** Two requests that collide can be answered with one response: whenever they have one
      key, a calm run serves the first and replays its answer to the second, which never ran. */
  lemma CollisionIsReplayed(rs: seq<Req>) returns (states: seq<State>, events: seq<Event>)
    requires |rs| >= 2 && Requests(rs) && SameKey(rs[0], rs[1]) && rs[0].method_ == rs[1].method_
    requires Collide(rs[0], rs[1]) || Collide(rs[1], rs[0])
    ensures IsRun(rs, states, events) && AllCalm(events) && AllAt(states, 0) && states[0] == Initial(|rs|)
    ensures rs[0] != rs[1]
    ensures var s := states[|events|];
      s.phases[0] == Done(Answered(CREATED)) && s.phases[1] == Done(Replayed(CREATED)) && s.log == {(0, CREATED)}
  {
    hide Next, Enabled, CacheKey, LockKey, Calm, Fingerprint;
    KeyAndLockApart(rs[0]);
    CalmGood(0);
    CalmGood(1);
    var s := Initial(|rs|);
    states, events := [s], [];
    MissStep(rs, s, 0);
    states, events := Extend(rs, states, events, Get(0, Good), Step(s, 0, Missed, s.store, s.log));
    states, events := RunHandler(rs, states, events, 0);
    states, events := UnlockAndSave(rs, states, events, 0);
    var t := states[|events|];
    HitStep(rs, t, 1, rs[0]);
    states, events := Extend(rs, states, events, Get(1, Good), Step(t, 1, Done(Replayed(CREATED)), t.store, t.log));
  }

  /** For instance the path "/p" with a body of b, NUL and c, and the path "/p%00b" with body "c". */
  lemma CollidingPair(tenant: string, raw: string)
    ensures Collide(Req(tenant, raw, "POST", "/p", "b\0c"), Req(tenant, raw, "POST", "/p\0b", "c"))
  {
    assert "/p\0b"[..2] == "/p" && "/p\0b"[3..] == "b" && "b\0c" == "b" + "\0" + "c";
  }

  lemma KeyAndLockApart(r: Req)
    ensures CacheKey(r) != LockKey(r)
  {
    assert |LockKey(r)| == |CacheKey(r)| + 5;
  }

  /** The first half: request 0 stores its answer, and request 1, whose lock key is the
      cache key of 0, then unlocks. */
  lemma AliasUnlocks(rs: seq<Req>) returns (states: seq<State>, events: seq<Event>, p: nat)
    requires |rs| >= 3 && Requests(rs)
    requires rs[0].tenant == rs[1].tenant && rs[0].raw == rs[1].raw + ":lock"
    ensures IsRun(rs, states, events) && AllCalm(events) && AllAt(states, 0) && states[0] == Initial(|rs|)
    ensures p + 2 == |events| && events[p] == Save(0, Good) && states[p].phases[0] == Unlocked(CREATED)
    ensures states[p + 1].phases[2].Start?
    ensures var s := states[|events|]; s.phases[2].Start? && s.store == map[]
  {
    hide Next, Enabled, CacheKey, LockKey, Calm, Fingerprint;
    CacheKeysApart(rs[0], rs[1]);
    KeyAndLockApart(rs[0]);
    CalmGood(1);
    states, events := TwoMisses(rs);
    states, events := RunHandler(rs, states, events, 1);
    states, events := RunHandler(rs, states, events, 0);
    p := |events| + 1;
    states, events := UnlockAndSave(rs, states, events, 0);
    var s := states[|events|];
    UnlockStep(rs, s, 1);
    var s1 := Step(s, 1, Unlocked(CREATED), s.store - {LockKey(rs[1])}, s.log);
    states, events := Extend(rs, states, events, Release(1, Good), s1);
  }

  /** CacheApart is needed: whenever one raw key is another's with ":lock", a calm run stores
      a 2xx answer, loses it to the other key's unlock, and runs a later lookup again. */
  lemma AliasForgets(rs: seq<Req>) returns (states: seq<State>, events: seq<Event>, p: nat)
    requires |rs| >= 3 && Requests(rs) && SameKey(rs[0], rs[2])
    requires rs[0].tenant == rs[1].tenant && rs[0].raw == rs[1].raw + ":lock"
    ensures IsRun(rs, states, events) && AllCalm(events) && AllAt(states, 0) && states[0] == Initial(|rs|)
    ensures p < |events| && events[p] == Save(0, Good) && states[p].phases[0] == Unlocked(CREATED)
    ensures states[p + 1].phases[2].Start? && (2, CREATED) in states[|events|].log
  {
    hide Next, Enabled, CacheKey, LockKey, Calm, Fingerprint;
    CalmGood(2);
    states, events, p := AliasUnlocks(rs);
    var s := states[|events|];
    MissStep(rs, s, 2);
    var s1 := Step(s, 2, Missed, s.store, s.log);
    states, events := Extend(rs, states, events, Get(2, Good), s1);
    ghost var before, prior := states, events;
    states, events := RunHandler(rs, states, events, 2);
    assert states[p] == states[..|before|][p] && states[p + 1] == states[..|before|][p + 1];
    assert events[p] == events[..|prior|][p];
  }

  /** LockApart is needed: whenever one raw key is another's with ":lock", a calm run stores a
      2xx answer to it, and a request with the other key is refused as in flight although no
      request is between lock and unlock. */
  lemma AliasRefuses(rs: seq<Req>) returns (states: seq<State>, events: seq<Event>)
    requires |rs| >= 2 && Requests(rs)
    requires rs[0].tenant == rs[1].tenant && rs[0].raw == rs[1].raw + ":lock"
    ensures IsRun(rs, states, events) && AllCalm(events) && AllAt(states, 0) && states[0] == Initial(|rs|)
    ensures var s := states[|events|];
      s.phases[1] == Done(InFlight) && forall i :: 0 <= i < |rs| && i != 1 ==> !Holds(s.phases[i])
  {
    hide Next, Enabled, CacheKey, LockKey, Calm, Fingerprint;
    CacheKeysApart(rs[0], rs[1]);
    KeyAndLockApart(rs[0]);
    KeyAndLockApart(rs[1]);
    CalmGood(0);
    CalmGood(1);
    var s := Initial(|rs|);
    states, events := [s], [];
    MissStep(rs, s, 0);
    states, events := Extend(rs, states, events, Get(0, Good), Step(s, 0, Missed, s.store, s.log));
    states, events := RunHandler(rs, states, events, 0);
    states, events := UnlockAndSave(rs, states, events, 0);
    var t := states[|events|];
    MissStep(rs, t, 1);
    var u := Step(t, 1, Missed, t.store, t.log);
    states, events := Extend(rs, states, events, Get(1, Good), u);
    BlockedStep(rs, u, 1);
    states, events := Extend(rs, states, events, Acquire(1, Good), Step(u, 1, Done(InFlight), u.store, u.log));
  }

  /** A handler that panics leaves its lock behind: for any two requests with one key a
      run without faults and with no time passing refuses the second after the first panicked. */
  lemma PanicKeepsTheLock(rs: seq<Req>) returns (states: seq<State>, events: seq<Event>)
    requires |rs| >= 2 && Requests(rs) && SameKey(rs[0], rs[1])
    ensures IsRun(rs, states, events) && states[0] == Initial(|rs|) && AllAt(states, 0)
    ensures forall n :: 0 <= n < |events| ==> FaultFree(events[n])
    ensures states[|events|].phases[0] == Done(Panicked) && states[|events|].phases[1] == Done(InFlight)
  {
    hide Next, Enabled, CacheKey, LockKey, Calm, Fingerprint;
    CacheKeysApart(rs[0], rs[1]);
    CalmGood(0);
    CalmGood(1);
    states, events := TwoMisses(rs);
    var s := states[|events|];
    LockStep(rs, s, 0);
    var t := Step(s, 0, Running(0), WithLock(rs[0], s), s.log);
    states, events := Extend(rs, states, events, Acquire(0, Good), t);
    CalmIsFaultFree(events);
    PanicStep(rs, t, 0);
    var u := Step(t, 0, Done(Panicked), t.store, t.log);
    states, events := ExtendAny(rs, states, events, Panic(0), u);
    BlockedStep(rs, u, 1);
    states, events := ExtendAny(rs, states, events, Acquire(1, Good), Step(u, 1, Done(InFlight), u.store, u.log));
  }

  lemma CalmIsFaultFree(events: seq<Event>)
    ensures AllCalm(events) ==> forall n :: 0 <= n < |events| ==> FaultFree(events[n])
  {
  }

  lemma PanicStep(rs: seq<Req>, s: State, i: nat)
    requires |rs| == |s.phases| && i < |rs| && s.phases[i].Running?
    ensures Enabled(s, Panic(i)) && FaultFree(Panic(i))
    ensures Next(rs, s, Panic(i)) == Step(s, i, Done(Panicked), s.store, s.log)
  {
  }

  lemma ExtendAny(rs: seq<Req>, states: seq<State>, events: seq<Event>, e: Event, t: State)
    returns (longer: seq<State>, more: seq<Event>)
    requires IsRun(rs, states, events) && Enabled(states[|events|], e) && t == Next(rs, states[|events|], e)
    ensures IsRun(rs, longer, more) && more == events + [e] && longer == states + [t]
  {
    hide CacheKey, LockKey, Fingerprint, Looked;
    longer, more := states + [t], events + [e];
  }

  lemma BlockedStep(rs: seq<Req>, s: State, i: nat)
    requires |rs| == |s.phases| && i < |rs| && s.phases[i].Missed? && Live(s, LockKey(rs[i]))
    ensures Enabled(s, Acquire(i, Good))
    ensures Next(rs, s, Acquire(i, Good)) == Step(s, i, Done(InFlight), s.store, s.log)
  {
    hide CacheKey, LockKey;
  }

  // ---- one request served from start to end ----

  /** What the surroundings do to one request: the store's replies and the handler's answer. */
  datatype Env = Env(get: Reply, lock: Reply, del: Reply, set_: Reply, resp: Response)

  function Turn(p: Phase, env: Env): Event
    requires !p.Done?
  {
    match p
    case Start => Get(0, env.get)
    case Missed => Acquire(0, env.lock)
    case Open => Finish(0, env.resp)
    case Running(_) => Finish(0, env.resp)
    case Ran(_, _) => Release(0, env.del)
    case Unlocked(_) => Save(0, env.set_)
  }

  function Rank(p: Phase): nat {
    match p
    case Start => 5
    case Missed => 4
    case Open => 3
    case Running(_) => 3
    case Ran(_, _) => 2
    case Unlocked(_) => 1
    case Done(_) => 0
  }

  lemma RankDrops(r: Req, s: State, env: Env)
    requires |s.phases| == 1 && !s.phases[0].Done?
    ensures Enabled(s, Turn(s.phases[0], env))
    ensures var t := Next([r], s, Turn(s.phases[0], env));
      |t.phases| == 1 && t.now == s.now && Rank(t.phases[0]) < Rank(s.phases[0])
  {
    hide CacheKey, LockKey, Fingerprint;
  }

  /** The steps of a request alone, until it is done. */
  function Drive(r: Req, s: State, env: Env): (t: State)
    requires |s.phases| == 1
    ensures |t.phases| == 1 && t.phases[0].Done? && t.now == s.now
    decreases Rank(s.phases[0])
  {
    if s.phases[0].Done? then s
    else
      RankDrops(r, s, env);
      Drive(r, Next([r], s, Turn(s.phases[0], env)), env)
  }

  /** The key-value store the middleware talks to, with go-redis style lifetimes. */
  class KvStore {
    var now: nat
    var items: map<string, Item>

    constructor ()
      ensures now == 0 && items == map[]
    {
      now, items := 0, map[];
    }

    method Get(k: string) returns (v: Option<Value>)
      ensures v == if k in items && now < items[k].expires then Some(items[k].val) else None
    {
      if k in items && now < items[k].expires {
        v := Some(items[k].val);
      } else {
        v := None;
      }
    }

    method SetNX(k: string, v: Value, ttl: nat, landed: bool) returns (acquired: bool)
      modifies `items
      ensures acquired <==> !(k in old(items) && now < old(items)[k].expires)
      ensures items == if acquired && landed then old(items)[k := Item(v, now + ttl)] else old(items)
    {
      acquired := !(k in items && now < items[k].expires);
      if acquired && landed {
        items := items[k := Item(v, now + ttl)];
      }
    }

    method Set(k: string, v: Value, ttl: nat)
      modifies `items
      ensures items == old(items)[k := Item(v, now + ttl)]
    {
      items := items[k := Item(v, now + ttl)];
    }

    method Del(k: string)
      modifies `items
      ensures items == old(items) - {k}
    {
      items := items - {k};
    }
  }

  /** What is left of a request alone once its handler has answered under the lock. */
  function AfterRun(r: Req, store: map<string, Item>, now: nat, env: Env): map<string, Item> {
    var unlocked := if env.del == Fault(false) then store else store - {LockKey(r)};
    if env.set_ == Fault(false) || ClassifyStatus(env.resp.status) != Ok then unlocked
    else unlocked[CacheKey(r) := Item(Entry(env.resp, Fingerprint(r)), now + CACHE_TTL)]
  }

  lemma DriveDone(r: Req, s: State, env: Env)
    requires |s.phases| == 1 && s.phases[0].Done?
    ensures Drive(r, s, env) == s
  {
  }

  lemma DriveOnce(r: Req, s: State, env: Env)
    requires |s.phases| == 1 && !s.phases[0].Done?
    ensures Enabled(s, Turn(s.phases[0], env))
    ensures |Next([r], s, Turn(s.phases[0], env)).phases| == 1
    ensures Drive(r, s, env) == Drive(r, Next([r], s, Turn(s.phases[0], env)), env)
  {
    hide CacheKey, LockKey, Fingerprint, Next, Looked;
    RankDrops(r, s, env);
  }

  lemma DriveOpen(r: Req, s: State, env: Env)
    requires s.phases == [Open]
    ensures Drive(r, s, env).store == s.store && Drive(r, s, env).phases == [Done(Answered(env.resp))]
  {
    hide CacheKey, LockKey, Fingerprint, Looked, Drive;
    DriveOnce(r, s, env);
    DriveDone(r, Next([r], s, Finish(0, env.resp)), env);
  }

  lemma DriveUnlocked(r: Req, s: State, env: Env)
    requires s.phases == [Unlocked(env.resp)]
    ensures Drive(r, s, env).phases == [Done(Answered(env.resp))]
    ensures Drive(r, s, env).store == if env.set_ == Fault(false) then s.store else WithEntry(r, env.resp, s)
  {
    hide CacheKey, LockKey, Fingerprint, Looked, Drive, WithEntry;
    DriveOnce(r, s, env);
    DriveDone(r, Next([r], s, Save(0, env.set_)), env);
  }

  lemma DriveRunning(r: Req, s: State, env: Env)
    requires s.phases == [Running(s.now)]
    ensures Drive(r, s, env).phases == [Done(Answered(env.resp))]
    ensures Drive(r, s, env).store == AfterRun(r, s.store, s.now, env)
  {
    hide CacheKey, LockKey, Fingerprint, Looked, Drive;
    DriveOnce(r, s, env);
    var s1 := Next([r], s, Finish(0, env.resp));
    DriveOnce(r, s1, env);
    var s2 := Next([r], s1, Release(0, env.del));
    DriveUnlocked(r, s2, env);
  }

  /** The middleware around one request's handler. */
  method Serve(store: KvStore, r: Req, env: Env) returns (o: Outcome)
    modifies store`items
    ensures var t := Drive(r, State(store.now, old(store.items), [Start], {}), env);
      store.items == t.store && t.phases == [Done(o)]
  {
    hide CacheKey, LockKey, Fingerprint, Drive, AfterRun;
    ghost var s := State(store.now, store.items, [Start], {});
    DriveOnce(r, s, env);
    ghost var s1 := Next([r], s, Get(0, env.get));
    if env.get.Fault? {
      DriveOpen(r, s1, env);
      return Answered(env.resp);
    }
    var hit := store.Get(CacheKey(r));
    if hit.Some? && hit.value.Entry? && hit.value.resp.status > 0 {
      DriveDone(r, s1, env);
      if hit.value.fp != "" && hit.value.fp != Fingerprint(r) {
        return KeyReused;
      }
      return Replayed(hit.value.resp);
    }
    DriveOnce(r, s1, env);
    ghost var s2 := Next([r], s1, Acquire(0, env.lock));
    var acquired := store.SetNX(LockKey(r), LockMark, LOCK_TTL, env.lock != Fault(false));
    if env.lock.Fault? {
      DriveOpen(r, s2, env);
      return Answered(env.resp);
    }
    if !acquired {
      DriveDone(r, s2, env);
      return InFlight;
    }
    DriveRunning(r, s2, env);
    o := Answered(env.resp);
    ServeTail(store, r, env);
  }

  method ServeTail(store: KvStore, r: Req, env: Env)
    modifies store`items
    ensures store.items == AfterRun(r, old(store.items), store.now, env)
  {
    hide CacheKey, LockKey, Fingerprint;
    if env.del != Fault(false) {
      store.Del(LockKey(r));
    }
    if ClassifyStatus(env.resp.status) == Ok && env.set_ != Fault(false) {
      store.Set(CacheKey(r), Entry(env.resp, Fingerprint(r)), CACHE_TTL);
    }
  }

  function AllGood(resp: Response): Env { Env(Good, Good, Good, Good, resp) }

  /** Served twice in a row without faults, a request that finds neither an entry nor a lock
      is answered from the store the second time exactly when its first answer was 2xx. */
  lemma ResubmitReplays(r: Req, s: State, first: Response, wait: nat, second: Response)
    requires s.phases == [Start] && !Cached(s, CacheKey(r)) && !Live(s, LockKey(r)) && wait < CACHE_TTL
    ensures var t := Drive(r, s, AllGood(first));
      && t.phases == [Done(Answered(first))]
      && var u := Drive(r, State(s.now + wait, t.store, [Start], {}), AllGood(second));
         u.phases == [Done(if 200 <= first.status < 300 then Replayed(first) else Answered(second))]
  {
    hide CacheKey, LockKey, Fingerprint, Drive, Next, Looked, Cached;
    KeyAndLockApart(r);
    DriveMissed(r, s, AllGood(first));
    var t := Drive(r, s, AllGood(first));
    var s2 := State(s.now + wait, t.store, [Start], {});
    if ClassifyStatus(first.status) == Ok {
      FirstCached(r, s, s2, first);
      DriveHit(r, s2, AllGood(second));
    } else {
      FirstForgotten(r, s, s2, first);
      DriveMissed(r, s2, AllGood(second));
    }
  }

  lemma FirstCached(r: Req, s: State, t: State, resp: Response)
    requires CacheKey(r) != LockKey(r) && ClassifyStatus(resp.status) == Ok && t.now < s.now + CACHE_TTL
    requires t.store == AfterRun(r, WithLock(r, s), s.now, AllGood(resp))
    ensures Cached(t, CacheKey(r)) && t.store[CacheKey(r)].val == Entry(resp, Fingerprint(r))
  {
    hide CacheKey, LockKey, Fingerprint;
  }

  lemma FirstForgotten(r: Req, s: State, t: State, resp: Response)
    requires CacheKey(r) != LockKey(r) && ClassifyStatus(resp.status) != Ok && s.now <= t.now
    requires !Cached(s, CacheKey(r)) && t.store == AfterRun(r, WithLock(r, s), s.now, AllGood(resp))
    ensures !Cached(t, CacheKey(r)) && !Live(t, LockKey(r))
  {
    hide CacheKey, LockKey, Fingerprint;
  }

  lemma DriveHit(r: Req, s: State, env: Env)
    requires s.phases == [Start] && env.get.Good? && Cached(s, CacheKey(r))
    requires s.store[CacheKey(r)].val.fp == Fingerprint(r)
    ensures Drive(r, s, env).phases == [Done(Replayed(s.store[CacheKey(r)].val.resp))]
    ensures Drive(r, s, env).store == s.store
  {
    hide CacheKey, LockKey, Fingerprint, Drive;
    DriveOnce(r, s, env);
    DriveDone(r, Next([r], s, Get(0, env.get)), env);
  }

  lemma DriveMissed(r: Req, s: State, env: Env)
    requires s.phases == [Start] && env.get.Good? && env.lock.Good?
    requires !Cached(s, CacheKey(r)) && !Live(s, LockKey(r))
    ensures Drive(r, s, env).phases == [Done(Answered(env.resp))]
    ensures Drive(r, s, env).store == AfterRun(r, WithLock(r, s), s.now, env)
  {
    hide CacheKey, LockKey, Fingerprint, Drive, AfterRun;
    DriveOnce(r, s, env);
    var s1 := Next([r], s, Get(0, env.get));
    DriveOnce(r, s1, env);
    var s2 := Next([r], s1, Acquire(0, env.lock));
    assert s2.phases == [Running(s.now)];
    DriveRunning(r, s2, env);
  }
}
