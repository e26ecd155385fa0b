/** Metered-usage delivery: the reporter's queue and workers, the durable outbox and the
    retry workers of internal/adapter/usagereport, against a ledger that dedups on
    (product, idempotency key). */
module UsageReport {

  import opened Wrappers

  const PRODUCT := "tally"
  const MAX_ATTEMPTS := 10
  const DRAIN_LIMIT := 100

  /** A recorded call; `uuid` is the tenant as uuid.Parse reads it, if it does. */
  datatype Usage = Usage(tenant: string, uuid: Option<string>, prompt: int, completion: int)

  function Quantity(u: Usage): int { u.prompt + u.completion }

  /** The idempotency key of event id, the text of a uuid. */
  function IdemKey(id: string): string { "tally-usage-" + id }

  /** One posted row of the platform's ledger. */
  datatype Billed = Billed(product: string, key: string, account: int, quantity: int)

  /** A row of the durable outbox. */
  datatype Row = Row(usage: Usage, attempts: nat, sent: bool)

  /** A reporter worker between the steps of `process`. */
  datatype Task = Idle | Took(id: string) | Ready(id: string, account: int) | Failing(id: string)

  /** A row as a retry worker drained it. */
  datatype Drained = Drained(id: string, usage: Usage)

  /** A retry worker: the rest of its batch, and how far the first row is. */
  datatype Stage = Head | Posting(account: int) | Marking | Erring

  datatype Retry = Retry(batch: seq<Drained>, stage: Stage)

  /** Where events that left the workers ended; the counters, kept as the events themselves. */
  datatype Ends = Ends(posted: multiset<string>, skipped: multiset<string>, queued: multiset<string>,
                       failed: multiset<string>)

  datatype Reporter = Reporter(buffer: nat, durable: bool, recorded: map<string, Usage>, channel: seq<string>,
                               tasks: seq<Task>, cache: map<string, int>, ends: Ends)

  /** exhausted counts the alert signals, event by event. */
  datatype State = State(rep: Reporter, rows: map<string, Row>, retries: seq<Retry>, ledger: seq<Billed>,
                         exhausted: multiset<string>)

  const NO_ENDS := Ends(multiset{}, multiset{}, multiset{}, multiset{})

  function Initial(buffer: nat, durable: bool, workers: nat, retries: nat): State {
    State(Reporter(buffer, durable, map[], [], seq(workers, i => Idle), map[], NO_ENDS), map[],
          seq(retries, i => Retry([], Head)), [], multiset{})
  }

  /** A remote call takes effect or not, and is seen to succeed or not; a success took effect. */
  datatype Call = Done | LostReply | NoEffect

  datatype Lookup = Account(id: int) | NoAccount | LookupError

  datatype Event =
    | Record(id: string, usage: Usage)
    | Take(w: nat)
    | Resolve(w: nat, found: Lookup)
    | Post(w: nat, call: Call)
    | Enqueue(w: nat, call: Call)
    | Drain(r: nat, ids: seq<string>)
    | RetryResolve(r: nat, found: Lookup)
    | RetryPost(r: nat, call: Call)
    | MarkSent(r: nat, call: Call)
    | RecordError(r: nat, call: Call)
    | Restart(r: nat)

  /** What the drain query selects. */
  predicate Due(rows: map<string, Row>, id: string) { id in rows && !rows[id].sent && rows[id].attempts < MAX_ATTEMPTS }

  predicate Drainable(s: State, id: string) { Due(s.rows, id) }

  predicate AtStage(s: State, r: nat) { r < |s.retries| && s.retries[r].batch != [] }

  /** A reporter worker w whose event is known. */
  predicate At(p: Reporter, w: nat) { w < |p.tasks| && !p.tasks[w].Idle? && p.tasks[w].id in p.recorded }

  /** An account id that is not positive is refused before it is sent, and the platform's
      contract asks for a quantity of at least 0. */
  predicate Refused(account: int, u: Usage) { account <= 0 || Quantity(u) < 0 }

  /** A refused post has no effect, and the outbox has one row per id. */
  predicate Enabled(s: State, e: Event) {
    match e
    case Record(id, _) => id !in s.rep.recorded
    case Take(w) => w < |s.rep.tasks| && s.rep.tasks[w].Idle? && s.rep.channel != []
    case Resolve(w, _) => At(s.rep, w) && s.rep.tasks[w].Took?
    case Post(w, call) =>
      At(s.rep, w) && s.rep.tasks[w].Ready?
      && (Refused(s.rep.tasks[w].account, s.rep.recorded[s.rep.tasks[w].id]) ==> call.NoEffect?)
    case Enqueue(w, call) => At(s.rep, w) && s.rep.tasks[w].Failing? && (s.rep.tasks[w].id in s.rows ==> call.NoEffect?)
    case Drain(r, ids) =>
      && r < |s.retries| && s.retries[r].batch == [] && |ids| <= DRAIN_LIMIT && Distinct(ids)
      && forall i :: 0 <= i < |ids| ==> Drainable(s, ids[i])
    case RetryResolve(r, _) => AtStage(s, r) && s.retries[r].stage.Head?
    case RetryPost(r, call) =>
      AtStage(s, r) && s.retries[r].stage.Posting?
      && (Refused(s.retries[r].stage.account, s.retries[r].batch[0].usage) ==> call.NoEffect?)
    case MarkSent(r, _) => AtStage(s, r) && s.retries[r].stage.Marking? && s.retries[r].batch[0].id in s.rows
    case RecordError(r, _) => AtStage(s, r) && s.retries[r].stage.Erring? && s.retries[r].batch[0].id in s.rows
    case Restart(r) => r < |s.retries|
  }

  predicate Billable(u: Usage) { !(u.prompt <= 0 && u.completion <= 0) && u.tenant != "" && u.tenant != "unknown" }

  function WithTask(p: Reporter, w: nat, t: Task): Reporter
    requires w < |p.tasks|
  {
    Reporter(p.buffer, p.durable, p.recorded, p.channel, p.tasks[w := t], p.cache, p.ends)
  }

  /** Worker w is done with its event, which ends in x. */
  function Finished(p: Reporter, w: nat, x: Ends): Reporter
    requires w < |p.tasks|
  {
    Reporter(p.buffer, p.durable, p.recorded, p.channel, p.tasks[w := Idle], p.cache, x)
  }

  function Posted(x: Ends, id: string): Ends { Ends(x.posted + multiset{id}, x.skipped, x.queued, x.failed) }

  function Skipped(x: Ends, id: string): Ends { Ends(x.posted, x.skipped + multiset{id}, x.queued, x.failed) }

  function Queued(x: Ends, id: string): Ends { Ends(x.posted, x.skipped, x.queued + multiset{id}, x.failed) }

  function Lost(x: Ends, id: string): Ends { Ends(x.posted, x.skipped, x.queued, x.failed + multiset{id}) }

  /** Only billable calls with a tenant are taken, and dropped when the queue is full. */
  function Recorded(p: Reporter, id: string, u: Usage): Reporter {
    if !Billable(u) || |p.channel| >= p.buffer then p
    else Reporter(p.buffer, p.durable, p.recorded[id := u], p.channel + [id], p.tasks, p.cache, p.ends)
  }

  /** Bad tenant, cached account, or a fresh lookup; only found accounts are cached. */
  function Resolved(p: Reporter, w: nat, found: Lookup): Reporter
    requires At(p, w)
  {
    var id := p.tasks[w].id;
    var uuid := p.recorded[id].uuid;
    if uuid.None? then Finished(p, w, Skipped(p.ends, id))
    else if uuid.value in p.cache then WithTask(p, w, Ready(id, p.cache[uuid.value]))
    else if found.Account? then
      Reporter(p.buffer, p.durable, p.recorded, p.channel, p.tasks[w := Ready(id, found.id)],
               p.cache[uuid.value := found.id], p.ends)
    else WithTask(p, w, Failing(id))
  }

  function PostTried(p: Reporter, w: nat, call: Call): Reporter
    requires At(p, w)
  {
    var id := p.tasks[w].id;
    if call.Done? then Finished(p, w, Posted(p.ends, id)) else WithTask(p, w, Failing(id))
  }

  /** Without a durable store the event is skipped; a failed enqueue is the last-resort loss. */
  function EnqueueTried(p: Reporter, w: nat, call: Call): Reporter
    requires At(p, w)
  {
    var id := p.tasks[w].id;
    Finished(p, w, if !p.durable then Skipped(p.ends, id) else if call.Done? then Queued(p.ends, id) else Lost(p.ends, id))
  }

  function NextReporter(s: State, e: Event): Reporter
    requires Enabled(s, e)
  {
    var p := s.rep;
    match e
    case Record(id, u) => Recorded(p, id, u)
    case Take(w) =>
      Reporter(p.buffer, p.durable, p.recorded, p.channel[1..], p.tasks[w := Took(p.channel[0])], p.cache, p.ends)
    case Resolve(w, found) => Resolved(p, w, found)
    case Post(w, call) => PostTried(p, w, call)
    case Enqueue(w, call) => EnqueueTried(p, w, call)
    case _ => p
  }

  function NextRows(s: State, e: Event): map<string, Row>
    requires Enabled(s, e)
  {
    match e
    case Enqueue(w, call) =>
      var id := s.rep.tasks[w].id;
      if !s.rep.durable || call.NoEffect? then s.rows else s.rows[id := Row(s.rep.recorded[id], 0, false)]
    case MarkSent(r, call) =>
      var id := s.retries[r].batch[0].id;
      if call.NoEffect? then s.rows else s.rows[id := Row(s.rows[id].usage, s.rows[id].attempts, true)]
    case RecordError(r, call) =>
      var id := s.retries[r].batch[0].id;
      if call.NoEffect? then s.rows else s.rows[id := Row(s.rows[id].usage, s.rows[id].attempts + 1, s.rows[id].sent)]
    case _ => s.rows
  }

  function Drawn(s: State, ids: seq<string>): seq<Drained>
    requires forall i :: 0 <= i < |ids| ==> ids[i] in s.rows
  {
    seq(|ids|, i requires 0 <= i < |ids| => Drained(ids[i], s.rows[ids[i]].usage))
  }

  function NextRetries(s: State, e: Event): seq<Retry>
    requires Enabled(s, e)
  {
    match e
    case Drain(r, ids) => s.retries[r := Retry(Drawn(s, ids), Head)]
    case RetryResolve(r, found) =>
      s.retries[r := Retry(s.retries[r].batch, if found.Account? then Posting(found.id) else Erring)]
    case RetryPost(r, call) => s.retries[r := Retry(s.retries[r].batch, if call.Done? then Marking else Erring)]
    case MarkSent(r, _) => s.retries[r := Retry(s.retries[r].batch[1..], Head)]
    case RecordError(r, _) => s.retries[r := Retry(s.retries[r].batch[1..], Head)]
    case Restart(r) => s.retries[r := Retry([], Head)]
    case _ => s.retries
  }

  /** The ledger keeps one row per (product, key). */
  predicate InLedger(ledger: seq<Billed>, key: string) {
    exists i :: 0 <= i < |ledger| && ledger[i].product == PRODUCT && ledger[i].key == key
  }

  function Ingest(ledger: seq<Billed>, id: string, u: Usage, account: int, call: Call): seq<Billed> {
    if call.NoEffect? || InLedger(ledger, IdemKey(id)) then ledger
    else ledger + [Billed(PRODUCT, IdemKey(id), account, Quantity(u))]
  }

  function NextLedger(s: State, e: Event): seq<Billed>
    requires Enabled(s, e)
  {
    match e
    case Post(w, call) =>
      var t := s.rep.tasks[w];
      Ingest(s.ledger, t.id, s.rep.recorded[t.id], t.account, call)
    case RetryPost(r, call) =>
      var row := s.retries[r].batch[0];
      Ingest(s.ledger, row.id, row.usage, s.retries[r].stage.account, call)
    case _ => s.ledger
  }

  /** The alert fires when the store reports a new attempts count at or over the cap. */
  function NextExhausted(s: State, e: Event): multiset<string>
    requires Enabled(s, e)
  {
    match e
    case RecordError(r, call) =>
      var id := s.retries[r].batch[0].id;
      if call.Done? && s.rows[id].attempts + 1 >= MAX_ATTEMPTS then s.exhausted + multiset{id} else s.exhausted
    case _ => s.exhausted
  }

  function Next(s: State, e: Event): State
    requires Enabled(s, e)
  {
    State(NextReporter(s, e), NextRows(s, e), NextRetries(s, e), NextLedger(s, e), NextExhausted(s, e))
  }

  predicate IsRun(states: seq<State>, events: seq<Event>) {
    && |states| == |events| + 1
    && states[0] == Initial(states[0].rep.buffer, states[0].rep.durable, |states[0].rep.tasks|, |states[0].retries|)
    && forall n :: 0 <= n < |events| ==> Enabled(states[n], events[n]) && states[n + 1] == Next(states[n], events[n])
  }

  // ---- every accepted event is in exactly one place ----

  predicate Has(t: Task, id: string) { !t.Idle? && t.id == id }

  /** How many workers have event id, and how many are busy. */
  function Holders(ts: seq<Task>, id: string): nat {
    if ts == [] then 0 else Holders(ts[..|ts| - 1], id) + One(Has(ts[|ts| - 1], id))
  }

  function Busy(ts: seq<Task>): nat {
    if ts == [] then 0 else Busy(ts[..|ts| - 1]) + One(!ts[|ts| - 1].Idle?)
  }

  lemma {:induction false} HoldersUpdate(ts: seq<Task>, w: nat, t: Task, id: string)
    requires w < |ts|
    ensures Holders(ts[w := t], id) + One(Has(ts[w], id)) == Holders(ts, id) + One(Has(t, id))
    ensures Busy(ts[w := t]) + One(!ts[w].Idle?) == Busy(ts) + One(!t.Idle?)
  {
    hide Has, One;
    var n := |ts| - 1;
    var us := ts[w := t];
    if w == n {
      assert us[..n] == ts[..n];
    } else {
      HoldersUpdate(ts[..n], w, t, id);
      assert us[..n] == ts[..n][w := t];
    }
  }

  lemma {:induction false} NobodyHolds(n: nat, id: string)
    ensures Holders(seq(n, i => Idle), id) == 0 && Busy(seq(n, i => Idle)) == 0
  {
    if n > 0 {
      NobodyHolds(n - 1, id);
      assert seq(n, i => Idle)[..n - 1] == seq(n - 1, i => Idle);
    }
  }

  /** In how many places event id is. */
  function Places(p: Reporter, id: string): nat {
    multiset(p.channel)[id] + Holders(p.tasks, id) + Ended(p.ends, id)
  }

  function Ended(x: Ends, id: string): nat { x.posted[id] + x.skipped[id] + x.queued[id] + x.failed[id] }

  function AllEnded(x: Ends): nat { |x.posted| + |x.skipped| + |x.queued| + |x.failed| }

  /** Channel, busy workers, posted, skipped, queued for retry, enqueue failed. */
  function Total(p: Reporter): nat { |p.channel| + Busy(p.tasks) + AllEnded(p.ends) }

  ghost predicate Conserved(p: Reporter) {
    && Total(p) == |p.recorded|
    && forall id :: Places(p, id) == One(id in p.recorded)
  }

  /** Worker w is given task u; the channel and the ends make up for it, at event x. */
  predicate Moves(p: Reporter, q: Reporter, w: nat, x: string) {
    && w < |p.tasks| == |q.tasks| && q.tasks == p.tasks[w := q.tasks[w]] && q.recorded == p.recorded
    && |q.channel| + One(!q.tasks[w].Idle?) + AllEnded(q.ends) == |p.channel| + One(!p.tasks[w].Idle?) + AllEnded(p.ends)
    && multiset(q.channel)[x] + One(Has(q.tasks[w], x)) + Ended(q.ends, x)
    == multiset(p.channel)[x] + One(Has(p.tasks[w], x)) + Ended(p.ends, x)
  }

  lemma MovesConserve(p: Reporter, q: Reporter, w: nat, x: string)
    requires Moves(p, q, w, x)
    ensures Places(q, x) == Places(p, x) && Total(q) == Total(p) && q.recorded == p.recorded
  {
    hide Has, One, Holders, Busy, Ended, AllEnded;
    HoldersUpdate(p.tasks, w, q.tasks[w], x);
  }

  lemma TakeMoves(s: State, e: Event, x: string)
    requires Enabled(s, e) && e.Take?
    ensures Moves(s.rep, NextReporter(s, e), e.w, x)
  {
    hide Ended, AllEnded;
    var p, q := s.rep, NextReporter(s, e);
    assert p.channel == [p.channel[0]] + q.channel;
    assert multiset(p.channel)[x] == multiset([p.channel[0]])[x] + multiset(q.channel)[x];
  }

  lemma ResolveMoves(p: Reporter, w: nat, found: Lookup, x: string)
    requires At(p, w)
    ensures Moves(p, Resolved(p, w, found), w, x)
  {
    hide Ended, AllEnded;
    SkippedEnds(p.ends, p.tasks[w].id, x);
  }

  lemma SkippedEnds(x: Ends, id: string, y: string)
    ensures Ended(Skipped(x, id), y) == Ended(x, y) + One(id == y) && AllEnded(Skipped(x, id)) == AllEnded(x) + 1
  {
  }

  lemma PostMoves(p: Reporter, w: nat, call: Call, x: string)
    requires At(p, w)
    ensures Moves(p, PostTried(p, w, call), w, x)
  {
  }

  lemma EnqueueMoves(p: Reporter, w: nat, call: Call, x: string)
    requires At(p, w)
    ensures Moves(p, EnqueueTried(p, w, call), w, x)
  {
  }

  lemma WorkerMoves(s: State, e: Event, x: string)
    requires Enabled(s, e) && !e.Record?
    ensures var p, q := s.rep, NextReporter(s, e);
      Places(q, x) == Places(p, x) && Total(q) == Total(p) && q.recorded == p.recorded
  {
    hide Moves, Places, Total, Resolved, PostTried, EnqueueTried;
    var p, q := s.rep, NextReporter(s, e);
    match e
    case Take(w) => TakeMoves(s, e, x); MovesConserve(p, q, w, x);
    case Resolve(w, found) => ResolveMoves(p, w, found, x); MovesConserve(p, q, w, x);
    case Post(w, call) => PostMoves(p, w, call, x); MovesConserve(p, q, w, x);
    case Enqueue(w, call) => EnqueueMoves(p, w, call, x); MovesConserve(p, q, w, x);
    case _ =>
  }

  lemma RecordPlaces(p: Reporter, id: string, u: Usage)
    requires Conserved(p) && id !in p.recorded
    ensures Conserved(Recorded(p, id, u))
  {
    hide Holders, Busy, Ended, AllEnded, Billable;
    var q := Recorded(p, id, u);
    if q != p {
      assert |q.recorded| == |p.recorded| + 1;
      forall x ensures Places(q, x) == One(x in q.recorded) {
        assert Places(p, x) == One(x in p.recorded);
        assert multiset(q.channel)[x] == multiset(p.channel)[x] + multiset([id])[x];
      }
    }
  }

  lemma ConservedStep(s: State, e: Event)
    requires Enabled(s, e) && Conserved(s.rep)
    ensures Conserved(NextReporter(s, e))
  {
    hide Places, Total;
    if e.Record? {
      RecordPlaces(s.rep, e.id, e.usage);
    } else {
      hide NextReporter, Enabled;
      WorkerMoves(s, e, "");
      forall id ensures Places(NextReporter(s, e), id) == Places(s.rep, id) {
        WorkerMoves(s, e, id);
      }
    }
  }

  lemma ConservedAtStart(buffer: nat, durable: bool, workers: nat, retries: nat)
    ensures Conserved(Initial(buffer, durable, workers, retries).rep)
  {
    var p := Initial(buffer, durable, workers, retries).rep;
    forall id ensures Places(p, id) == 0 && Total(p) == 0 {
      NobodyHolds(workers, id);
    }
    NobodyHolds(workers, "");
  }

  /** At every reachable state each event the queue took is in exactly one of channel,
      worker, posted, skipped, queued for retry and enqueue failed, so the enqueued count is
      the sum of theirs. */
  lemma {:induction false} NothingIsLostUncounted(states: seq<State>, events: seq<Event>, n: nat)
    requires IsRun(states, events) && n <= |events|
    ensures Conserved(states[n].rep)
  {
    hide NextReporter, NextRows, NextRetries, NextLedger, NextExhausted, Enabled, Initial, Conserved;
    if n == 0 {
      var p := states[0].rep;
      ConservedAtStart(p.buffer, p.durable, |p.tasks|, |states[0].retries|);
    } else {
      NothingIsLostUncounted(states, events, n - 1);
      ConservedStep(states[n - 1], events[n - 1]);
    }
  }

  // ---- billed at most once, and with the right quantity ----

  /** Everything on its way is a recorded event with its own counts. */
  predicate Sourced(s: State) {
    && (forall i :: 0 <= i < |s.rep.channel| ==> s.rep.channel[i] in s.rep.recorded)
    && (forall w :: 0 <= w < |s.rep.tasks| && !s.rep.tasks[w].Idle? ==> s.rep.tasks[w].id in s.rep.recorded)
    && (forall id :: id in s.rows ==> id in s.rep.recorded && s.rows[id].usage == s.rep.recorded[id])
    && (forall r :: 0 <= r < |s.retries| ==> BatchSourced(s.rows, s.retries[r].batch))
  }

  predicate BatchSourced(rows: map<string, Row>, batch: seq<Drained>) {
    forall i :: 0 <= i < |batch| ==> batch[i].id in rows && batch[i].usage == rows[batch[i].id].usage
  }

  /** The ledger row b is for event id. */
  predicate BillFor(b: Billed, id: string, u: Usage) {
    b.product == PRODUCT && b.key == IdemKey(id) && b.quantity == Quantity(u)
  }

  ghost predicate Bills(recorded: map<string, Usage>, ledger: seq<Billed>) {
    && (forall i, j :: 0 <= i < j < |ledger| ==> ledger[i].key != ledger[j].key)
    && (forall i :: 0 <= i < |ledger| ==> Backed(recorded, ledger[i]))
  }

  predicate Backed(recorded: map<string, Usage>, b: Billed) {
    exists id :: id in recorded && BillFor(b, id, recorded[id])
  }

  lemma RowsKeepUsage(s: State, e: Event)
    requires Enabled(s, e)
    ensures forall id :: id in s.rows && !e.Enqueue? ==>
      id in NextRows(s, e) && NextRows(s, e)[id].usage == s.rows[id].usage
    ensures forall id :: id in NextRows(s, e) && !e.Enqueue? ==> id in s.rows
    ensures e.Enqueue? ==> forall id :: id in s.rows ==> id in NextRows(s, e) && NextRows(s, e)[id] == s.rows[id]
    ensures e.Enqueue? ==> forall id :: id in NextRows(s, e) && id !in s.rows ==>
      id == s.rep.tasks[e.w].id && NextRows(s, e)[id].usage == s.rep.recorded[id]
  {
  }

  lemma RecordedGrows(s: State, e: Event)
    requires Enabled(s, e)
    ensures forall id :: id in s.rep.recorded ==>
      id in NextReporter(s, e).recorded && NextReporter(s, e).recorded[id] == s.rep.recorded[id]
  {
  }

  lemma ReporterSourced(s: State, e: Event)
    requires Enabled(s, e) && Sourced(s)
    ensures var q := NextReporter(s, e);
      && (forall i :: 0 <= i < |q.channel| ==> q.channel[i] in q.recorded)
      && (forall w :: 0 <= w < |q.tasks| && !q.tasks[w].Idle? ==> q.tasks[w].id in q.recorded)
  {
    hide BatchSourced;
  }

  lemma BatchKept(s: State, e: Event, batch: seq<Drained>)
    requires Enabled(s, e) && BatchSourced(s.rows, batch)
    ensures BatchSourced(NextRows(s, e), batch)
  {
    hide NextRows;
    RowsKeepUsage(s, e);
  }

  lemma RetriesSourced(s: State, e: Event, r: nat)
    requires Enabled(s, e) && Sourced(s) && r < |NextRetries(s, e)|
    ensures |NextRetries(s, e)| == |s.retries| && BatchSourced(s.rows, NextRetries(s, e)[r].batch)
  {
  }

  lemma SourcedStep(s: State, e: Event)
    requires Enabled(s, e) && Sourced(s)
    ensures Sourced(Next(s, e))
  {
    hide NextReporter, NextRows, NextRetries, NextLedger, NextExhausted, BatchSourced, Enabled;
    var t := Next(s, e);
    ReporterSourced(s, e);
    RecordedGrows(s, e);
    RowsKeepUsage(s, e);
    if e.Enqueue? {
      EnqueueKnown(s, e);
    }
    forall r | 0 <= r < |t.retries| ensures BatchSourced(t.rows, t.retries[r].batch) {
      RetriesSourced(s, e, r);
      BatchKept(s, e, t.retries[r].batch);
    }
  }

  lemma EnqueueKnown(s: State, e: Event)
    requires Enabled(s, e) && e.Enqueue?
    ensures s.rep.tasks[e.w].id in s.rep.recorded
  {
  }

  lemma IdemKeyInjective(a: string, b: string)
    ensures IdemKey(a) == IdemKey(b) <==> a == b
  {
    assert IdemKey(a)[12..] == a && IdemKey(b)[12..] == b;
  }

  lemma IngestBills(recorded: map<string, Usage>, ledger: seq<Billed>, id: string, account: int, call: Call)
    requires Bills(recorded, ledger) && id in recorded
    ensures Bills(recorded, Ingest(ledger, id, recorded[id], account, call))
  {
    hide IdemKey;
    var after := Ingest(ledger, id, recorded[id], account, call);
    if after != ledger {
      assert BillFor(after[|ledger|], id, recorded[id]);
      forall i | 0 <= i < |ledger| ensures ledger[i].key != IdemKey(id) {
        assert Backed(recorded, ledger[i]);
        var x :| x in recorded && BillFor(ledger[i], x, recorded[x]);
        assert ledger[i].product == PRODUCT;
      }
    }
  }

  lemma BillsGrow(recorded: map<string, Usage>, more: map<string, Usage>, ledger: seq<Billed>)
    requires Bills(recorded, ledger)
    requires forall id :: id in recorded ==> id in more && more[id] == recorded[id]
    ensures Bills(more, ledger)
  {
    forall i | 0 <= i < |ledger| ensures Backed(more, ledger[i]) {
      assert Backed(recorded, ledger[i]);
      var id :| id in recorded && BillFor(ledger[i], id, recorded[id]);
      assert more[id] == recorded[id];
    }
  }

  lemma BillsStep(s: State, e: Event)
    requires Enabled(s, e) && Sourced(s) && Bills(s.rep.recorded, s.ledger)
    ensures Bills(NextReporter(s, e).recorded, NextLedger(s, e))
  {
    hide NextReporter, Bills, Ingest;
    match e {
      case Post(w, call) =>
        var t := s.rep.tasks[w];
        IngestBills(s.rep.recorded, s.ledger, t.id, t.account, call);
      case RetryPost(r, call) =>
        var row := s.retries[r].batch[0];
        assert row.usage == s.rep.recorded[row.id];
        IngestBills(s.rep.recorded, s.ledger, row.id, s.retries[r].stage.account, call);
      case _ =>
    }
    RecordedGrows(s, e);
    BillsGrow(s.rep.recorded, NextReporter(s, e).recorded, NextLedger(s, e));
  }

  lemma SourcedAtStart(buffer: nat, durable: bool, workers: nat, retries: nat)
    ensures var s := Initial(buffer, durable, workers, retries); Sourced(s) && Bills(s.rep.recorded, s.ledger)
  {
  }

  lemma {:induction false} AlwaysSourced(states: seq<State>, events: seq<Event>, n: nat)
    requires IsRun(states, events) && n <= |events|
    ensures Sourced(states[n]) && Bills(states[n].rep.recorded, states[n].ledger)
  {
    hide NextReporter, NextRows, NextRetries, NextLedger, NextExhausted, Enabled, Initial, Sourced, Bills;
    if n == 0 {
      var p := states[0].rep;
      SourcedAtStart(p.buffer, p.durable, |p.tasks|, |states[0].retries|);
    } else {
      AlwaysSourced(states, events, n - 1);
      SourcedStep(states[n - 1], events[n - 1]);
      BillsStep(states[n - 1], events[n - 1]);
    }
  }

  /** Usage is billed at most once: in every reachable state, whatever replies were lost,
      marks failed, accounts were looked up and workers overlapped, each ledger row is for
      exactly one recorded event, with its prompt plus completion tokens, and no two rows
      are for the same event. */
  lemma BilledAtMostOnce(states: seq<State>, events: seq<Event>, n: nat, i: nat) returns (id: string)
    requires IsRun(states, events) && n <= |events| && i < |states[n].ledger|
    ensures id in states[n].rep.recorded && states[n].ledger[i].key == IdemKey(id)
    ensures var u := states[n].rep.recorded[id]; states[n].ledger[i].quantity == u.prompt + u.completion
    ensures forall j :: 0 <= j < |states[n].ledger| && states[n].ledger[j].key == IdemKey(id) ==> j == i
    ensures forall other :: IdemKey(other) == states[n].ledger[i].key ==> other == id
  {
    hide IsRun, Sourced, IdemKey;
    AlwaysSourced(states, events, n);
    RunLength(states, events);
    var s := states[n];
    assert Backed(s.rep.recorded, s.ledger[i]);
    id :| id in s.rep.recorded && BillFor(s.ledger[i], id, s.rep.recorded[id]);
    forall other ensures IdemKey(other) == IdemKey(id) ==> other == id {
      IdemKeyInjective(other, id);
    }
  }

  predicate NoneNegative(ledger: seq<Billed>) { forall i :: 0 <= i < |ledger| ==> ledger[i].quantity >= 0 }

  lemma NoneNegativeStep(s: State, e: Event)
    requires Enabled(s, e) && NoneNegative(s.ledger)
    ensures NoneNegative(NextLedger(s, e))
  {
    hide InLedger, IdemKey;
  }

  lemma {:induction false} AlwaysNoneNegative(states: seq<State>, events: seq<Event>, n: nat)
    requires IsRun(states, events) && n <= |events|
    ensures NoneNegative(states[n].ledger)
  {
    hide NextReporter, NextRows, NextRetries, NextLedger, NextExhausted, Enabled;
    if n > 0 {
      AlwaysNoneNegative(states, events, n - 1);
      NoneNegativeStep(states[n - 1], events[n - 1]);
    }
  }

  /** The guard of Record asks for one positive count, not for a positive sum. In every run a
      billed amount is never negative, and it is positive if and only if the counts of its event
      add up to more than zero, as counts of which none is negative do. */
  lemma PositiveAmounts(states: seq<State>, events: seq<Event>, n: nat, i: nat) returns (id: string)
    requires IsRun(states, events) && n <= |events| && i < |states[n].ledger|
    ensures id in states[n].rep.recorded && states[n].ledger[i].key == IdemKey(id)
    ensures var u, q := states[n].rep.recorded[id], states[n].ledger[i].quantity;
      && q >= 0
      && (q > 0 <==> u.prompt + u.completion > 0)
      && (u.prompt >= 0 && u.completion >= 0 ==> q > 0)
  {
    hide IsRun, IdemKey;
    RunLength(states, events);
    id := BilledAtMostOnce(states, events, n, i);
    AlwaysBillable(states, events, n, id);
    AlwaysNoneNegative(states, events, n);
  }

  /** An event whose counts add up to less than zero is never billed in any run: it is not
      posted and its row is never marked sent. */
  lemma NegativeNeverBilled(states: seq<State>, events: seq<Event>, n: nat, id: string)
    requires IsRun(states, events) && n <= |events| && id in states[n].rep.recorded
    requires Quantity(states[n].rep.recorded[id]) < 0
    ensures !InLedger(states[n].ledger, IdemKey(id))
    ensures states[n].rep.ends.posted[id] == 0 && (id in states[n].rows ==> !states[n].rows[id].sent)
  {
    hide IsRun, IdemKey;
    RunLength(states, events);
    AlwaysDelivered(states, events, n);
    forall i | 0 <= i < |states[n].ledger|
      ensures states[n].ledger[i].key != IdemKey(id)
    {
      var other := PositiveAmounts(states, events, n, i);
      IdemKeyInjective(other, id);
      var billed := BilledAtMostOnce(states, events, n, i);
      IdemKeyInjective(billed, id);
    }
  }

  lemma {:induction false} AlwaysBillable(states: seq<State>, events: seq<Event>, n: nat, id: string)
    requires IsRun(states, events) && n <= |events| && id in states[n].rep.recorded
    ensures Billable(states[n].rep.recorded[id])
  {
    hide NextRows, NextRetries, NextLedger, NextExhausted, Billable;
    if n > 0 && id in states[n - 1].rep.recorded {
      AlwaysBillable(states, events, n - 1, id);
      RecordedGrows(states[n - 1], events[n - 1]);
    }
  }

  lemma RunLength(states: seq<State>, events: seq<Event>)
    requires IsRun(states, events)
    ensures |states| == |events| + 1
  {
  }

  // ---- what counts as delivered is in the ledger ----

  /** Posted events, sent rows and rows about to be marked are in the ledger, and events
      counted as queued have a row. */
  ghost predicate Delivered(s: State) {
    && (forall id :: s.rep.ends.posted[id] > 0 ==> InLedger(s.ledger, IdemKey(id)))
    && (forall id :: s.rep.ends.queued[id] > 0 ==> id in s.rows)
    && (forall id :: id in s.rows && s.rows[id].sent ==> InLedger(s.ledger, IdemKey(id)))
    && (forall r :: 0 <= r < |s.retries| && s.retries[r].stage.Marking? && s.retries[r].batch != [] ==>
          InLedger(s.ledger, IdemKey(s.retries[r].batch[0].id)))
  }

  lemma IngestKeeps(ledger: seq<Billed>, id: string, u: Usage, account: int, call: Call, key: string)
    ensures InLedger(ledger, key) ==> InLedger(Ingest(ledger, id, u, account, call), key)
    ensures !call.NoEffect? ==> InLedger(Ingest(ledger, id, u, account, call), IdemKey(id))
  {
    hide IdemKey;
    var after := Ingest(ledger, id, u, account, call);
    if InLedger(ledger, key) {
      var i :| 0 <= i < |ledger| && ledger[i].product == PRODUCT && ledger[i].key == key;
      assert after[i] == ledger[i];
    }
    if after != ledger {
      assert after[|ledger|].key == IdemKey(id);
    }
  }

  lemma LedgerGrows(s: State, e: Event)
    requires Enabled(s, e)
    ensures forall key :: InLedger(s.ledger, key) ==> InLedger(NextLedger(s, e), key)
    ensures e.Post? && e.call.Done? ==> InLedger(NextLedger(s, e), IdemKey(s.rep.tasks[e.w].id))
    ensures e.RetryPost? && e.call.Done? ==> InLedger(NextLedger(s, e), IdemKey(s.retries[e.r].batch[0].id))
  {
    hide InLedger, IdemKey, Ingest;
    forall key ensures InLedger(s.ledger, key) ==> InLedger(NextLedger(s, e), key) {
      match e
      case Post(w, call) =>
        var t := s.rep.tasks[w];
        IngestKeeps(s.ledger, t.id, s.rep.recorded[t.id], t.account, call, key);
      case RetryPost(r, call) =>
        var row := s.retries[r].batch[0];
        IngestKeeps(s.ledger, row.id, row.usage, s.retries[r].stage.account, call, key);
      case _ =>
    }
    match e
    case Post(w, call) =>
      var t := s.rep.tasks[w];
      IngestKeeps(s.ledger, t.id, s.rep.recorded[t.id], t.account, call, "");
    case RetryPost(r, call) =>
      var row := s.retries[r].batch[0];
      IngestKeeps(s.ledger, row.id, row.usage, s.retries[r].stage.account, call, "");
    case _ =>
  }

  lemma EndsStep(s: State, e: Event, id: string)
    requires Enabled(s, e)
    ensures var x, y := s.rep.ends, NextReporter(s, e).ends;
      && (y.posted[id] > 0 ==> x.posted[id] > 0 || (e.Post? && e.call.Done? && s.rep.tasks[e.w].id == id))
      && (y.queued[id] > 0 ==> x.queued[id] > 0 || (e.Enqueue? && e.call.Done? && s.rep.durable && s.rep.tasks[e.w].id == id))
  {
  }

  lemma RowsStep(s: State, e: Event, id: string)
    requires Enabled(s, e)
    ensures id in s.rows ==> id in NextRows(s, e)
    ensures e.Enqueue? && e.call.Done? && s.rep.durable && s.rep.tasks[e.w].id == id ==> id in NextRows(s, e)
    ensures id in NextRows(s, e) && NextRows(s, e)[id].sent ==>
      (id in s.rows && s.rows[id].sent) || (e.MarkSent? && s.retries[e.r].batch[0].id == id)
  {
  }

  lemma StageStep(s: State, e: Event, r: nat)
    requires Enabled(s, e) && r < |NextRetries(s, e)|
    requires NextRetries(s, e)[r].stage.Marking? && NextRetries(s, e)[r].batch != []
    ensures r < |s.retries| && s.retries[r].batch == NextRetries(s, e)[r].batch
    ensures s.retries[r].stage.Marking? || (e.RetryPost? && e.call.Done? && e.r == r)
  {
  }

  lemma MarkerStage(s: State, e: Event)
    requires Enabled(s, e) && e.MarkSent?
    ensures e.r < |s.retries| && s.retries[e.r].stage.Marking? && s.retries[e.r].batch != []
  {
  }

  lemma DeliveredStep(s: State, e: Event)
    requires Enabled(s, e) && Delivered(s)
    ensures Delivered(Next(s, e))
  {
    hide NextReporter, NextRows, NextRetries, NextLedger, NextExhausted, Enabled, InLedger, IdemKey;
    var t := Next(s, e);
    LedgerGrows(s, e);
    if e.MarkSent? {
      MarkerStage(s, e);
    }
    forall id ensures t.rep.ends.posted[id] > 0 ==> InLedger(t.ledger, IdemKey(id)) {
      EndsStep(s, e, id);
    }
    forall id ensures t.rep.ends.queued[id] > 0 ==> id in t.rows {
      EndsStep(s, e, id);
      RowsStep(s, e, id);
    }
    forall id | id in t.rows && t.rows[id].sent ensures InLedger(t.ledger, IdemKey(id)) {
      RowsStep(s, e, id);
    }
    forall r | 0 <= r < |t.retries| && t.retries[r].stage.Marking? && t.retries[r].batch != []
      ensures InLedger(t.ledger, IdemKey(t.retries[r].batch[0].id))
    {
      StageStep(s, e, r);
    }
  }

  lemma DeliveredAtStart(buffer: nat, durable: bool, workers: nat, retries: nat)
    ensures Delivered(Initial(buffer, durable, workers, retries))
  {
  }

  lemma {:induction false} AlwaysDelivered(states: seq<State>, events: seq<Event>, n: nat)
    requires IsRun(states, events) && n <= |events|
    ensures Delivered(states[n])
  {
    hide NextReporter, NextRows, NextRetries, NextLedger, NextExhausted, Enabled, Initial, Delivered;
    if n == 0 {
      var p := states[0].rep;
      DeliveredAtStart(p.buffer, p.durable, |p.tasks|, |states[0].retries|);
    } else {
      AlwaysDelivered(states, events, n - 1);
      DeliveredStep(states[n - 1], events[n - 1]);
    }
  }

  /** Every event the queue took is billed, still with the reporter, in the outbox (to be
      retried or at the cap), or counted as skipped or as a failed enqueue. */
  lemma EveryEventIsAccountedFor(states: seq<State>, events: seq<Event>, n: nat, id: string)
    requires IsRun(states, events) && n <= |events| && id in states[n].rep.recorded
    ensures var s := states[n];
      || InLedger(s.ledger, IdemKey(id))
      || id in s.rep.channel || Holders(s.rep.tasks, id) > 0
      || (id in s.rows && !s.rows[id].sent && (Drainable(s, id) || s.rows[id].attempts >= MAX_ATTEMPTS))
      || s.rep.ends.skipped[id] > 0 || s.rep.ends.failed[id] > 0
  {
    hide IsRun, InLedger, IdemKey, Holders, Total;
    RunLength(states, events);
    NothingIsLostUncounted(states, events, n);
    AlwaysDelivered(states, events, n);
    assert Places(states[n].rep, id) == 1;
  }

  // ---- why an event ended where it did ----

  /** Worker e.w looks for an account of id, whose tenant has none cached, and finds none. */
  predicate LookupFails(s: State, e: Event, id: string)
    requires Enabled(s, e)
  {
    && e.Resolve? && s.rep.tasks[e.w].id == id && !e.found.Account?
    && s.rep.recorded[id].uuid.Some? && s.rep.recorded[id].uuid.value !in s.rep.cache
  }

  /** The post of id is not seen to succeed. */
  predicate PostFails(s: State, e: Event, id: string)
    requires Enabled(s, e)
  {
    e.Post? && s.rep.tasks[e.w].id == id && !e.call.Done?
  }

  predicate HasFailed(states: seq<State>, events: seq<Event>, n: nat, id: string)
    requires IsRun(states, events) && n <= |events|
  {
    exists m :: 0 <= m < n && (LookupFails(states[m], events[m], id) || PostFails(states[m], events[m], id))
  }

  predicate FailingNow(s: State, id: string) { exists w :: 0 <= w < |s.rep.tasks| && s.rep.tasks[w] == Failing(id) }

  lemma FailingStep(s: State, e: Event, id: string)
    requires Enabled(s, e) && FailingNow(Next(s, e), id)
    ensures FailingNow(s, id) || LookupFails(s, e, id) || PostFails(s, e, id)
  {
    hide NextRows, NextRetries, NextLedger, NextExhausted;
    var w :| 0 <= w < |Next(s, e).rep.tasks| && Next(s, e).rep.tasks[w] == Failing(id);
    assert w < |s.rep.tasks| && (s.rep.tasks[w] == Failing(id) || LookupFails(s, e, id) || PostFails(s, e, id));
  }

  /** How the counters of id can grow. */
  lemma EndsGrow(s: State, e: Event, id: string)
    requires Enabled(s, e)
    ensures var x, y := s.rep.ends, NextReporter(s, e).ends;
      && (y.skipped[id] > x.skipped[id] ==>
            || (e.Resolve? && s.rep.tasks[e.w].id == id && s.rep.recorded[id].uuid.None?)
            || (e.Enqueue? && !s.rep.durable && FailingNow(s, id)))
      && (y.skipped[id] > x.skipped[id] ==> id in s.rep.recorded)
      && (y.queued[id] > x.queued[id] ==> e.Enqueue? && s.rep.durable && FailingNow(s, id) && e.call.Done?)
      && (y.failed[id] > x.failed[id] ==> s.rep.durable && FailingNow(s, id) && EnqueueFails(s, e, id))
    ensures NextReporter(s, e).durable == s.rep.durable
  {
    assert e.Enqueue? ==> s.rep.tasks[e.w] == Failing(s.rep.tasks[e.w].id);
  }

  /** The enqueue of id is not seen to succeed. */
  predicate EnqueueFails(s: State, e: Event, id: string)
    requires Enabled(s, e)
  {
    e.Enqueue? && s.rep.tasks[e.w].id == id && !e.call.Done?
  }

  predicate EnqueueFailed(states: seq<State>, events: seq<Event>, n: nat, id: string)
    requires IsRun(states, events) && n <= |events|
  {
    exists m :: 0 <= m < n && EnqueueFails(states[m], events[m], id)
  }

  ghost predicate Caused(states: seq<State>, events: seq<Event>, n: nat, id: string)
    requires IsRun(states, events) && n <= |events|
  {
    var s, x := states[n], states[n].rep.ends;
    && (FailingNow(s, id) ==> HasFailed(states, events, n, id))
    && (x.skipped[id] > 0 ==> id in s.rep.recorded)
    && (x.skipped[id] > 0 ==> s.rep.recorded[id].uuid.None? || (!s.rep.durable && HasFailed(states, events, n, id)))
    && (x.queued[id] > 0 ==> s.rep.durable && HasFailed(states, events, n, id))
    && (x.failed[id] > 0 ==> s.rep.durable && HasFailed(states, events, n, id) && EnqueueFailed(states, events, n, id))
  }

  lemma HasFailedStays(states: seq<State>, events: seq<Event>, m: nat, n: nat, id: string)
    requires IsRun(states, events) && m <= n <= |events|
    ensures HasFailed(states, events, m, id) ==> HasFailed(states, events, n, id)
    ensures EnqueueFailed(states, events, m, id) ==> EnqueueFailed(states, events, n, id)
  {
    hide IsRun, LookupFails, PostFails, EnqueueFails;
    StepsEnabled(states, events);
  }

  lemma StepsEnabled(states: seq<State>, events: seq<Event>)
    requires IsRun(states, events)
    ensures |states| == |events| + 1 && forall n :: 0 <= n < |events| ==> Enabled(states[n], events[n])
  {
    hide Next, Enabled;
  }

  /** Over every run: an event is skipped only if its tenant does not parse, or there is no
      durable store and its lookup, with nothing cached for its tenant, or its post failed; it is
      queued for retry only after one of the two failed, and lost only if then the enqueue failed. */
  lemma {:induction false} EndsHaveCauses(states: seq<State>, events: seq<Event>, n: nat, id: string)
    requires IsRun(states, events) && n <= |events|
    ensures Caused(states, events, n, id)
  {
    hide NextReporter, NextRows, NextRetries, NextLedger, NextExhausted, Enabled, LookupFails, PostFails, EnqueueFails,
         FailingNow;
    if n == 0 {
      NothingEnded(states[0].rep.buffer, states[0].rep.durable, |states[0].rep.tasks|, |states[0].retries|, id);
    } else {
      EndsHaveCauses(states, events, n - 1, id);
      var s, e := states[n - 1], events[n - 1];
      EndsGrow(s, e, id);
      RecordedGrows(s, e);
      if FailingNow(states[n], id) {
        FailingStep(s, e, id);
      }
      HasFailedStays(states, events, n - 1, n, id);
    }
  }

  lemma NothingEnded(buffer: nat, durable: bool, workers: nat, retries: nat, id: string)
    ensures var s := Initial(buffer, durable, workers, retries);
      !FailingNow(s, id) && s.rep.ends == NO_ENDS
  {
  }

  /** A billable call of a known tenant meets room in the queue. */
  predicate Accepts(s: State, e: Event, id: string) {
    && e.Record? && e.id == id && (e.usage.prompt > 0 || e.usage.completion > 0)
    && e.usage.tenant != "" && e.usage.tenant != "unknown" && |s.rep.channel| < s.rep.buffer
  }

  lemma AcceptsStep(s: State, e: Event, id: string)
    requires Enabled(s, e)
    ensures id in Next(s, e).rep.recorded <==> id in s.rep.recorded || Accepts(s, e, id)
    ensures Accepts(s, e, id) ==> Next(s, e).rep.recorded[id] == e.usage
    ensures id in s.rep.recorded ==> Next(s, e).rep.recorded[id] == s.rep.recorded[id]
  {
    hide NextRows, NextRetries, NextLedger, NextExhausted;
  }

  /** Over every run: exactly the billable calls of known tenants that met room are taken. */
  lemma {:induction false} TakenExactly(states: seq<State>, events: seq<Event>, n: nat, id: string)
    requires IsRun(states, events) && n <= |events|
    ensures id in states[n].rep.recorded <==> exists m :: 0 <= m < n && Accepts(states[m], events[m], id)
    ensures forall m :: 0 <= m < n && Accepts(states[m], events[m], id) ==>
      id in states[n].rep.recorded && states[n].rep.recorded[id] == events[m].usage
  {
    hide NextReporter, NextRows, NextRetries, NextLedger, NextExhausted, Enabled, Accepts;
    if n > 0 {
      TakenExactly(states, events, n - 1, id);
      AcceptsStep(states[n - 1], events[n - 1], id);
      AcceptsOnce(states[n - 1], events[n - 1], id);
    }
  }

  lemma AcceptsOnce(s: State, e: Event, id: string)
    requires Enabled(s, e)
    ensures Accepts(s, e, id) ==> id !in s.rep.recorded && e.Record?
  {
  }

  /** The ids of the calls taken, in order. */
  function TakenIds(states: seq<State>, events: seq<Event>, n: nat): seq<string>
    requires IsRun(states, events) && n <= |events|
  {
    if n == 0 then []
    else
      var e := events[n - 1];
      TakenIds(states, events, n - 1) + if e.Record? && Accepts(states[n - 1], e, e.id) then [e.id] else []
  }

  function Takes(events: seq<Event>, n: nat): nat
    requires n <= |events|
  {
    if n == 0 then 0 else Takes(events, n - 1) + One(events[n - 1].Take?)
  }

  lemma QueueStep(s: State, e: Event)
    requires Enabled(s, e)
    ensures var p := NextReporter(s, e);
      && (e.Record? && Accepts(s, e, e.id) ==> p.channel == s.rep.channel + [e.id])
      && (e.Take? ==> s.rep.channel != [] && p.channel == s.rep.channel[1..])
      && (e.Take? ==> |p.tasks| == |s.rep.tasks| > e.w && p.tasks[e.w] == Took(s.rep.channel[0]))
      && (!e.Take? && !(e.Record? && Accepts(s, e, e.id)) ==> p.channel == s.rep.channel)
  {
  }

  /** Over every run: the queue holds what was taken and not yet handed to a worker, in order,
      and a worker is handed the earliest. */
  lemma {:induction false} QueueIsInOrder(states: seq<State>, events: seq<Event>, n: nat)
    requires IsRun(states, events) && n <= |events|
    ensures Takes(events, n) <= |TakenIds(states, events, n)|
    ensures states[n].rep.channel == TakenIds(states, events, n)[Takes(events, n)..]
    ensures n < |events| && events[n].Take? ==>
      && Takes(events, n) < |TakenIds(states, events, n)| && events[n].w < |states[n + 1].rep.tasks|
      && states[n + 1].rep.tasks[events[n].w] == Took(TakenIds(states, events, n)[Takes(events, n)])
  {
    hide NextReporter, NextRows, NextRetries, NextLedger, NextExhausted, Enabled, Accepts;
    if n > 0 {
      QueueIsInOrder(states, events, n - 1);
      QueueStep(states[n - 1], events[n - 1]);
    }
    if n < |events| {
      QueueStep(states[n], events[n]);
    }
  }

  // ---- a drained batch is handled row by row ----

  predicate RowDone(e: Event, r: nat) { (e.MarkSent? || e.RecordError?) && e.r == r }

  predicate NewBatch(e: Event, r: nat) { (e.Drain? || e.Restart?) && e.r == r }

  /** How many rows retry worker r is done with in the steps from m up to n. */
  function DoneBetween(events: seq<Event>, m: nat, n: nat, r: nat): nat
    requires n <= |events|
  {
    if n <= m then 0 else DoneBetween(events, m, n - 1, r) + One(RowDone(events[n - 1], r))
  }

  /** The batch holds these rows. */
  predicate Holds(batch: seq<Drained>, ids: seq<string>) {
    |batch| == |ids| && forall i :: 0 <= i < |ids| ==> batch[i].id == ids[i]
  }

  lemma RestOfBatch(s: State, e: Event, r: nat)
    requires Enabled(s, e) && r < |s.retries| && !NewBatch(e, r)
    ensures r < |NextRetries(s, e)|
    ensures RowDone(e, r) ==> s.retries[r].batch != [] && NextRetries(s, e)[r].batch == s.retries[r].batch[1..]
    ensures !RowDone(e, r) ==> NextRetries(s, e)[r].batch == s.retries[r].batch
  {
  }

  lemma Fetched(s: State, e: Event)
    requires Enabled(s, e) && e.Drain?
    ensures e.r < |NextRetries(s, e)| && Holds(NextRetries(s, e)[e.r].batch, e.ids)
  {
  }

  /** Over every run: a retry worker handles what it drained row by row and in order, whatever
      errors it meets, until it drains again or restarts. */
  lemma {:induction false} BatchIsTail(states: seq<State>, events: seq<Event>, m: nat, n: nat, r: nat)
    requires IsRun(states, events) && m < n <= |events| && events[m].Drain? && events[m].r == r
    requires forall k :: m < k < n ==> !NewBatch(events[k], r)
    ensures var done := DoneBetween(events, m + 1, n, r);
      && r < |states[n].retries| && done <= |events[m].ids| && Holds(states[n].retries[r].batch, events[m].ids[done..])
    decreases n
  {
    hide NextReporter, NextRows, NextRetries, NextLedger, NextExhausted, Enabled, RowDone, NewBatch;
    if n > m + 1 {
      BatchIsTail(states, events, m, n - 1, r);
      RestOfBatch(states[n - 1], events[n - 1], r);
    } else {
      Fetched(states[m], events[m]);
    }
  }

  /** The mark of row id lands. */
  predicate Sends(s: State, e: Event, id: string)
    requires Enabled(s, e)
  {
    e.MarkSent? && !e.call.NoEffect? && s.retries[e.r].batch[0].id == id
  }

  predicate RetryFails(s: State, e: Event, r: nat, id: string)
    requires Enabled(s, e)
  {
    || (e.RetryResolve? && e.r == r && s.retries[r].batch[0].id == id && !e.found.Account?)
    || (e.RetryPost? && e.r == r && s.retries[r].batch[0].id == id && !e.call.Done?)
  }

  lemma SendsStep(s: State, e: Event, id: string)
    requires Enabled(s, e)
    ensures id in Next(s, e).rows && Next(s, e).rows[id].sent <==> (id in s.rows && s.rows[id].sent) || Sends(s, e, id)
  {
    hide NextReporter, NextRetries, NextLedger, NextExhausted;
  }

  /** Over every run: a row is sent if and only if a mark of it landed. */
  lemma {:induction false} SentExactly(states: seq<State>, events: seq<Event>, n: nat, id: string)
    requires IsRun(states, events) && n <= |events|
    ensures id in states[n].rows && states[n].rows[id].sent <==>
      exists m :: 0 <= m < n && Sends(states[m], events[m], id)
  {
    hide NextReporter, NextRows, NextRetries, NextLedger, NextExhausted, Enabled, Sends;
    if n > 0 {
      SentExactly(states, events, n - 1, id);
      SendsStep(states[n - 1], events[n - 1], id);
    }
  }

  predicate AtErring(s: State, r: nat, id: string) {
    AtStage(s, r) && s.retries[r].stage.Erring? && s.retries[r].batch[0].id == id
  }

  lemma ErringStep(s: State, e: Event, r: nat, id: string)
    requires Enabled(s, e) && AtErring(Next(s, e), r, id)
    ensures AtErring(s, r, id) || RetryFails(s, e, r, id)
  {
    hide NextReporter, NextRows, NextLedger, NextExhausted;
  }

  /** Over every run: a retry counts an attempt only after its own lookup or post failed. */
  lemma {:induction false} ErrorsHaveCauses(states: seq<State>, events: seq<Event>, n: nat, r: nat, id: string)
    requires IsRun(states, events) && n <= |events| && AtErring(states[n], r, id)
    ensures exists m :: 0 <= m < n && RetryFails(states[m], events[m], r, id)
  {
    hide NextReporter, NextRows, NextRetries, NextLedger, NextExhausted, Enabled, RetryFails;
    if n > 0 {
      ErringStep(states[n - 1], events[n - 1], r, id);
      if AtErring(states[n - 1], r, id) {
        ErrorsHaveCauses(states, events, n - 1, r, id);
      }
    }
  }

  // ---- whose account is billed ----

  /** The lookup for a call of tenant u finds account a. */
  predicate Finds(s: State, e: Event, u: string, a: int)
    requires Enabled(s, e)
  {
    e.Resolve? && e.found == Account(a) && s.rep.recorded[s.rep.tasks[e.w].id].uuid == Some(u)
  }

  /** The lookup of a retry for row id finds account a. */
  predicate RetryFinds(s: State, e: Event, id: string, a: int)
    requires Enabled(s, e)
  {
    e.RetryResolve? && e.found == Account(a) && s.retries[e.r].batch[0].id == id
  }

  predicate FoundFor(states: seq<State>, events: seq<Event>, n: nat, u: string, a: int)
    requires IsRun(states, events) && n <= |events|
  {
    exists m :: 0 <= m < n && Finds(states[m], events[m], u, a)
  }

  predicate RetryFound(states: seq<State>, events: seq<Event>, n: nat, id: string, a: int)
    requires IsRun(states, events) && n <= |events|
  {
    exists m :: 0 <= m < n && RetryFinds(states[m], events[m], id, a)
  }

  /** Account a was looked up for the tenant of id, or for its row. */
  ghost predicate Owns(states: seq<State>, events: seq<Event>, n: nat, id: string, a: int)
    requires IsRun(states, events) && n <= |events| && id in states[n].rep.recorded
  {
    var u := states[n].rep.recorded[id].uuid;
    (u.Some? && FoundFor(states, events, n, u.value, a)) || RetryFound(states, events, n, id, a)
  }

  lemma FoundStays(states: seq<State>, events: seq<Event>, n: nat)
    requires IsRun(states, events) && n < |events|
    ensures forall u, a :: FoundFor(states, events, n, u, a) ==> FoundFor(states, events, n + 1, u, a)
    ensures forall id, a :: RetryFound(states, events, n, id, a) ==> RetryFound(states, events, n + 1, id, a)
    ensures forall u, a :: Enabled(states[n], events[n]) && Finds(states[n], events[n], u, a) ==>
      FoundFor(states, events, n + 1, u, a)
    ensures forall id, a :: Enabled(states[n], events[n]) && RetryFinds(states[n], events[n], id, a) ==>
      RetryFound(states, events, n + 1, id, a)
  {
    hide IsRun, Finds, RetryFinds;
    StepsEnabled(states, events);
  }

  ghost predicate CacheOwned(states: seq<State>, events: seq<Event>, n: nat)
    requires IsRun(states, events) && n <= |events|
  {
    var s := states[n];
    && (forall u :: u in s.rep.cache ==> FoundFor(states, events, n, u, s.rep.cache[u]))
    && (forall w :: 0 <= w < |s.rep.tasks| && s.rep.tasks[w].Ready? ==>
          && s.rep.tasks[w].id in s.rep.recorded && s.rep.recorded[s.rep.tasks[w].id].uuid.Some?
          && FoundFor(states, events, n, s.rep.recorded[s.rep.tasks[w].id].uuid.value, s.rep.tasks[w].account))
    && (forall r :: 0 <= r < |s.retries| && s.retries[r].stage.Posting? && s.retries[r].batch != [] ==>
          RetryFound(states, events, n, s.retries[r].batch[0].id, s.retries[r].stage.account))
  }

  lemma CacheStep(s: State, e: Event, u: string)
    requires Enabled(s, e) && u in NextReporter(s, e).cache
    ensures (u in s.rep.cache && NextReporter(s, e).cache[u] == s.rep.cache[u]) || Finds(s, e, u, NextReporter(s, e).cache[u])
  {
  }

  lemma ReadyStep(s: State, e: Event, w: nat)
    requires Enabled(s, e) && w < |NextReporter(s, e).tasks| && NextReporter(s, e).tasks[w].Ready?
    ensures w < |s.rep.tasks|
    ensures var t := NextReporter(s, e).tasks[w];
      || s.rep.tasks[w] == t
      || (t.id in s.rep.recorded && s.rep.recorded[t.id].uuid.Some?
          && var u := s.rep.recorded[t.id].uuid.value;
             (u in s.rep.cache && s.rep.cache[u] == t.account) || Finds(s, e, u, t.account))
  {
  }

  lemma PostingStep(s: State, e: Event, r: nat)
    requires Enabled(s, e) && r < |NextRetries(s, e)|
    requires NextRetries(s, e)[r].stage.Posting? && NextRetries(s, e)[r].batch != []
    ensures r < |s.retries|
    ensures s.retries[r] == NextRetries(s, e)[r]
      || RetryFinds(s, e, NextRetries(s, e)[r].batch[0].id, NextRetries(s, e)[r].stage.account)
  {
  }

  lemma {:induction false} AlwaysCacheOwned(states: seq<State>, events: seq<Event>, n: nat)
    requires IsRun(states, events) && n <= |events|
    ensures CacheOwned(states, events, n)
  {
    hide NextReporter, NextRows, NextRetries, NextLedger, NextExhausted, Enabled, Finds, RetryFinds, FoundFor, RetryFound;
    if n == 0 {
      NothingOwned(states[0].rep.buffer, states[0].rep.durable, |states[0].rep.tasks|, |states[0].retries|);
    } else {
      AlwaysCacheOwned(states, events, n - 1);
      FoundStays(states, events, n - 1);
      var s, e, t := states[n - 1], events[n - 1], states[n];
      RecordedGrows(s, e);
      forall u | u in t.rep.cache
        ensures FoundFor(states, events, n, u, t.rep.cache[u])
      {
        CacheStep(s, e, u);
      }
      forall w | 0 <= w < |t.rep.tasks| && t.rep.tasks[w].Ready?
        ensures t.rep.tasks[w].id in t.rep.recorded && t.rep.recorded[t.rep.tasks[w].id].uuid.Some?
        ensures FoundFor(states, events, n, t.rep.recorded[t.rep.tasks[w].id].uuid.value, t.rep.tasks[w].account)
      {
        ReadyStep(s, e, w);
      }
      forall r | 0 <= r < |t.retries| && t.retries[r].stage.Posting? && t.retries[r].batch != []
        ensures RetryFound(states, events, n, t.retries[r].batch[0].id, t.retries[r].stage.account)
      {
        PostingStep(s, e, r);
      }
    }
  }

  lemma NothingOwned(buffer: nat, durable: bool, workers: nat, retries: nat)
    ensures var s := Initial(buffer, durable, workers, retries);
      && s.rep.cache == map[] && (forall w :: 0 <= w < |s.rep.tasks| ==> s.rep.tasks[w].Idle?)
      && forall r :: 0 <= r < |s.retries| ==> s.retries[r].batch == []
  {
  }

  lemma NewBill(s: State, e: Event, i: nat)
    requires Enabled(s, e) && i < |NextLedger(s, e)|
    ensures (i < |s.ledger| && NextLedger(s, e)[i] == s.ledger[i])
      || (e.Post? && e.w < |s.rep.tasks| && s.rep.tasks[e.w].Ready?
          && NextLedger(s, e)[i].key == IdemKey(s.rep.tasks[e.w].id) && NextLedger(s, e)[i].account == s.rep.tasks[e.w].account)
      || (e.RetryPost? && e.r < |s.retries| && s.retries[e.r].batch != [] && s.retries[e.r].stage.Posting?
          && NextLedger(s, e)[i].key == IdemKey(s.retries[e.r].batch[0].id)
          && NextLedger(s, e)[i].account == s.retries[e.r].stage.account)
  {
    hide InLedger, IdemKey;
  }

  /** Over every run: the account of a ledger row was found by an earlier lookup for the tenant
      of its event, the event's own or one whose answer was cached, or by the retry of its row. */
  lemma {:induction false} BilledToItsOwner(states: seq<State>, events: seq<Event>, n: nat, i: nat) returns (id: string)
    requires IsRun(states, events) && n <= |events| && i < |states[n].ledger|
    ensures id in states[n].rep.recorded && states[n].ledger[i].key == IdemKey(id)
    ensures Owns(states, events, n, id, states[n].ledger[i].account)
  {
    hide NextReporter, NextRows, NextRetries, NextLedger, NextExhausted, Enabled, Finds, RetryFinds, FoundFor, RetryFound,
         IdemKey, Sourced, Bills;
    var s, e := states[n - 1], events[n - 1];
    AlwaysCacheOwned(states, events, n - 1);
    AlwaysSourced(states, events, n - 1);
    FoundStays(states, events, n - 1);
    RecordedGrows(s, e);
    NewBill(s, e, i);
    if i < |s.ledger| && states[n].ledger[i] == s.ledger[i] {
      id := BilledToItsOwner(states, events, n - 1, i);
    } else if e.Post? {
      id := s.rep.tasks[e.w].id;
    } else {
      id := s.retries[e.r].batch[0].id;
      RowRecorded(s, e.r);
    }
  }

  lemma RowRecorded(s: State, r: nat)
    requires Sourced(s) && r < |s.retries| && s.retries[r].batch != []
    ensures s.retries[r].batch[0].id in s.rep.recorded
  {
  }

  // ---- bounded retry ----

  predicate InBatch(r: Retry, id: string) { exists i :: 0 <= i < |r.batch| && r.batch[i].id == id }

  /** How many retry workers have row id in hand. */
  function InHand(rs: seq<Retry>, id: string): nat {
    if rs == [] then 0 else InHand(rs[..|rs| - 1], id) + One(InBatch(rs[|rs| - 1], id))
  }

  lemma {:induction false} InHandUpdate(rs: seq<Retry>, r: nat, x: Retry, id: string)
    requires r < |rs|
    ensures InHand(rs[r := x], id) + One(InBatch(rs[r], id)) == InHand(rs, id) + One(InBatch(x, id))
    ensures InHand(rs, id) <= |rs| && One(InBatch(rs[r], id)) <= InHand(rs, id)
  {
    hide InBatch;
    var n := |rs| - 1;
    var us := rs[r := x];
    if r == n {
      assert us[..n] == rs[..n];
      InHandBound(rs[..n], id);
    } else {
      InHandUpdate(rs[..n], r, x, id);
      assert us[..n] == rs[..n][r := x];
    }
  }

  lemma {:induction false} InHandBound(rs: seq<Retry>, id: string)
    ensures InHand(rs, id) <= |rs|
  {
    hide InBatch;
    if rs != [] {
      InHandBound(rs[..|rs| - 1], id);
    }
  }

  predicate NoRepeats(batch: seq<Drained>) {
    forall i, j :: 0 <= i < j < |batch| ==> batch[i].id != batch[j].id
  }

  /** How many recorded attempts of id reached the cap. */
  function OverCap(rows: map<string, Row>, id: string): nat {
    if id in rows && rows[id].attempts >= MAX_ATTEMPTS then rows[id].attempts - (MAX_ATTEMPTS - 1) else 0
  }

  predicate RetryStep(e: Event) {
    e.Drain? || e.RetryResolve? || e.RetryPost? || e.MarkSent? || e.RecordError? || e.Restart?
  }

  /** What worker e.r has in hand after a step, row by row. */
  lemma HandStep(s: State, e: Event, id: string)
    requires Enabled(s, e) && RetryStep(e)
    requires forall i :: 0 <= i < |s.retries| ==> NoRepeats(s.retries[i].batch)
    ensures e.r < |s.retries| && NextRetries(s, e) == s.retries[e.r := NextRetries(s, e)[e.r]]
    ensures var a, b := s.retries[e.r], NextRetries(s, e)[e.r];
      && NoRepeats(b.batch)
      && (InBatch(b, id) ==> InBatch(a, id) || (e.Drain? && Drainable(s, id)))
      && (e.RecordError? ==> InBatch(a, a.batch[0].id) && !InBatch(b, a.batch[0].id))
  {
    var a, b := s.retries[e.r], NextRetries(s, e)[e.r];
    if e.RecordError? {
      assert a.batch[0].id == a.batch[0].id && InBatch(a, a.batch[0].id);
    }
    if InBatch(b, id) && (e.MarkSent? || e.RecordError?) {
      var i :| 0 <= i < |b.batch| && b.batch[i].id == id;
      assert a.batch[i + 1].id == id;
    }
  }

  lemma RetriesStill(s: State, e: Event)
    requires Enabled(s, e) && !RetryStep(e)
    ensures NextRetries(s, e) == s.retries
  {
  }

  function Attempts(rows: map<string, Row>, id: string): nat { if id in rows then rows[id].attempts else 0 }

  lemma AttemptsStep(s: State, e: Event, id: string)
    requires Enabled(s, e)
    ensures Attempts(NextRows(s, e), id) ==
      Attempts(s.rows, id) + One(e.RecordError? && !e.call.NoEffect? && s.retries[e.r].batch[0].id == id)
    ensures e.RecordError? ==> s.retries[e.r].batch[0].id in s.rows
    ensures Drainable(s, id) ==> Attempts(s.rows, id) < MAX_ATTEMPTS
    ensures id in s.rows ==> id in NextRows(s, e)
  {
  }

  predicate Within(s: State, id: string) {
    Attempts(s.rows, id) + InHand(s.retries, id) <= MAX_ATTEMPTS - 1 + |s.retries|
  }

  lemma WithinStep(s: State, e: Event, id: string)
    requires Enabled(s, e) && Within(s, id) && forall i :: 0 <= i < |s.retries| ==> NoRepeats(s.retries[i].batch)
    ensures Within(Next(s, e), id) && |NextRetries(s, e)| == |s.retries|
  {
    hide NextReporter, NextRows, NextRetries, NextLedger, NextExhausted, Enabled;
    hide InHand, InBatch, NoRepeats, Attempts, Drainable;
    AttemptsStep(s, e, id);
    InHandBound(NextRetries(s, e), id);
    if RetryStep(e) {
      HandStep(s, e, id);
      InHandUpdate(s.retries, e.r, NextRetries(s, e)[e.r], id);
    } else {
      RetriesStill(s, e);
    }
  }

  /** The step records an error of id at or over the cap, and the reply with the new count is lost. */
  predicate LosesAlert(s: State, e: Event, id: string)
    requires Enabled(s, e)
  {
    e.RecordError? && e.call.LostReply? && s.retries[e.r].batch[0].id == id && Attempts(s.rows, id) + 1 >= MAX_ATTEMPTS
  }

  /** Each recorded attempt from the cap on raises an alert or loses it. */
  lemma AlertStep(s: State, e: Event, id: string)
    requires Enabled(s, e)
    ensures NextExhausted(s, e)[id] + One(LosesAlert(s, e, id)) + OverCap(s.rows, id)
         == s.exhausted[id] + OverCap(NextRows(s, e), id)
  {
  }

  ghost predicate Bounded(s: State) {
    && (forall i :: 0 <= i < |s.retries| ==> NoRepeats(s.retries[i].batch))
    && (forall id :: Within(s, id))
    && (forall id :: s.exhausted[id] <= OverCap(s.rows, id))
  }

  lemma BatchesStep(s: State, e: Event)
    requires Enabled(s, e) && forall i :: 0 <= i < |s.retries| ==> NoRepeats(s.retries[i].batch)
    ensures forall i :: 0 <= i < |NextRetries(s, e)| ==> NoRepeats(NextRetries(s, e)[i].batch)
  {
    hide NextRetries, Enabled, NoRepeats, InBatch;
    if RetryStep(e) {
      HandStep(s, e, "");
    } else {
      RetriesStill(s, e);
    }
  }

  lemma BoundedStep(s: State, e: Event)
    requires Enabled(s, e) && Bounded(s)
    ensures Bounded(Next(s, e)) && |NextRetries(s, e)| == |s.retries|
  {
    hide NextReporter, NextRows, NextRetries, NextLedger, NextExhausted, Enabled, NoRepeats, Within, OverCap;
    BatchesStep(s, e);
    WithinStep(s, e, "");
    forall id ensures Within(Next(s, e), id) {
      WithinStep(s, e, id);
    }
    forall id ensures NextExhausted(s, e)[id] <= OverCap(NextRows(s, e), id) {
      AlertStep(s, e, id);
    }
  }

  lemma BoundedAtStart(buffer: nat, durable: bool, workers: nat, retries: nat)
    ensures var s := Initial(buffer, durable, workers, retries); Bounded(s) && |s.retries| == retries
  {
    var s := Initial(buffer, durable, workers, retries);
    forall id ensures Within(s, id) {
      InHandBound(s.retries, id);
    }
  }

  lemma {:induction false} AlwaysBounded(states: seq<State>, events: seq<Event>, n: nat)
    requires IsRun(states, events) && n <= |events|
    ensures Bounded(states[n]) && |states[n].retries| == |states[0].retries|
  {
    hide NextReporter, NextRows, NextRetries, NextLedger, NextExhausted, Enabled, Initial, Bounded;
    if n == 0 {
      var p := states[0].rep;
      BoundedAtStart(p.buffer, p.durable, |p.tasks|, |states[0].retries|);
    } else {
      AlwaysBounded(states, events, n - 1);
      BoundedStep(states[n - 1], events[n - 1]);
    }
  }

  /** With k retry workers no row ever has more than MAX_ATTEMPTS + k - 1 recorded attempts
      or raises more than k alerts, whatever fails. */
  lemma RetriesAreBounded(states: seq<State>, events: seq<Event>, n: nat, id: string)
    requires IsRun(states, events) && n <= |events|
    ensures var k := |states[0].retries|;
      Attempts(states[n].rows, id) <= MAX_ATTEMPTS - 1 + k && states[n].exhausted[id] <= k
  {
    hide IsRun, InHand;
    RunLength(states, events);
    AlwaysBounded(states, events, n);
    assert Within(states[n], id);
  }

  /** How many alerts of id were lost with a reply. */
  function AlertsLost(states: seq<State>, events: seq<Event>, n: nat, id: string): nat
    requires IsRun(states, events) && n <= |events|
  {
    if n == 0 then 0 else AlertsLost(states, events, n - 1, id) + One(LosesAlert(states[n - 1], events[n - 1], id))
  }

  /** Whatever fails and however many workers there are, the alerts of a row and the ones lost
      together are its recorded attempts from the cap on. */
  lemma {:induction false} AlertsAndLosses(states: seq<State>, events: seq<Event>, n: nat, id: string)
    requires IsRun(states, events) && n <= |events|
    ensures states[n].exhausted[id] + AlertsLost(states, events, n, id) == OverCap(states[n].rows, id)
  {
    hide NextReporter, NextRows, NextRetries, NextLedger, NextExhausted, Enabled, OverCap, LosesAlert, One;
    if n == 0 {
      NoRowsNoAlerts(id);
    } else {
      AlertsAndLosses(states, events, n - 1, id);
      AlertStep(states[n - 1], events[n - 1], id);
    }
  }

  lemma NoRowsNoAlerts(id: string)
    ensures OverCap(map[], id) == 0
  {
  }

  lemma {:induction false} NoneLost(states: seq<State>, events: seq<Event>, n: nat, id: string)
    requires IsRun(states, events) && n <= |events|
    ensures AlertsLost(states, events, n, id) == 0 <==> forall m :: 0 <= m < n ==> !LosesAlert(states[m], events[m], id)
  {
    hide Next, Enabled, LosesAlert;
    if n > 0 {
      NoneLost(states, events, n - 1, id);
    }
  }

  /** With any number of retry workers, the alert of a row has fired exactly once if and only
      if its recorded attempts stand at the cap, or above it by as many as the alerts lost. */
  lemma AlertFiresExactlyOnce(states: seq<State>, events: seq<Event>, n: nat, id: string)
    requires IsRun(states, events) && n <= |events|
    ensures states[n].exhausted[id] == 1 <==>
      Attempts(states[n].rows, id) == MAX_ATTEMPTS + AlertsLost(states, events, n, id)
  {
    hide IsRun;
    RunLength(states, events);
    AlertsAndLosses(states, events, n, id);
  }

  /** With one retry worker the alert has fired exactly once for a row at the cap and never
      for another, if and only if the reply to the row's step from nine to ten was not lost. */
  lemma OneWorkerAlertsOnce(states: seq<State>, events: seq<Event>, n: nat, id: string)
    requires IsRun(states, events) && n <= |events| && |states[0].retries| == 1
    ensures states[n].exhausted[id] == One(Attempts(states[n].rows, id) >= MAX_ATTEMPTS)
        <==> forall m :: 0 <= m < n ==> !LosesAlert(states[m], events[m], id)
    ensures forall m :: 0 <= m < n && LosesAlert(states[m], events[m], id) ==>
      Attempts(states[m].rows, id) == MAX_ATTEMPTS - 1
  {
    hide Next, LosesAlert;
    AlertsAndLosses(states, events, n, id);
    NoneLost(states, events, n, id);
    RetriesAreBounded(states, events, n, id);
    forall m | 0 <= m < n && LosesAlert(states[m], events[m], id)
      ensures Attempts(states[m].rows, id) == MAX_ATTEMPTS - 1
    {
      RetriesAreBounded(states, events, m + 1, id);
      LossAtTheCap(states[m], events[m], id);
    }
  }

  lemma LossAtTheCap(s: State, e: Event, id: string)
    requires Enabled(s, e) && LosesAlert(s, e, id) && Attempts(Next(s, e).rows, id) <= MAX_ATTEMPTS
    ensures Attempts(s.rows, id) == MAX_ATTEMPTS - 1
  {
    hide NextReporter, NextRows, NextRetries, NextLedger, NextExhausted, Enabled, Attempts;
    AttemptsStep(s, e, id);
  }

  // ---- runs that miss or repeat the alert ----

  predicate RepliesSeen(e: Event) { !(e.RecordError? && e.call.LostReply?) }

  const USAGE := Usage("shop", Some("shop"), 3, 4)

  predicate AllSeen(events: seq<Event>) { forall m :: 0 <= m < |events| ==> RepliesSeen(events[m]) }

  lemma Extend(states: seq<State>, events: seq<Event>, e: Event) returns (longer: seq<State>, more: seq<Event>)
    requires IsRun(states, events) && Enabled(states[|events|], e)
    ensures IsRun(longer, more) && longer == states + [Next(states[|events|], e)] && more == events + [e]
    ensures AllSeen(events) && RepliesSeen(e) ==> AllSeen(more)
  {
    hide Enabled, NextReporter, NextRows, NextRetries, NextLedger, NextExhausted, RepliesSeen;
    longer, more := states + [Next(states[|events|], e)], events + [e];
  }

  /** Row "e" with a recorded attempts, all retry workers idle, no alert yet. */
  predicate Quiet(s: State, a: nat, k: nat) {
    && s.rows == map["e" := Row(USAGE, a, false)] && s.exhausted == multiset{}
    && s.retries == seq(k, i => Retry([], Head))
  }

  /** Worker r drains the row and finds no account. */
  lemma Fetch(states: seq<State>, events: seq<Event>, r: nat) returns (longer: seq<State>, more: seq<Event>)
    requires IsRun(states, events) && AllSeen(events)
    requires var s := states[|events|];
      r < |s.retries| && s.retries[r] == Retry([], Head) && s.rows.Keys == {"e"} && Drainable(s, "e")
    ensures IsRun(longer, more) && AllSeen(more) && longer[0] == states[0]
    ensures var s, t := states[|events|], longer[|more|];
      && t.rows == s.rows && t.exhausted == s.exhausted
      && t.retries == s.retries[r := Retry([Drained("e", s.rows["e"].usage)], Erring)]
  {
    hide NextReporter, NextLedger;
    var s := states[|events|];
    var e := Drain(r, ["e"]);
    var batch := [Drained("e", s.rows["e"].usage)];
    assert Drawn(s, ["e"]) == batch;
    longer, more := Extend(states, events, e);
    var s1 := longer[|more|];
    assert s1.retries == s.retries[r := Retry(batch, Head)];
    longer, more := Extend(longer, more, RetryResolve(r, NoAccount));
    assert longer[|more|].retries == s.retries[r := Retry(batch, Erring)];
  }

  /** Worker r records the failure; whether its reply arrives is up to call. */
  lemma Fail(states: seq<State>, events: seq<Event>, r: nat, call: Call) returns (longer: seq<State>, more: seq<Event>)
    requires IsRun(states, events) && AllSeen(events) && !call.NoEffect?
    requires states[|events|].rows.Keys == {"e"} && "e" in states[|events|].rows && r < |states[|events|].retries|
    requires states[|events|].retries[r] == Retry([Drained("e", USAGE)], Erring)
    ensures IsRun(longer, more) && longer[0] == states[0] && (call.Done? ==> AllSeen(more))
    ensures var s, t := states[|events|], longer[|more|];
      && t.rows == map["e" := Row(s.rows["e"].usage, s.rows["e"].attempts + 1, s.rows["e"].sent)]
      && t.retries == s.retries[r := Retry([], Head)]
      && t.exhausted == if call.Done? && s.rows["e"].attempts + 1 >= MAX_ATTEMPTS then s.exhausted + multiset{"e"} else s.exhausted
  {
    hide NextReporter, NextLedger;
    assert [Drained("e", USAGE)][1..] == [];
    longer, more := Extend(states, events, RecordError(r, call));
  }

  lemma QueueRow(k: nat) returns (states: seq<State>, events: seq<Event>)
    ensures IsRun(states, events) && AllSeen(events) && |states[0].retries| == k && Quiet(states[|events|], 0, k)
  {
    var s := Initial(1, true, 1, k);
    states, events := [s], [];
    states, events := Extend(states, events, Record("e", USAGE));
    states, events := QueueTake(states, events);
  }

  lemma QueueTake(states: seq<State>, events: seq<Event>) returns (longer: seq<State>, more: seq<Event>)
    requires IsRun(states, events) && AllSeen(events)
    requires states[|events|].rep == Reporter(1, true, map["e" := USAGE], ["e"], [Idle], map[], NO_ENDS)
    requires var s := states[|events|];
      s.rows == map[] && s.retries == seq(|s.retries|, i => Retry([], Head)) && s.exhausted == multiset{}
    ensures IsRun(longer, more) && AllSeen(more) && longer[0] == states[0]
    ensures Quiet(longer[|more|], 0, |states[|events|].retries|)
  {
    hide NextLedger;
    longer, more := Extend(states, events, Take(0));
    assert longer[|more|].rep.tasks == [Took("e")];
    longer, more := Extend(longer, more, Resolve(0, NoAccount));
    assert longer[|more|].rep.tasks == [Failing("e")];
    longer, more := Extend(longer, more, Enqueue(0, Done));
  }

  /** a failed retries below the cap. */
  lemma {:induction false} Climb(k: nat, a: nat) returns (states: seq<State>, events: seq<Event>)
    requires k > 0 && a < MAX_ATTEMPTS
    ensures IsRun(states, events) && AllSeen(events) && |states[0].retries| == k && Quiet(states[|events|], a, k)
  {
    if a == 0 {
      states, events := QueueRow(k);
    } else {
      states, events := Climb(k, a - 1);
      ghost var s := states[|events|];
      states, events := Fetch(states, events, 0);
      states, events := Fail(states, events, 0, Done);
      assert states[|events|].retries == s.retries;
    }
  }

  /** Two retry workers can raise the alert twice for one row. */
  lemma TwoWorkersAlertTwice() returns (states: seq<State>, events: seq<Event>)
    ensures IsRun(states, events) && AllSeen(events) && |states[0].retries| == 2
    ensures states[|events|].exhausted["e"] == 2
  {
    hide IsRun, AllSeen, Drainable;
    states, events := Climb(2, 9);
    RunLength(states, events);
    NineIsDrainable(states[|events|]);
    states, events := Fetch(states, events, 0);
    RunLength(states, events);
    NineIsDrainable(states[|events|]);
    states, events := Fetch(states, events, 1);
    RunLength(states, events);
    states, events := Fail(states, events, 0, Done);
    RunLength(states, events);
    states, events := Fail(states, events, 1, Done);
    RunLength(states, events);
  }

  lemma NineIsDrainable(s: State)
    requires s.rows == map["e" := Row(USAGE, 9, false)]
    ensures Drainable(s, "e")
  {
  }

  /** A lost reply to the tenth recorded error leaves the row at the cap without an alert,
      and it is never drained again. */
  lemma LostReplyLosesTheAlert() returns (states: seq<State>, events: seq<Event>)
    ensures IsRun(states, events) && |states[0].retries| == 1
    ensures var s := states[|events|];
      "e" in s.rows && s.rows["e"].attempts == MAX_ATTEMPTS && !Drainable(s, "e") && s.exhausted["e"] == 0
  {
    hide IsRun, AllSeen;
    states, events := Climb(1, 9);
    RunLength(states, events);
    states, events := Fetch(states, events, 0);
    RunLength(states, events);
    states, events := Fail(states, events, 0, LostReply);
    RunLength(states, events);
  }

  // ---- calls whose counts do not add up ----

  const NOTHING := Usage("shop", Some("shop"), 5, -5)

  const REFUND := Usage("shop", Some("shop"), 5, -10)

  lemma CallReady(u: Usage, k: nat) returns (states: seq<State>, events: seq<Event>)
    requires Billable(u) && u.uuid == Some("shop")
    ensures IsRun(states, events)
    ensures states[|events|] == State(
      Reporter(1, true, map["e" := u], [], [Ready("e", 7)], map["shop" := 7], NO_ENDS), map[], seq(k, i => Retry([], Head)),
      [], multiset{})
  {
    states, events := [Initial(1, true, 1, k)], [];
    states, events := Extend(states, events, Record("e", u));
    states, events := Extend(states, events, Take(0));
    assert states[|events|].rep.tasks == [Took("e")];
    states, events := Extend(states, events, Resolve(0, Account(7)));
    assert states[|events|].rep.tasks == [Ready("e", 7)];
  }

  /** Counts of 5 and -5 pass the guard of Record and are billed as nothing. */
  lemma ZeroIsBilled() returns (states: seq<State>, events: seq<Event>)
    ensures IsRun(states, events)
    ensures var s := states[|events|];
      s.rep.recorded == map["e" := NOTHING] && s.ledger == [Billed(PRODUCT, IdemKey("e"), 7, 0)]
  {
    hide NextRetries, NextRows, IdemKey, IsRun;
    states, events := CallReady(NOTHING, 0);
    RunLength(states, events);
    states, events := Extend(states, events, Post(0, Done));
    RunLength(states, events);
  }

  /** Row "e" has failed a times, and nothing is billed. */
  predicate Stuck(s: State, a: nat) {
    && s.rows == map["e" := Row(REFUND, a, false)] && s.retries == [Retry([], Head)] && s.ledger == []
    && s.exhausted == if a >= MAX_ATTEMPTS then multiset{"e"} else multiset{}
  }

  lemma RefundQueued() returns (states: seq<State>, events: seq<Event>)
    ensures IsRun(states, events) && Stuck(states[|events|], 0)
  {
    hide IsRun;
    states, events := CallReady(REFUND, 1);
    RunLength(states, events);
    states, events := Extend(states, events, Post(0, NoEffect));
    RunLength(states, events);
    assert states[|events|].rep.tasks == [Failing("e")];
    states, events := Extend(states, events, Enqueue(0, Done));
    RunLength(states, events);
  }

  lemma RefundDrained(states: seq<State>, events: seq<Event>, a: nat) returns (longer: seq<State>, more: seq<Event>)
    requires IsRun(states, events) && Stuck(states[|events|], a) && a < MAX_ATTEMPTS
    ensures IsRun(longer, more)
    ensures longer[|more|] ==
      State(states[|events|].rep, states[|events|].rows, [Retry([Drained("e", REFUND)], Posting(7))], [], multiset{})
  {
    hide IsRun;
    RunLength(states, events);
    assert Drawn(states[|events|], ["e"]) == [Drained("e", REFUND)];
    longer, more := Extend(states, events, Drain(0, ["e"]));
    RunLength(longer, more);
    assert longer[|more|].retries == [Retry([Drained("e", REFUND)], Head)];
    longer, more := Extend(longer, more, RetryResolve(0, Account(7)));
    RunLength(longer, more);
  }

  lemma RefundRound(states: seq<State>, events: seq<Event>, a: nat) returns (longer: seq<State>, more: seq<Event>)
    requires IsRun(states, events) && Stuck(states[|events|], a) && a < MAX_ATTEMPTS
    ensures IsRun(longer, more) && Stuck(longer[|more|], a + 1)
  {
    hide IsRun;
    longer, more := RefundDrained(states, events, a);
    RunLength(longer, more);
    longer, more := Extend(longer, more, RetryPost(0, NoEffect));
    RunLength(longer, more);
    assert longer[|more|].retries == [Retry([Drained("e", REFUND)], Erring)];
    assert [Drained("e", REFUND)][1..] == [];
    longer, more := Extend(longer, more, RecordError(0, Done));
    RunLength(longer, more);
  }

  lemma {:induction false} RefundClimbs(a: nat) returns (states: seq<State>, events: seq<Event>)
    requires a <= MAX_ATTEMPTS
    ensures IsRun(states, events) && Stuck(states[|events|], a)
  {
    hide IsRun, Stuck;
    if a == 0 {
      states, events := RefundQueued();
    } else {
      states, events := RefundClimbs(a - 1);
      states, events := RefundRound(states, events, a - 1);
    }
  }

  /** Counts of 5 and -10 pass the guard too; the platform refuses them every time, and the
      row ends at the cap with an alert and nothing billed, although no call was lost. */
  lemma RefundExhausts() returns (states: seq<State>, events: seq<Event>)
    ensures IsRun(states, events) && Stuck(states[|events|], MAX_ATTEMPTS)
    ensures !Drainable(states[|events|], "e")
  {
    hide IsRun;
    states, events := RefundClimbs(MAX_ATTEMPTS);
  }

  // ---- the retry budget ----

  /** The sum over the rows of the tries they have left below `cap`. */
  ghost function Budget(rows: map<string, Row>, cap: int): int {
    if rows == map[] then 0
    else
      var k :| k in rows;
      cap - rows[k].attempts + Budget(rows - {k}, cap)
  }

  lemma {:induction false} BudgetAt(rows: map<string, Row>, cap: int, k: string)
    requires k in rows
    ensures Budget(rows, cap) == cap - rows[k].attempts + Budget(rows - {k}, cap)
    decreases |rows|
  {
    var j :| j in rows && Budget(rows, cap) == cap - rows[j].attempts + Budget(rows - {j}, cap);
    if j != k {
      assert |rows - {j}| < |rows| by { assert rows == (rows - {j})[j := rows[j]]; }
      assert |rows - {k}| < |rows| by { assert rows == (rows - {k})[k := rows[k]]; }
      BudgetAt(rows - {j}, cap, k);
      BudgetAt(rows - {k}, cap, j);
      assert rows - {j} - {k} == rows - {k} - {j};
    }
  }

  lemma BudgetPut(rows: map<string, Row>, cap: int, k: string, row: Row)
    ensures Budget(rows[k := row], cap) ==
      Budget(rows, cap) + (if k in rows then rows[k].attempts else cap) - row.attempts
  {
    BudgetAt(rows[k := row], cap, k);
    assert rows[k := row] - {k} == rows - {k};
    if k in rows {
      BudgetAt(rows, cap, k);
    } else {
      assert rows - {k} == rows;
    }
  }

  /** A failed retry whose error is recorded takes exactly one off the sum of (cap - attempts);
      queueing an event adds one fresh row; nothing else changes it. */
  lemma RecordedFailureSpendsBudget(s: State, e: Event, cap: int)
    requires Enabled(s, e)
    ensures var spent := One(e.RecordError? && !e.call.NoEffect?);
      var added := One(e.Enqueue? && s.rep.durable && !e.call.NoEffect?);
      Budget(NextRows(s, e), cap) == Budget(s.rows, cap) - spent + cap * added
  {
    hide Budget;
    match e
    case Enqueue(w, call) =>
      var id := s.rep.tasks[w].id;
      BudgetPut(s.rows, cap, id, Row(s.rep.recorded[id], 0, false));
    case MarkSent(r, call) =>
      var id := s.retries[r].batch[0].id;
      BudgetPut(s.rows, cap, id, Row(s.rows[id].usage, s.rows[id].attempts, true));
    case RecordError(r, call) =>
      var id := s.retries[r].batch[0].id;
      BudgetPut(s.rows, cap, id, Row(s.rows[id].usage, s.rows[id].attempts + 1, s.rows[id].sent));
    case _ =>
  }
}
