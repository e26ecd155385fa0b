/** The reporter and the retry worker of internal/adapter/usagereport as the objects they
    are, each proved against the step machine of UsageReport run without interruption. */
module UsageWorkers {

  import opened UsageReport
  import opened Wrappers

  /** What the surroundings do while one event or row is processed. */
  datatype Trial = Trial(found: Lookup, post: Call, mark: Call, record: Call, enqueue: Call)

  /** A refused post has no effect. */
  function Sent(account: int, u: Usage, call: Call): Call { if Refused(account, u) then NoEffect else call }

  // ---- one row of a retry worker, and one batch ----

  /** The steps worker 0 takes for the first row of its batch. */
  function RetryRow(s: State, t: Trial): (u: State)
    requires AtStage(s, 0) && s.retries[0].stage.Head? && s.retries[0].batch[0].id in s.rows
    ensures |u.retries| == |s.retries| && u.retries[0] == Retry(s.retries[0].batch[1..], Head)
    ensures s.rows.Keys == u.rows.Keys && u.rep == s.rep
  {
    var s1 := Next(s, RetryResolve(0, t.found));
    if s1.retries[0].stage.Erring? then Next(s1, RecordError(0, t.record))
    else
      var s2 := Next(s1, RetryPost(0, Sent(t.found.id, s.retries[0].batch[0].usage, t.post)));
      if s2.retries[0].stage.Erring? then Next(s2, RecordError(0, t.record)) else Next(s2, MarkSent(0, t.mark))
  }

  // Each step of a retry worker, written out.

  lemma ResolveIs(s: State, found: Lookup)
    requires AtStage(s, 0) && s.retries[0].stage.Head?
    ensures Enabled(s, RetryResolve(0, found))
    ensures Next(s, RetryResolve(0, found)) == State(s.rep, s.rows,
      s.retries[0 := Retry(s.retries[0].batch, if found.Account? then Posting(found.id) else Erring)], s.ledger, s.exhausted)
  {
  }

  lemma PostIs(s: State, call: Call)
    requires AtStage(s, 0) && s.retries[0].stage.Posting? && Enabled(s, RetryPost(0, call))
    ensures var row := s.retries[0].batch[0];
      Next(s, RetryPost(0, call)) == State(s.rep, s.rows,
        s.retries[0 := Retry(s.retries[0].batch, if call.Done? then Marking else Erring)],
        Ingest(s.ledger, row.id, row.usage, s.retries[0].stage.account, call), s.exhausted)
  {
    hide Ingest;
  }

  function Marked(rows: map<string, Row>, id: string, call: Call): map<string, Row>
    requires id in rows
  {
    if call.NoEffect? then rows else rows[id := Row(rows[id].usage, rows[id].attempts, true)]
  }

  function Charged(rows: map<string, Row>, id: string, call: Call): map<string, Row>
    requires id in rows
  {
    if call.NoEffect? then rows else rows[id := Row(rows[id].usage, rows[id].attempts + 1, rows[id].sent)]
  }

  function Alerted(rows: map<string, Row>, exhausted: multiset<string>, id: string, call: Call): multiset<string>
    requires id in rows
  {
    if call.Done? && rows[id].attempts + 1 >= MAX_ATTEMPTS then exhausted + multiset{id} else exhausted
  }

  lemma MarkIs(s: State, call: Call)
    requires Enabled(s, MarkSent(0, call))
    ensures var id := s.retries[0].batch[0].id;
      Next(s, MarkSent(0, call)) == State(s.rep, Marked(s.rows, id, call),
        s.retries[0 := Retry(s.retries[0].batch[1..], Head)], s.ledger, s.exhausted)
  {
  }

  lemma ErrorIs(s: State, call: Call)
    requires Enabled(s, RecordError(0, call))
    ensures var id := s.retries[0].batch[0].id;
      Next(s, RecordError(0, call)) == State(s.rep, Charged(s.rows, id, call),
        s.retries[0 := Retry(s.retries[0].batch[1..], Head)], s.ledger, Alerted(s.rows, s.exhausted, id, call))
  {
  }

  /** The row reaches the ledger and the worker hears of it. */
  predicate Through(u: Usage, t: Trial) { t.found.Account? && Sent(t.found.id, u, t.post).Done? }

  function Ledger(ledger: seq<Billed>, row: Drained, t: Trial): seq<Billed> {
    if t.found.Account? then Ingest(ledger, row.id, row.usage, t.found.id, Sent(t.found.id, row.usage, t.post)) else ledger
  }

  /** All the steps of a row together. */
  lemma RetryRowIs(s: State, t: Trial)
    requires AtStage(s, 0) && s.retries[0].stage.Head? && s.retries[0].batch[0].id in s.rows
    ensures var row := s.retries[0].batch[0];
      RetryRow(s, t) == State(s.rep,
        if Through(row.usage, t) then Marked(s.rows, row.id, t.mark) else Charged(s.rows, row.id, t.record),
        s.retries[0 := Retry(s.retries[0].batch[1..], Head)], Ledger(s.ledger, row, t),
        if Through(row.usage, t) then s.exhausted else Alerted(s.rows, s.exhausted, row.id, t.record))
  {
    hide Next, Marked, Charged, Alerted, Ingest;
    ResolveIs(s, t.found);
    var s1 := Next(s, RetryResolve(0, t.found));
    if s1.retries[0].stage.Erring? {
      ErrorIs(s1, t.record);
    } else {
      var call := Sent(t.found.id, s.retries[0].batch[0].usage, t.post);
      PostIs(s1, call);
      var s2 := Next(s1, RetryPost(0, call));
      if s2.retries[0].stage.Erring? {
        ErrorIs(s2, t.record);
      } else {
        MarkIs(s2, t.mark);
      }
    }
  }

  predicate InRows(rows: map<string, Row>, batch: seq<Drained>) {
    forall i :: 0 <= i < |batch| ==> batch[i].id in rows
  }

  /** The whole batch, row by row. */
  function RetryBatch(s: State, ts: seq<Trial>): State
    requires |s.retries| > 0 && s.retries[0].stage.Head? && |ts| == |s.retries[0].batch|
    requires InRows(s.rows, s.retries[0].batch)
    decreases |ts|
  {
    if ts == [] then s else RetryBatch(RetryRow(s, ts[0]), ts[1..])
  }

  /** The first limit due rows in the order they were queued. */
  function Oldest(rows: map<string, Row>, order: seq<string>, limit: nat): seq<string> {
    if order == [] || limit == 0 then []
    else if Due(rows, order[0]) then [order[0]] + Oldest(rows, order[1..], limit - 1)
    else Oldest(rows, order[1..], limit)
  }

  /** A drain returns due rows without repeats, at most limit of them, never one before an
      older due row, and all of them if there are fewer. */
  lemma {:induction false} OldestIs(rows: map<string, Row>, order: seq<string>, limit: nat)
    requires Distinct(order)
    ensures var ids := Oldest(rows, order, limit);
      && |ids| <= limit && Distinct(ids)
      && (forall id :: id in ids ==> id in order && Due(rows, id))
      && (forall i, j :: 0 <= i < j < |order| && Due(rows, order[i]) && order[j] in ids ==> order[i] in ids)
      && (|ids| < limit ==> forall id :: id in order && Due(rows, id) ==> id in ids)
  {
    hide Due;
    if order != [] && limit > 0 {
      OldestIs(rows, order[1..], if Due(rows, order[0]) then limit - 1 else limit);
    }
  }

  /** order holds the ids of the rows as they were queued. */
  predicate Queue(rows: map<string, Row>, order: seq<string>) {
    Distinct(order) && (forall id :: id in order ==> id in rows) && (forall id :: id in rows ==> id in order)
  }

  function Trials(n: nat, trial: nat -> Trial): (ts: seq<Trial>)
    ensures |ts| == n && forall i :: 0 <= i < n ==> ts[i] == trial(i)
  {
    seq(n, i requires 0 <= i < n => trial(i))
  }

  /** A drain of worker 0 and the steps of its batch. */
  function Tick(s: State, order: seq<string>, trial: nat -> Trial): State
    requires Queue(s.rows, order) && |s.retries| == 1 && s.retries[0] == Retry([], Head)
  {
    OldestIs(s.rows, order, DRAIN_LIMIT);
    var ids := Oldest(s.rows, order, DRAIN_LIMIT);
    DrainIs(s, ids);
    RetryBatch(Next(s, Event.Drain(0, ids)), Trials(|ids|, trial))
  }

  lemma DrainIs(s: State, ids: seq<string>)
    requires |s.retries| == 1 && s.retries[0] == Retry([], Head) && |ids| <= DRAIN_LIMIT && Distinct(ids)
    requires forall i :: 0 <= i < |ids| ==> Due(s.rows, ids[i])
    ensures Enabled(s, Event.Drain(0, ids)) && InRows(s.rows, Drawn(s, ids))
    ensures Next(s, Event.Drain(0, ids)) == State(s.rep, s.rows, [Retry(Drawn(s, ids), Head)], s.ledger, s.exhausted)
  {
    assert s.retries[0 := Retry(Drawn(s, ids), Head)] == [Retry(Drawn(s, ids), Head)];
  }

  /** What a trial makes of a row: sent if it got through and the mark landed, one attempt more
      if it did not and the error landed. */
  function Tried(row: Row, u: Usage, t: Trial): Row {
    if t.found.Account? && t.found.id > 0 && u.prompt + u.completion >= 0 && t.post.Done? then
      Row(row.usage, row.attempts, row.sent || !t.mark.NoEffect?)
    else
      Row(row.usage, row.attempts + One(!t.record.NoEffect?), row.sent)
  }

  lemma RowTried(s: State, t: Trial)
    requires AtStage(s, 0) && s.retries[0].stage.Head? && s.retries[0].batch[0].id in s.rows
    ensures var row := s.retries[0].batch[0];
      RetryRow(s, t).rows == s.rows[row.id := Tried(s.rows[row.id], row.usage, t)]
  {
    hide RetryRow, Ingest, Next;
    RetryRowIs(s, t);
    var row := s.retries[0].batch[0];
    assert s.rows == s.rows[row.id := s.rows[row.id]];
  }

  /** Every row of a batch without repeats is tried once, and no other row changes. */
  lemma {:induction false} BatchTried(s: State, ts: seq<Trial>, id: string)
    requires |s.retries| > 0 && s.retries[0].stage.Head? && |ts| == |s.retries[0].batch|
    requires InRows(s.rows, s.retries[0].batch) && NoRepeats(s.retries[0].batch) && id in s.rows
    ensures RetryBatch(s, ts).rows.Keys == s.rows.Keys && id in RetryBatch(s, ts).rows
    ensures forall i :: 0 <= i < |ts| && s.retries[0].batch[i].id == id ==>
      RetryBatch(s, ts).rows[id] == Tried(s.rows[id], s.retries[0].batch[i].usage, ts[i])
    ensures (forall i :: 0 <= i < |ts| ==> s.retries[0].batch[i].id != id) ==> RetryBatch(s, ts).rows[id] == s.rows[id]
    decreases |ts|
  {
    hide RetryRow, Tried;
    if ts != [] {
      var batch := s.retries[0].batch;
      var u := RetryRow(s, ts[0]);
      RowTried(s, ts[0]);
      assert u.retries[0].batch == batch[1..];
      BatchTried(u, ts[1..], id);
      forall i | 0 <= i < |ts| - 1 ensures ts[1..][i] == ts[i + 1] && batch[1..][i] == batch[i + 1] {
      }
    }
  }

  /** One tick tries each of the oldest due rows once, and changes no other row. */
  lemma TickTriesEach(s: State, order: seq<string>, trial: nat -> Trial, id: string)
    requires Queue(s.rows, order) && |s.retries| == 1 && s.retries[0] == Retry([], Head) && id in s.rows
    ensures var ids, rows := Oldest(s.rows, order, 100), Tick(s, order, trial).rows;
      && rows.Keys == s.rows.Keys && id in rows
      && (forall i :: 0 <= i < |ids| && ids[i] == id ==> rows[id] == Tried(s.rows[id], s.rows[id].usage, trial(i)))
      && (id !in ids ==> rows[id] == s.rows[id])
  {
    hide Oldest, RetryBatch, Tried, Next, Due;
    OldestIs(s.rows, order, DRAIN_LIMIT);
    var ids := Oldest(s.rows, order, DRAIN_LIMIT);
    DrainIs(s, ids);
    var batch := Drawn(s, ids);
    assert NoRepeats(batch);
    forall i | 0 <= i < |ids| ensures batch[i] == Drained(ids[i], s.rows[ids[i]].usage) {
    }
    BatchTried(Next(s, Event.Drain(0, ids)), Trials(|ids|, trial), id);
  }

  const BLANK := Reporter(0, true, map[], [], [], map[], NO_ENDS)

  // ---- one event of the reporter ----

  /** The steps worker 0 takes for the event it took. */
  function ReportTask(s: State, t: Trial): State
    requires At(s.rep, 0) && s.rep.tasks[0].Took?
  {
    var s1 := Next(s, Resolve(0, t.found));
    if s1.rep.tasks[0].Idle? then s1
    else if s1.rep.tasks[0].Failing? then Next(s1, Enqueue(0, Unique(s1, t.enqueue)))
    else
      var s2 := Next(s1, Post(0, Sent(s1.rep.tasks[0].account, s.rep.recorded[s.rep.tasks[0].id], t.post)));
      if s2.rep.tasks[0].Idle? then s2 else Next(s2, Enqueue(0, Unique(s2, t.enqueue)))
  }

  /** How the event ends: skipped when its tenant does not parse; posted when an account was
      cached or found, nothing was refused and the post was seen to succeed; otherwise skipped
      without a durable store, queued when the enqueue succeeds, and counted as failed. */
  lemma TaskEndsExactly(s: State, t: Trial)
    requires At(s.rep, 0) && s.rep.tasks[0].Took?
    ensures var id, x := s.rep.tasks[0].id, s.rep.ends;
      var u := s.rep.recorded[id];
      var account := if u.uuid.None? then 0 else if u.uuid.value in s.rep.cache then s.rep.cache[u.uuid.value]
        else if t.found.Account? then t.found.id else 0;
      ReportTask(s, t).rep.ends ==
        if u.uuid.None? then Ends(x.posted, x.skipped + multiset{id}, x.queued, x.failed)
        else if account > 0 && u.prompt + u.completion >= 0 && t.post.Done? then
          Ends(x.posted + multiset{id}, x.skipped, x.queued, x.failed)
        else if !s.rep.durable then Ends(x.posted, x.skipped + multiset{id}, x.queued, x.failed)
        else if id !in s.rows && t.enqueue.Done? then Ends(x.posted, x.skipped, x.queued + multiset{id}, x.failed)
        else Ends(x.posted, x.skipped, x.queued, x.failed + multiset{id})
  {
    hide Next, Ingest;
    ResolveTaskIs(s, t.found);
    var s1 := Next(s, Resolve(0, t.found));
    if s1.rep.tasks[0].Failing? {
      EnqueueTaskIs(s1, t.enqueue);
    } else if s1.rep.tasks[0].Ready? {
      var call := Sent(s1.rep.tasks[0].account, s.rep.recorded[s.rep.tasks[0].id], t.post);
      PostTaskIs(s1, call);
      var s2 := Next(s1, Post(0, call));
      if s2.rep.tasks[0].Failing? {
        EnqueueTaskIs(s2, t.enqueue);
      }
    }
  }

  /** The outbox refuses a second row with the same id. */
  function Unique(s: State, call: Call): Call
    requires At(s.rep, 0)
  {
    if s.rep.tasks[0].id in s.rows then NoEffect else call
  }

  // ---- the objects ----

  class Outbox {
    var rows: map<string, Row>
    var order: seq<string>

    predicate Valid()
      reads this
    {
      Queue(rows, order)
    }

    constructor ()
      ensures Valid() && rows == map[]
    {
      rows, order := map[], [];
    }

    method Enqueue(id: string, usage: Usage, call: Call) returns (ok: bool)
      requires Valid()
      modifies this
      ensures Valid()
      ensures ok <==> id !in old(rows) && call.Done?
      ensures rows == if id in old(rows) || call.NoEffect? then old(rows) else old(rows)[id := Row(usage, 0, false)]
      ensures order == if id in old(rows) || call.NoEffect? then old(order) else old(order) + [id]
    {
      if id in rows {
        return false;
      }
      if !call.NoEffect? {
        rows := rows[id := Row(usage, 0, false)];
        order := order + [id];
      }
      ok := call.Done?;
    }

    method Drain(limit: nat) returns (batch: seq<Drained>)
      requires Valid()
      ensures var ids := Oldest(rows, order, limit);
        |batch| == |ids| && forall i :: 0 <= i < |ids| ==> ids[i] in rows && batch[i] == Drained(ids[i], rows[ids[i]].usage)
    {
      hide Oldest;
      batch := [];
      ghost var ids: seq<string> := [];
      var i := 0;
      OldestSplits(rows, order, limit, 0);
      while i < |order| && |batch| < limit
        invariant 0 <= i <= |order| && |batch| == |ids| <= limit
        invariant ids + Oldest(rows, order[i..], limit - |ids|) == Oldest(rows, order, limit)
        invariant forall j :: 0 <= j < |ids| ==> ids[j] in rows && batch[j] == Drained(ids[j], rows[ids[j]].usage)
      {
        OldestSplits(rows, order, limit - |ids|, i);
        var id := order[i];
        if !rows[id].sent && rows[id].attempts < MAX_ATTEMPTS {
          batch := batch + [Drained(id, rows[id].usage)];
          ids := ids + [id];
        }
        i := i + 1;
      }
      OldestEnds(rows, order[i..], limit - |ids|);
    }

    method MarkSent(id: string, call: Call) returns (ok: bool)
      modifies `rows
      ensures ok <==> call.Done?
      ensures rows == if id !in old(rows) || call.NoEffect? then old(rows)
                      else old(rows)[id := Row(old(rows)[id].usage, old(rows)[id].attempts, true)]
    {
      if !call.NoEffect? && id in rows {
        rows := rows[id := Row(rows[id].usage, rows[id].attempts, true)];
      }
      ok := call.Done?;
    }

    method RecordAttemptError(id: string, call: Call) returns (attempts: Option<nat>)
      modifies `rows
      ensures id in old(rows) && !call.NoEffect? ==>
        rows == old(rows)[id := Row(old(rows)[id].usage, old(rows)[id].attempts + 1, old(rows)[id].sent)]
      ensures id !in old(rows) || call.NoEffect? ==> rows == old(rows)
      ensures attempts == if id in old(rows) && call.Done? then Some(old(rows)[id].attempts + 1) else None
    {
      if id !in rows || call.NoEffect? {
        return None;
      }
      var n := rows[id].attempts + 1;
      rows := rows[id := Row(rows[id].usage, n, rows[id].sent)];
      attempts := if call.Done? then Some(n) else None;
    }
  }

  lemma OldestSplits(rows: map<string, Row>, order: seq<string>, limit: nat, i: nat)
    requires i <= |order|
    ensures i == 0 ==> order[i..] == order
    ensures i < |order| && limit > 0 && Due(rows, order[i]) ==>
      Oldest(rows, order[i..], limit) == [order[i]] + Oldest(rows, order[i + 1..], limit - 1)
    ensures i < |order| && limit > 0 && !Due(rows, order[i]) ==>
      Oldest(rows, order[i..], limit) == Oldest(rows, order[i + 1..], limit)
  {
    if i < |order| {
      assert order[i..][1..] == order[i + 1..];
    }
  }

  lemma OldestEnds(rows: map<string, Row>, rest: seq<string>, limit: nat)
    requires rest == [] || limit == 0
    ensures Oldest(rows, rest, limit) == []
  {
  }

  class Platform {
    var ledger: seq<Billed>

    constructor ()
      ensures ledger == []
    {
      ledger := [];
    }

    method ReportUsageEvent(id: string, usage: Usage, account: int, call: Call) returns (ok: bool)
      modifies this
      ensures ok <==> Sent(account, usage, call).Done?
      ensures ledger == Ingest(old(ledger), id, usage, account, Sent(account, usage, call))
    {
      if account <= 0 {
        return false;
      }
      if usage.prompt + usage.completion < 0 {
        return false;
      }
      if !call.NoEffect? && !InLedger(ledger, IdemKey(id)) {
        ledger := ledger + [Billed(PRODUCT, IdemKey(id), account, usage.prompt + usage.completion)];
      }
      ok := call.Done?;
    }
  }

  class RetryWorker {
    const store: Outbox
    const poster: Platform
    var exhausted: multiset<string>

    constructor (store: Outbox, poster: Platform)
      ensures this.store == store && this.poster == poster && exhausted == multiset{}
    {
      this.store := store;
      this.poster := poster;
      exhausted := multiset{};
    }

    /** The machine's state with this worker alone, holding the given batch. */
    function Alone(batch: seq<Drained>): State
      reads this, store, poster
    {
      State(BLANK, store.rows, [Retry(batch, Head)], poster.ledger, exhausted)
    }

    method ReportError(row: Drained, call: Call)
      requires row.id in store.rows
      modifies this, store`rows
      ensures store.rows == Charged(old(store.rows), row.id, call)
      ensures exhausted == Alerted(old(store.rows), old(exhausted), row.id, call)
    {
      var attempts := store.RecordAttemptError(row.id, call);
      if attempts.Some? && attempts.value >= MAX_ATTEMPTS {
        exhausted := exhausted + multiset{row.id};
      }
    }

    method ProcessRow(row: Drained, t: Trial)
      requires row.id in store.rows
      modifies this, store`rows, poster
      ensures Alone([]) == RetryRow(old(Alone([row])), t)
    {
      hide RetryRow, Charged, Alerted, Ingest;
      RetryRowIs(Alone([row]), t);
      assert [row][1..] == [];
      if !t.found.Account? {
        ReportError(row, t.record);
        return;
      }
      var ok := poster.ReportUsageEvent(row.id, row.usage, t.found.id, t.post);
      if !ok {
        ReportError(row, t.record);
        return;
      }
      ok := store.MarkSent(row.id, t.mark);
    }

    method ProcessBatch(batch: seq<Drained>, ts: seq<Trial>)
      requires |ts| == |batch| && InRows(store.rows, batch)
      modifies this, store`rows, poster
      ensures Alone([]) == RetryBatch(old(Alone(batch)), ts)
      ensures store.rows.Keys == old(store.rows).Keys
    {
      hide RetryRow;
      var i := 0;
      while i < |batch|
        invariant 0 <= i <= |batch| && InRows(store.rows, batch) && store.rows.Keys == old(store.rows).Keys
        invariant RetryBatch(Alone(batch[i..]), ts[i..]) == RetryBatch(old(Alone(batch)), ts)
      {
        ghost var s := Alone(batch[i..]);
        assert batch[i..][0] == batch[i] && ts[i..][0] == ts[i] && ts[i..][1..] == ts[i + 1..];
        OneRow(s, ts[i], batch[i..]);
        ProcessRow(batch[i], ts[i]);
        assert batch[i..][1..] == batch[i + 1..];
        i := i + 1;
      }
    }

    /** One tick: drain, then row by row; trial says what the surroundings do with the i-th
        row. A drain that fails ends the tick. */
    method DrainOnce(drained: bool, trial: nat -> Trial)
      requires store.Valid()
      modifies this, store`rows, poster
      ensures store.Valid()
      ensures Alone([]) == if drained then Tick(old(Alone([])), old(store.order), trial) else old(Alone([]))
    {
      hide Oldest, RetryBatch, RetryRow, Next, Due;
      if !drained {
        return;
      }
      var batch := store.Drain(DRAIN_LIMIT);
      ghost var s := Alone([]);
      ghost var ids := Oldest(s.rows, store.order, DRAIN_LIMIT);
      OldestIs(s.rows, store.order, DRAIN_LIMIT);
      DrainIs(s, ids);
      assert batch == Drawn(s, ids);
      ProcessBatch(batch, Trials(|batch|, trial));
      assert forall id :: id in store.rows <==> id in s.rows.Keys;
    }
  }

  /** A row's steps do not depend on the rows behind it. */
  lemma OneRow(s: State, t: Trial, batch: seq<Drained>)
    requires batch != [] && s == State(s.rep, s.rows, [Retry(batch, Head)], s.ledger, s.exhausted) && batch[0].id in s.rows
    ensures var u := RetryRow(State(s.rep, s.rows, [Retry([batch[0]], Head)], s.ledger, s.exhausted), t);
      RetryRow(s, t) == State(u.rep, u.rows, [Retry(batch[1..], Head)], u.ledger, u.exhausted)
  {
    hide RetryRow, Marked, Charged, Alerted, Ingest;
    RetryRowIs(s, t);
    RetryRowIs(State(s.rep, s.rows, [Retry([batch[0]], Head)], s.ledger, s.exhausted), t);
  }

  // Each step of a reporter worker, written out.

  lemma ResolveTaskIs(s: State, found: Lookup)
    requires At(s.rep, 0) && s.rep.tasks[0].Took?
    ensures Enabled(s, Resolve(0, found))
    ensures Next(s, Resolve(0, found)) == State(Resolved(s.rep, 0, found), s.rows, s.retries, s.ledger, s.exhausted)
  {
    hide Resolved;
  }

  lemma PostTaskIs(s: State, call: Call)
    requires Enabled(s, Post(0, call))
    ensures var t := s.rep.tasks[0];
      Next(s, Post(0, call)) == State(PostTried(s.rep, 0, call), s.rows, s.retries,
        Ingest(s.ledger, t.id, s.rep.recorded[t.id], t.account, call), s.exhausted)
  {
    hide PostTried, Ingest;
  }

  lemma EnqueueTaskIs(s: State, call: Call)
    requires At(s.rep, 0) && s.rep.tasks[0].Failing?
    ensures Enabled(s, Enqueue(0, Unique(s, call)))
    ensures var id := s.rep.tasks[0].id; var done := Unique(s, call);
      Next(s, Enqueue(0, done)) == State(EnqueueTried(s.rep, 0, done),
        if !s.rep.durable || done.NoEffect? then s.rows else s.rows[id := Row(s.rep.recorded[id], 0, false)],
        s.retries, s.ledger, s.exhausted)
  {
    hide EnqueueTried;
  }

  class UsageReporter {
    const buffer: nat
    const durable: bool
    const store: Outbox
    const poster: Platform
    var channel: seq<string>
    var cache: map<string, int>
    var ends: Ends
    ghost var recorded: map<string, Usage>

    constructor (buffer: nat, durable: bool, store: Outbox, poster: Platform)
      ensures this.buffer == buffer && this.durable == durable && this.store == store && this.poster == poster
      ensures channel == [] && cache == map[] && ends == NO_ENDS && recorded == map[]
    {
      this.buffer, this.durable, this.store, this.poster := buffer, durable, store, poster;
      channel, cache, ends, recorded := [], map[], NO_ENDS, map[];
    }

    /** The machine's state with one worker, holding task t. */
    ghost function Alone(t: Task): State
      reads this, store, poster
    {
      State(Reporter(buffer, durable, recorded, channel, [t], cache, ends), store.rows, [], poster.ledger, multiset{})
    }

    method Record(id: string, usage: Usage)
      requires id !in recorded
      modifies this
      ensures Alone(Idle) == Next(old(Alone(Idle)), Event.Record(id, usage))
    {
      if usage.prompt <= 0 && usage.completion <= 0 {
        return;
      }
      if usage.tenant == "" || usage.tenant == "unknown" {
        return;
      }
      if |channel| < buffer {
        channel := channel + [id];
        recorded := recorded[id := usage];
      }
    }

    method EnqueueForRetry(id: string, usage: Usage, call: Call)
      requires id in recorded && recorded[id] == usage && store.Valid()
      modifies this, store
      ensures store.Valid()
      ensures var s := old(Alone(Failing(id))); Alone(Idle) == Next(s, Enqueue(0, Unique(s, call)))
    {
      hide Next, Enabled;
      EnqueueTaskIs(Alone(Failing(id)), call);
      if !durable {
        ends := Skipped(ends, id);
        return;
      }
      var ok := store.Enqueue(id, usage, call);
      if !ok {
        ends := Lost(ends, id);
        return;
      }
      ends := Queued(ends, id);
    }

    method Process(id: string, usage: Usage, t: Trial)
      requires id in recorded && recorded[id] == usage && store.Valid()
      modifies this, store, poster
      ensures store.Valid()
      ensures Alone(Idle) == ReportTask(old(Alone(Took(id))), t)
    {
      hide Next, Enabled, Ingest, Unique;
      ghost var s := Alone(Took(id));
      ResolveTaskIs(s, t.found);
      ghost var s1 := Next(s, Resolve(0, t.found));
      if usage.uuid.None? {
        ends := Skipped(ends, id);
        return;
      }
      var account: int;
      if usage.uuid.value in cache {
        account := cache[usage.uuid.value];
      } else if t.found.Account? {
        account := t.found.id;
        cache := cache[usage.uuid.value := account];
      } else {
        assert s1 == Alone(Failing(id));
        EnqueueForRetry(id, usage, t.enqueue);
        return;
      }
      assert s1 == Alone(Ready(id, account));
      PostEnabled(s1, t.post);
      PostTaskIs(s1, Sent(account, usage, t.post));
      ghost var s2 := Next(s1, Post(0, Sent(account, usage, t.post)));
      var ok := poster.ReportUsageEvent(id, usage, account, t.post);
      if !ok {
        assert s2 == Alone(Failing(id));
        EnqueueForRetry(id, usage, t.enqueue);
        return;
      }
      ends := Posted(ends, id);
    }
  }

  lemma PostEnabled(s: State, call: Call)
    requires At(s.rep, 0) && s.rep.tasks[0].Ready?
    ensures Enabled(s, Post(0, Sent(s.rep.tasks[0].account, s.rep.recorded[s.rep.tasks[0].id], call)))
  {
  }
}
