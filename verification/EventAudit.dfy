/** From the event outbox to the audit log: internal/adapter/nats/outbox_worker.go, its
    store in internal/adapter/repo/event_outbox, the JetStream stream between, and
    internal/adapter/nats/audit_subscriber.go with its append in repo/account. */
module EventAudit {

  import opened Wrappers

  const MAX_ATTEMPTS := 10
  const DRAIN_LIMIT := 100
  const MAX_DELIVER := 5

  /** An envelope; `tenant` is what uuid.Parse makes of its tenant id. */
  datatype Envelope = Envelope(eventId: string, tenant: Option<string>, source: string, action: string,
                               target: (string, string), payload: string)

  /** A message; malformed JSON has no envelope. */
  datatype Msg = Msg(subject: string, envelope: Option<Envelope>)

  datatype Row = Row(msg: Msg, attempts: nat, published: bool)

  datatype Stage = Head | Marking | Erring

  /** A drain worker: the rest of its batch and how far its first row is. */
  datatype Worker = Worker(batch: seq<string>, stage: Stage)

  datatype Status = Waiting | Acked | Terminated

  /** A message in the stream, the row it was published for, and its delivery state. */
  datatype Stored = Stored(row: string, msg: Msg, deliveries: nat, status: Status)

  datatype AuditRow = AuditRow(eventId: string, tenant: string, actor: string, action: string,
                               target: (string, string), payload: string)

  /** handling: delivered messages in dispatch; acking: those whose append returned. */
  datatype State = State(rows: map<string, Row>, workers: seq<Worker>, stream: seq<Stored>,
                         handling: multiset<nat>, acking: multiset<nat>, audit: seq<AuditRow>)

  function Initial(n: nat): State { State(map[], seq(n, i => Worker([], Head)), [], multiset{}, multiset{}, []) }

  /** A remote call takes effect or not, and is seen to succeed or not; a success took effect. */
  datatype Call = Done | LostReply | NoEffect

  datatype Event =
    | Enqueue(id: string, msg: Msg)
    | Drain(w: nat, ids: seq<string>)
    | Publish(w: nat, call: Call)
    | MarkPublished(w: nat, call: Call)
    | RecordError(w: nat, call: Call)
    | Restart(w: nat)
    | Deliver(m: nat)
    | Dispatch(m: nat, call: Call)
    | Ack(m: nat, call: Call)

  predicate Drainable(s: State, id: string) {
    id in s.rows && !s.rows[id].published && s.rows[id].attempts < MAX_ATTEMPTS
  }

  predicate AtStage(s: State, w: nat, stage: Stage) {
    w < |s.workers| && s.workers[w].batch != [] && s.workers[w].stage == stage && s.workers[w].batch[0] in s.rows
  }

  predicate StartsWith(s: string, prefix: string) { |prefix| <= |s| && s[..|prefix|] == prefix }

  /** The consumer's subject filter. */
  predicate Captured(subject: string) {
    StartsWith(subject, "PSI_EVENTS.bill.") || StartsWith(subject, "PSI_EVENTS.alert.")
  }

  /** A message may be redelivered while an earlier dispatch of it still runs. */
  predicate Enabled(s: State, e: Event) {
    match e
    case Enqueue(id, _) => id !in s.rows
    case Drain(w, ids) =>
      && w < |s.workers| && s.workers[w].batch == [] && |ids| <= DRAIN_LIMIT && Distinct(ids)
      && forall i :: 0 <= i < |ids| ==> Drainable(s, ids[i])
    case Publish(w, _) => AtStage(s, w, Head)
    case MarkPublished(w, _) => AtStage(s, w, Marking)
    case RecordError(w, _) => AtStage(s, w, Erring)
    case Restart(w) => w < |s.workers|
    case Deliver(m) =>
      && m < |s.stream| && Captured(s.stream[m].msg.subject)
      && s.stream[m].status.Waiting? && s.stream[m].deliveries < MAX_DELIVER
    case Dispatch(m, _) => m < |s.stream| && s.handling[m] > 0
    case Ack(m, _) => m < |s.stream| && s.acking[m] > 0
  }

  function NextRows(s: State, e: Event): map<string, Row>
    requires Enabled(s, e)
  {
    match e
    case Enqueue(id, msg) => s.rows[id := Row(msg, 0, false)]
    case MarkPublished(w, call) =>
      var id := s.workers[w].batch[0];
      if call.NoEffect? then s.rows else s.rows[id := Row(s.rows[id].msg, s.rows[id].attempts, true)]
    case RecordError(w, call) =>
      var id := s.workers[w].batch[0];
      if call.NoEffect? then s.rows else s.rows[id := Row(s.rows[id].msg, s.rows[id].attempts + 1, s.rows[id].published)]
    case _ => s.rows
  }

  function NextWorkers(s: State, e: Event): seq<Worker>
    requires Enabled(s, e)
  {
    match e
    case Drain(w, ids) => s.workers[w := Worker(ids, Head)]
    case Publish(w, call) => s.workers[w := Worker(s.workers[w].batch, if call.Done? then Marking else Erring)]
    case MarkPublished(w, _) => s.workers[w := Worker(s.workers[w].batch[1..], Head)]
    case RecordError(w, _) => s.workers[w := Worker(s.workers[w].batch[1..], Head)]
    case Restart(w) => s.workers[w := Worker([], Head)]
    case _ => s.workers
  }

  /** Malformed envelopes and tenants are terminated. */
  predicate Unreadable(msg: Msg) { msg.envelope.None? || msg.envelope.value.tenant.None? }

  function NextStream(s: State, e: Event): seq<Stored>
    requires Enabled(s, e)
  {
    match e
    case Publish(w, call) =>
      var id := s.workers[w].batch[0];
      if call.NoEffect? then s.stream else s.stream + [Stored(id, s.rows[id].msg, 0, Waiting)]
    case Deliver(m) => s.stream[m := Stored(s.stream[m].row, s.stream[m].msg, s.stream[m].deliveries + 1, Waiting)]
    case Dispatch(m, call) =>
      if Unreadable(s.stream[m].msg) && !call.NoEffect? then s.stream[m := s.stream[m].(status := Terminated)] else s.stream
    case Ack(m, call) => if call.NoEffect? then s.stream else s.stream[m := s.stream[m].(status := Acked)]
    case _ => s.stream
  }

  const NIL_UUID := "00000000-0000-0000-0000-000000000000"

  /** Execute refuses a nil tenant or an empty action before it touches the database. */
  predicate Refused(env: Envelope) { env.tenant == Some(NIL_UUID) || env.action == "" }

  function RowFor(env: Envelope): AuditRow
    requires env.tenant.Some?
  {
    AuditRow(env.eventId, env.tenant.value, env.source, env.action, env.target, env.payload)
  }

  predicate HasEvent(audit: seq<AuditRow>, eventId: string) {
    exists i :: 0 <= i < |audit| && audit[i].eventId == eventId
  }

  /** ON CONFLICT (event_id) DO NOTHING; an empty id is stored as NULL and never conflicts. */
  function Append(audit: seq<AuditRow>, r: AuditRow): seq<AuditRow> {
    if r.eventId != "" && HasEvent(audit, r.eventId) then audit else audit + [r]
  }

  predicate Appends(msg: Msg) { !Unreadable(msg) && !Refused(msg.envelope.value) }

  function NextAudit(s: State, e: Event): seq<AuditRow>
    requires Enabled(s, e)
  {
    match e
    case Dispatch(m, call) =>
      if Appends(s.stream[m].msg) && !call.NoEffect? then Append(s.audit, RowFor(s.stream[m].msg.envelope.value)) else s.audit
    case _ => s.audit
  }

  function NextHandling(s: State, e: Event): multiset<nat>
    requires Enabled(s, e)
  {
    match e
    case Deliver(m) => s.handling + multiset{m}
    case Dispatch(m, _) => s.handling - multiset{m}
    case _ => s.handling
  }

  /** Only a dispatch whose append returned without error goes on to acknowledge. */
  function NextAcking(s: State, e: Event): multiset<nat>
    requires Enabled(s, e)
  {
    match e
    case Dispatch(m, call) => if Appends(s.stream[m].msg) && call.Done? then s.acking + multiset{m} else s.acking
    case Ack(m, _) => s.acking - multiset{m}
    case _ => s.acking
  }

  function Next(s: State, e: Event): State
    requires Enabled(s, e)
  {
    State(NextRows(s, e), NextWorkers(s, e), NextStream(s, e), NextHandling(s, e), NextAcking(s, e), NextAudit(s, e))
  }

  predicate IsRun(states: seq<State>, events: seq<Event>) {
    && |states| == |events| + 1 && states[0] == Initial(|states[0].workers|)
    && forall n :: 0 <= n < |events| ==> Enabled(states[n], events[n]) && states[n + 1] == Next(states[n], events[n])
  }

  // ---- a row is marked only after its message is in the stream ----

  predicate InStream(stream: seq<Stored>, id: string, msg: Msg) {
    exists i :: 0 <= i < |stream| && stream[i].row == id && stream[i].msg == msg
  }

  ghost predicate Marked(s: State) {
    && (forall id :: id in s.rows && s.rows[id].published ==> InStream(s.stream, id, s.rows[id].msg))
    && (forall w :: 0 <= w < |s.workers| && s.workers[w].stage.Marking? && s.workers[w].batch != [] ==>
          s.workers[w].batch[0] in s.rows && InStream(s.stream, s.workers[w].batch[0], s.rows[s.workers[w].batch[0]].msg))
    && (forall i :: 0 <= i < |s.stream| ==>
          s.stream[i].row in s.rows && s.stream[i].msg == s.rows[s.stream[i].row].msg)
  }

  lemma StreamGrows(s: State, e: Event)
    requires Enabled(s, e)
    ensures |s.stream| <= |NextStream(s, e)| <= |s.stream| + 1
    ensures |s.stream| < |NextStream(s, e)| ==> e.Publish? && AtStage(s, e.w, Head)
    ensures forall i :: 0 <= i < |s.stream| ==>
      NextStream(s, e)[i].row == s.stream[i].row && NextStream(s, e)[i].msg == s.stream[i].msg
    ensures forall i :: |s.stream| <= i < |NextStream(s, e)| ==>
      e.Publish? && !e.call.NoEffect? && var id := s.workers[e.w].batch[0];
        NextStream(s, e)[i] == Stored(id, s.rows[id].msg, 0, Waiting)
  {
  }

  lemma StillInStream(s: State, e: Event, id: string, msg: Msg)
    requires Enabled(s, e) && InStream(s.stream, id, msg)
    ensures InStream(NextStream(s, e), id, msg)
  {
    hide Enabled, NextStream;
    StreamGrows(s, e);
    var i :| 0 <= i < |s.stream| && s.stream[i].row == id && s.stream[i].msg == msg;
    assert NextStream(s, e)[i].row == id;
  }

  lemma PublishedIn(s: State, e: Event)
    requires Enabled(s, e) && e.Publish? && !e.call.NoEffect?
    ensures var id := s.workers[e.w].batch[0]; id in s.rows && InStream(NextStream(s, e), id, s.rows[id].msg)
  {
    assert NextStream(s, e)[|s.stream|].row == s.workers[e.w].batch[0];
  }

  lemma RowsKept(s: State, e: Event, id: string)
    requires Enabled(s, e) && id in s.rows
    ensures id in NextRows(s, e) && NextRows(s, e)[id].msg == s.rows[id].msg
    ensures NextRows(s, e)[id].published ==> s.rows[id].published || (e.MarkPublished? && AtStage(s, e.w, Marking) && s.workers[e.w].batch[0] == id)
    ensures s.rows[id].published ==> NextRows(s, e)[id].published
  {
  }

  lemma NewRow(s: State, e: Event, id: string)
    requires Enabled(s, e) && id in NextRows(s, e) && id !in s.rows
    ensures !NextRows(s, e)[id].published
  {
  }

  lemma StageStep(s: State, e: Event, w: nat)
    requires Enabled(s, e) && w < |NextWorkers(s, e)|
    requires NextWorkers(s, e)[w].stage.Marking? && NextWorkers(s, e)[w].batch != []
    ensures w < |s.workers| && s.workers[w].batch == NextWorkers(s, e)[w].batch
    ensures s.workers[w].stage.Marking? || (e.Publish? && e.call.Done? && e.w == w)
  {
  }

  lemma MarkedStep(s: State, e: Event)
    requires Enabled(s, e) && Marked(s)
    ensures Marked(Next(s, e))
  {
    hide Enabled, NextRows, NextWorkers, NextStream, NextAudit, NextHandling, NextAcking, InStream;
    var t := Next(s, e);
    StreamGrows(s, e);
    if e.Publish? && !e.call.NoEffect? {
      PublishedIn(s, e);
    }
    forall id | id in t.rows && t.rows[id].published ensures InStream(t.stream, id, t.rows[id].msg) {
      if id in s.rows {
        RowsKept(s, e, id);
        StillInStream(s, e, id, s.rows[id].msg);
      } else {
        NewRow(s, e, id);
      }
    }
    forall w | 0 <= w < |t.workers| && t.workers[w].stage.Marking? && t.workers[w].batch != []
      ensures t.workers[w].batch[0] in t.rows && InStream(t.stream, t.workers[w].batch[0], t.rows[t.workers[w].batch[0]].msg)
    {
      StageStep(s, e, w);
      var id := s.workers[w].batch[0];
      RowsKept(s, e, id);
      if s.workers[w].stage.Marking? {
        StillInStream(s, e, id, s.rows[id].msg);
      }
    }
    forall i | 0 <= i < |t.stream| ensures t.stream[i].row in t.rows && t.stream[i].msg == t.rows[t.stream[i].row].msg {
      if i < |s.stream| {
        RowsKept(s, e, s.stream[i].row);
      } else {
        RowsKept(s, e, s.workers[e.w].batch[0]);
      }
    }
  }

  lemma {:induction false} AlwaysMarked(states: seq<State>, events: seq<Event>, n: nat)
    requires IsRun(states, events) && n <= |events|
    ensures Marked(states[n])
  {
    hide Enabled, NextRows, NextWorkers, NextStream, NextAudit, NextHandling, NextAcking, Marked, Initial;
    if n == 0 {
      MarkedAtStart(|states[0].workers|);
    } else {
      AlwaysMarked(states, events, n - 1);
      MarkedStep(states[n - 1], events[n - 1]);
    }
  }

  lemma MarkedAtStart(n: nat)
    ensures Marked(Initial(n))
  {
  }

  /** A row marked published has its own message in the stream, whatever replies were lost. */
  lemma PublishedIsInTheStream(states: seq<State>, events: seq<Event>, n: nat, id: string)
    requires IsRun(states, events) && n <= |events|
    requires id in states[n].rows && states[n].rows[id].published
    ensures InStream(states[n].stream, id, states[n].rows[id].msg)
  {
    hide IsRun, InStream;
    RunLength(states, events);
    AlwaysMarked(states, events, n);
  }

  lemma RunLength(states: seq<State>, events: seq<Event>)
    requires IsRun(states, events)
    ensures |states| == |events| + 1
  {
  }

  // ---- the audit log ----

  /** The row an envelope needs: its event's row, or its own when it has no event id. */
  predicate Recorded(audit: seq<AuditRow>, env: Envelope)
    requires env.tenant.Some?
  {
    if env.eventId != "" then HasEvent(audit, env.eventId) else RowFor(env) in audit
  }

  predicate Written(audit: seq<AuditRow>, msg: Msg) { Appends(msg) && Recorded(audit, msg.envelope.value) }

  predicate OnePerEvent(audit: seq<AuditRow>) {
    forall i, j :: 0 <= i < j < |audit| && audit[i].eventId != "" ==> audit[i].eventId != audit[j].eventId
  }

  /** Some message of the stream asks for this row. */
  predicate Asked(stream: seq<Stored>, r: AuditRow) {
    exists m :: 0 <= m < |stream| && Appends(stream[m].msg) && RowFor(stream[m].msg.envelope.value) == r
  }

  ghost predicate Audited(s: State) {
    && OnePerEvent(s.audit)
    && (forall i :: 0 <= i < |s.audit| ==> Asked(s.stream, s.audit[i]))
    && (forall m :: m in s.acking ==> m < |s.stream| && Written(s.audit, s.stream[m].msg))
    && (forall m :: 0 <= m < |s.stream| && s.stream[m].status.Acked? ==> Written(s.audit, s.stream[m].msg))
  }

  lemma AppendKeeps(audit: seq<AuditRow>, r: AuditRow, env: Envelope)
    requires env.tenant.Some?
    ensures Recorded(audit, env) ==> Recorded(Append(audit, r), env)
    ensures RowFor(env) == r ==> Recorded(Append(audit, r), env)
    ensures OnePerEvent(audit) ==> OnePerEvent(Append(audit, r))
  {
    var more := Append(audit, r);
    assert more != audit ==> more[|audit|] == r;
    if env.eventId != "" && HasEvent(audit, env.eventId) {
      var i :| 0 <= i < |audit| && audit[i].eventId == env.eventId;
      assert more[i] == audit[i];
    }
  }

  lemma WrittenStays(s: State, e: Event, msg: Msg)
    requires Enabled(s, e) && Written(s.audit, msg)
    ensures Written(NextAudit(s, e), msg)
  {
    hide Append, Recorded;
    if e.Dispatch? && Appends(s.stream[e.m].msg) {
      AppendKeeps(s.audit, RowFor(s.stream[e.m].msg.envelope.value), msg.envelope.value);
    }
  }

  lemma DispatchWrites(s: State, e: Event)
    requires Enabled(s, e) && e.Dispatch? && e.call.Done? && Appends(s.stream[e.m].msg)
    ensures Written(NextAudit(s, e), s.stream[e.m].msg)
  {
    hide Append, Recorded;
    AppendKeeps(s.audit, RowFor(s.stream[e.m].msg.envelope.value), s.stream[e.m].msg.envelope.value);
  }

  lemma AuditStays(s: State, e: Event)
    requires Enabled(s, e) && OnePerEvent(s.audit)
    ensures OnePerEvent(NextAudit(s, e))
  {
    hide Append, OnePerEvent;
    if e.Dispatch? && Appends(s.stream[e.m].msg) {
      AppendKeeps(s.audit, RowFor(s.stream[e.m].msg.envelope.value), s.stream[e.m].msg.envelope.value);
    }
  }

  lemma AskedStays(s: State, e: Event, i: nat)
    requires Enabled(s, e) && i < |NextAudit(s, e)|
    requires forall k :: 0 <= k < |s.audit| ==> Asked(s.stream, s.audit[k])
    ensures Asked(NextStream(s, e), NextAudit(s, e)[i])
  {
    hide NextStream;
    StreamGrows(s, e);
    var m: int;
    if i < |s.audit| {
      assert NextAudit(s, e)[i] == s.audit[i];
      m :| 0 <= m < |s.stream| && Appends(s.stream[m].msg) && RowFor(s.stream[m].msg.envelope.value) == s.audit[i];
    } else {
      m := e.m;
    }
    assert Appends(NextStream(s, e)[m].msg);
  }

  lemma AckingStep(s: State, e: Event, m: nat)
    requires Enabled(s, e) && m in NextAcking(s, e)
    ensures m in s.acking || (e.Dispatch? && e.m == m && e.call.Done? && m < |s.stream| && Appends(s.stream[m].msg))
  {
  }

  lemma AckedStep(s: State, e: Event, m: nat)
    requires Enabled(s, e) && m < |NextStream(s, e)| && NextStream(s, e)[m].status.Acked?
    ensures m < |s.stream| && (s.stream[m].status.Acked? || m in s.acking)
  {
  }

  lemma AuditedStep(s: State, e: Event)
    requires Enabled(s, e) && Audited(s)
    ensures Audited(Next(s, e))
  {
    hide Enabled, NextRows, NextWorkers, NextStream, NextAudit, NextHandling, NextAcking, Written, OnePerEvent, Asked;
    var t := Next(s, e);
    StreamGrows(s, e);
    AuditStays(s, e);
    forall i | 0 <= i < |t.audit| ensures Asked(t.stream, t.audit[i]) {
      AskedStays(s, e, i);
    }
    forall m | m in t.acking ensures m < |t.stream| && Written(t.audit, t.stream[m].msg) {
      AckingStep(s, e, m);
      if m in s.acking {
        WrittenStays(s, e, s.stream[m].msg);
      } else {
        DispatchWrites(s, e);
      }
    }
    forall m | 0 <= m < |t.stream| && t.stream[m].status.Acked? ensures Written(t.audit, t.stream[m].msg) {
      AckedStep(s, e, m);
      WrittenStays(s, e, s.stream[m].msg);
    }
  }

  lemma AuditedAtStart(n: nat)
    ensures Audited(Initial(n))
  {
  }

  lemma {:induction false} AlwaysAudited(states: seq<State>, events: seq<Event>, n: nat)
    requires IsRun(states, events) && n <= |events|
    ensures Audited(states[n])
  {
    hide Enabled, NextRows, NextWorkers, NextStream, NextAudit, NextHandling, NextAcking, Audited, Initial;
    if n == 0 {
      AuditedAtStart(|states[0].workers|);
    } else {
      AlwaysAudited(states, events, n - 1);
      AuditedStep(states[n - 1], events[n - 1]);
    }
  }

  /** Across any redelivery, duplicate publish, lost acknowledgement and overlap, the audit
      log has at most one row per event id, each asked for by a message of the stream, and
      every acknowledged message has its row. */
  lemma AuditIsOncePerEvent(states: seq<State>, events: seq<Event>, n: nat)
    requires IsRun(states, events) && n <= |events|
    ensures OnePerEvent(states[n].audit)
    ensures forall i :: 0 <= i < |states[n].audit| ==> Asked(states[n].stream, states[n].audit[i])
    ensures forall m :: 0 <= m < |states[n].stream| && states[n].stream[m].status.Acked? ==>
      Written(states[n].audit, states[n].stream[m].msg)
  {
    hide IsRun, OnePerEvent, Asked, Written;
    RunLength(states, events);
    AlwaysAudited(states, events, n);
  }

  predicate OneEnvelopePerEvent(rows: map<string, Row>) {
    forall a, b :: a in rows && b in rows && SameEvent(rows[a].msg, rows[b].msg) ==>
      rows[a].msg.envelope == rows[b].msg.envelope
  }

  predicate SameEvent(a: Msg, b: Msg) {
    Appends(a) && Appends(b) && a.envelope.value.eventId == b.envelope.value.eventId
  }

  /** Every column of the row is the envelope's field that belongs there. */
  predicate SameFields(r: AuditRow, env: Envelope) {
    && r.eventId == env.eventId && Some(r.tenant) == env.tenant && r.actor == env.source && r.action == env.action
    && r.target == env.target && r.payload == env.payload
  }

  predicate InLog(audit: seq<AuditRow>, env: Envelope) {
    exists i :: 0 <= i < |audit| && SameFields(audit[i], env)
  }

  lemma RowForFields(env: Envelope)
    requires env.tenant.Some?
    ensures SameFields(RowFor(env), env)
  {
  }

  /** When no two outbox rows share an event id with different envelopes, an acknowledged message
      has a row of its own, field by field. */
  lemma AckedRowIsItsOwn(states: seq<State>, events: seq<Event>, n: nat, m: nat)
    requires IsRun(states, events) && n <= |events| && m < |states[n].stream| && states[n].stream[m].status.Acked?
    requires OneEnvelopePerEvent(states[n].rows)
    ensures states[n].stream[m].msg.envelope.Some? && InLog(states[n].audit, states[n].stream[m].msg.envelope.value)
  {
    hide IsRun, SameFields, RowFor;
    RunLength(states, events);
    AlwaysAudited(states, events, n);
    AlwaysMarked(states, events, n);
    var s := states[n];
    var env := s.stream[m].msg.envelope.value;
    RowForFields(env);
    if env.eventId != "" {
      var i :| 0 <= i < |s.audit| && s.audit[i].eventId == env.eventId;
      OwnRow(s, m, i);
    }
  }

  /** A row with the id of message m is the row of m. */
  lemma OwnRow(s: State, m: nat, i: nat)
    requires Audited(s) && Marked(s) && OneEnvelopePerEvent(s.rows) && m < |s.stream| && i < |s.audit|
    requires Appends(s.stream[m].msg) && s.audit[i].eventId == s.stream[m].msg.envelope.value.eventId
    ensures s.audit[i] == RowFor(s.stream[m].msg.envelope.value)
  {
    assert Asked(s.stream, s.audit[i]);
    var k :| 0 <= k < |s.stream| && Appends(s.stream[k].msg) && RowFor(s.stream[k].msg.envelope.value) == s.audit[i];
    assert s.stream[k].row in s.rows && s.stream[m].row in s.rows;
    assert SameEvent(s.rows[s.stream[k].row].msg, s.rows[s.stream[m].row].msg);
  }

  /** In every reachable state each row of the log is that of a readable message of the stream,
      field by field, and the message itself is that of its outbox row. */
  lemma LogIsTheMessages(states: seq<State>, events: seq<Event>, n: nat, i: nat) returns (m: nat)
    requires IsRun(states, events) && n <= |events| && i < |states[n].audit|
    ensures m < |states[n].stream| && states[n].stream[m].msg.envelope.Some?
    ensures SameFields(states[n].audit[i], states[n].stream[m].msg.envelope.value)
    ensures states[n].stream[m].row in states[n].rows
    ensures states[n].stream[m].msg == states[n].rows[states[n].stream[m].row].msg
  {
    hide IsRun, SameFields, RowFor;
    RunLength(states, events);
    AlwaysAudited(states, events, n);
    AlwaysMarked(states, events, n);
    var s := states[n];
    assert Asked(s.stream, s.audit[i]);
    m :| 0 <= m < |s.stream| && Appends(s.stream[m].msg) && RowFor(s.stream[m].msg.envelope.value) == s.audit[i];
    RowForFields(s.stream[m].msg.envelope.value);
  }

  /** A dispatch whose append returns puts the message's own row into the log, unless one with
      its event id is there, and goes on to acknowledge, exactly when the envelope and its tenant
      can be read, the tenant is not nil and there is an action; otherwise the log stays. An
      unreadable message is terminated. */
  lemma DispatchExactly(s: State, m: nat)
    requires Enabled(s, Dispatch(m, Done))
    ensures var msg, t := s.stream[m].msg, Next(s, Dispatch(m, Done));
      var readable := msg.envelope.Some? && msg.envelope.value.tenant.Some?;
      var good := readable && msg.envelope.value.tenant.value != "00000000-0000-0000-0000-000000000000"
        && msg.envelope.value.action != "";
      && (t.stream[m].status.Terminated? <==> s.stream[m].status.Terminated? || !readable)
      && t.acking[m] == s.acking[m] + One(good)
      && (!good ==> t.audit == s.audit)
      && (good && (msg.envelope.value.eventId == "" || !HasEvent(s.audit, msg.envelope.value.eventId)) ==>
            |t.audit| == |s.audit| + 1 && t.audit[..|s.audit|] == s.audit
            && SameFields(t.audit[|s.audit|], msg.envelope.value))
      && (good && msg.envelope.value.eventId != "" && HasEvent(s.audit, msg.envelope.value.eventId) ==> t.audit == s.audit)
  {
    hide NextRows, NextWorkers, NextHandling;
  }

  /** The consumer gets bill and alert events and no others. */
  lemma Filter()
    ensures Captured("PSI_EVENTS.bill.approved") && Captured("PSI_EVENTS.alert.low_stock")
    ensures !Captured("PSI_EVENTS.stock.changed") && !Captured("PSI_EVENTS.bill") && !Captured("OTHER.bill.approved")
  {
    assert "PSI_EVENTS.stock.changed"[11] == 's' && "OTHER.bill.approved"[0] == 'O';
    assert "PSI_EVENTS.bill."[11] == 'b' && "PSI_EVENTS.alert."[11] == 'a' && "PSI_EVENTS.bill."[0] == 'P' && "PSI_EVENTS.alert."[0] == 'P';
  }

  // ---- what the outbox holds and counts ----

  /** Over every run: the message of a row is the one it was queued with. */
  lemma {:induction false} RowIsAsQueued(states: seq<State>, events: seq<Event>, n: nat, id: string) returns (m: nat)
    requires IsRun(states, events) && n <= |events| && id in states[n].rows
    ensures m < n && events[m] == Enqueue(id, states[n].rows[id].msg)
  {
    hide Enabled, NextRows, NextWorkers, NextStream, NextAudit, NextHandling, NextAcking;
    if id in states[n - 1].rows {
      m := RowIsAsQueued(states, events, n - 1, id);
      RowsKept(states[n - 1], events[n - 1], id);
    } else {
      QueuedNow(states[n - 1], events[n - 1], id);
      m := n - 1;
    }
  }

  lemma QueuedNow(s: State, e: Event, id: string)
    requires Enabled(s, e) && id in NextRows(s, e) && id !in s.rows
    ensures e == Enqueue(id, NextRows(s, e)[id].msg)
  {
  }

  /** The mark of row id lands. */
  predicate MarkLands(s: State, e: Event, id: string)
    requires Enabled(s, e)
  {
    e.MarkPublished? && !e.call.NoEffect? && s.workers[e.w].batch[0] == id
  }

  predicate ErrorLands(s: State, e: Event, id: string)
    requires Enabled(s, e)
  {
    e.RecordError? && !e.call.NoEffect? && s.workers[e.w].batch[0] == id
  }

  function Errors(states: seq<State>, events: seq<Event>, n: nat, id: string): nat
    requires IsRun(states, events) && n <= |events|
  {
    if n == 0 then 0 else Errors(states, events, n - 1, id) + One(ErrorLands(states[n - 1], events[n - 1], id))
  }

  function AttemptsOf(s: State, id: string): nat { if id in s.rows then s.rows[id].attempts else 0 }

  lemma RowCounts(s: State, e: Event, id: string)
    requires Enabled(s, e)
    ensures IsPublished(Next(s, e), id) <==> IsPublished(s, id) || MarkLands(s, e, id)
    ensures AttemptsOf(Next(s, e), id) == AttemptsOf(s, id) + One(ErrorLands(s, e, id))
  {
    hide NextWorkers, NextStream, NextAudit, NextHandling, NextAcking;
  }

  /** Over every run: a row is published if and only if a mark of it landed, and its attempts are
      the recorded errors of it. */
  lemma {:induction false} RowsCountExactly(states: seq<State>, events: seq<Event>, n: nat, id: string)
    requires IsRun(states, events) && n <= |events|
    ensures IsPublished(states[n], id) <==> exists m :: 0 <= m < n && MarkLands(states[m], events[m], id)
    ensures AttemptsOf(states[n], id) == Errors(states, events, n, id)
  {
    hide Enabled, NextRows, NextWorkers, NextStream, NextAudit, NextHandling, NextAcking, MarkLands, ErrorLands, One;
    if n > 0 {
      RowsCountExactly(states, events, n - 1, id);
      RowCounts(states[n - 1], events[n - 1], id);
    }
  }

  /** Over every run: what a drain may take is exactly a queued row none of whose marks has
      landed and which has fewer than ten recorded errors. */
  lemma DrainableExactly(states: seq<State>, events: seq<Event>, n: nat, id: string)
    requires IsRun(states, events) && n <= |events|
    ensures Drainable(states[n], id) <==>
      && id in states[n].rows && Errors(states, events, n, id) < 10
      && !exists m :: 0 <= m < n && MarkLands(states[m], events[m], id)
  {
    hide Enabled, Next, MarkLands, Errors;
    RowsCountExactly(states, events, n, id);
  }

  /** Worker w is done with the first row of its batch, or is given another batch. */
  predicate RowDone(e: Event, w: nat) { (e.MarkPublished? || e.RecordError?) && e.w == w }

  predicate NewBatch(e: Event, w: nat) { (e.Drain? || e.Restart?) && e.w == w }

  /** How many rows worker w is done with in the steps from m up to n. */
  function DoneBetween(events: seq<Event>, m: nat, n: nat, w: nat): nat
    requires n <= |events|
  {
    if n <= m then 0 else DoneBetween(events, m, n - 1, w) + One(RowDone(events[n - 1], w))
  }

  lemma TailStep(s: State, e: Event, w: nat)
    requires Enabled(s, e) && w < |s.workers| && !NewBatch(e, w)
    ensures w < |NextWorkers(s, e)|
    ensures RowDone(e, w) ==> s.workers[w].batch != [] && NextWorkers(s, e)[w].batch == s.workers[w].batch[1..]
    ensures !RowDone(e, w) ==> NextWorkers(s, e)[w].batch == s.workers[w].batch
  {
  }

  /** Over every run: a worker handles what it drained row by row and in order, whatever errors
      it meets, until it drains again or restarts. */
  lemma {:induction false} BatchIsTail(states: seq<State>, events: seq<Event>, m: nat, n: nat, w: nat)
    requires IsRun(states, events) && m < n <= |events| && events[m].Drain? && events[m].w == w
    requires forall k :: m < k < n ==> !NewBatch(events[k], w)
    ensures var done := DoneBetween(events, m + 1, n, w);
      && w < |states[n].workers| && done <= |events[m].ids| && states[n].workers[w].batch == events[m].ids[done..]
    decreases n
  {
    hide NextRows, NextStream, NextAudit, NextHandling, NextAcking;
    if n > m + 1 {
      hide Enabled, NextWorkers, RowDone, NewBatch;
      BatchIsTail(states, events, m, n - 1, w);
      TailStep(states[n - 1], events[n - 1], w);
    }
  }

  // ---- what the subscriber has delivered, returned and acknowledged ----

  function Deliveries(events: seq<Event>, n: nat, m: nat): nat
    requires n <= |events|
  {
    if n == 0 then 0 else Deliveries(events, n - 1, m) + One(events[n - 1] == Deliver(m))
  }

  function Dispatches(events: seq<Event>, n: nat, m: nat): nat
    requires n <= |events|
  {
    if n == 0 then 0
    else Dispatches(events, n - 1, m) + One(events[n - 1].Dispatch? && events[n - 1].m == m)
  }

  function Acks(events: seq<Event>, n: nat, m: nat): nat
    requires n <= |events|
  {
    if n == 0 then 0 else Acks(events, n - 1, m) + One(events[n - 1].Ack? && events[n - 1].m == m)
  }

  /** A dispatch of m whose append has returned. */
  predicate AppendReturns(s: State, e: Event, m: nat)
    requires Enabled(s, e)
  {
    e == Dispatch(m, Done) && Appends(s.stream[m].msg)
  }

  function Returned(states: seq<State>, events: seq<Event>, n: nat, m: nat): nat
    requires IsRun(states, events) && n <= |events|
  {
    if n == 0 then 0 else Returned(states, events, n - 1, m) + One(AppendReturns(states[n - 1], events[n - 1], m))
  }

  function DeliveriesOf(s: State, m: nat): nat { if m < |s.stream| then s.stream[m].deliveries else 0 }

  lemma DeliveryStep(s: State, e: Event, m: nat)
    requires Enabled(s, e)
    ensures DeliveriesOf(Next(s, e), m) == DeliveriesOf(s, m) + One(e == Deliver(m))
    ensures DeliveriesOf(s, m) <= 5 ==> DeliveriesOf(Next(s, e), m) <= 5
  {
    hide NextRows, NextWorkers, NextAudit, NextHandling, NextAcking, Appends, Unreadable, Captured;
  }

  lemma HandlingStep(s: State, e: Event, m: nat)
    requires Enabled(s, e)
    ensures NextHandling(s, e)[m] + One(e.Dispatch? && e.m == m) == s.handling[m] + One(e == Deliver(m))
  {
    hide Captured;
  }

  lemma AckCountStep(s: State, e: Event, m: nat)
    requires Enabled(s, e)
    ensures NextAcking(s, e)[m] + One(e.Ack? && e.m == m) == s.acking[m] + One(AppendReturns(s, e, m))
  {
    hide Appends, Captured;
  }

  /** Over every run: a message is delivered at most five times; each delivery is dispatched or
      in dispatch; each dispatch whose append returned is acknowledged or about to be. */
  lemma {:induction false} DeliveriesAddUp(states: seq<State>, events: seq<Event>, n: nat, m: nat)
    requires IsRun(states, events) && n <= |events|
    ensures DeliveriesOf(states[n], m) == Deliveries(events, n, m) <= 5
    ensures states[n].handling[m] + Dispatches(events, n, m) == Deliveries(events, n, m)
    ensures states[n].acking[m] + Acks(events, n, m) == Returned(states, events, n, m)
  {
    hide Enabled, NextRows, NextWorkers, NextStream, NextAudit, NextHandling, NextAcking, One, AppendReturns, DeliveriesOf;
    if n == 0 {
      NothingDelivered(states[0], m);
    } else {
      DeliveriesAddUp(states, events, n - 1, m);
      DeliveryStep(states[n - 1], events[n - 1], m);
      HandlingStep(states[n - 1], events[n - 1], m);
      AckCountStep(states[n - 1], events[n - 1], m);
    }
  }

  lemma NothingDelivered(s: State, m: nat)
    requires s == Initial(|s.workers|)
    ensures DeliveriesOf(s, m) == 0 && s.handling[m] == 0 && s.acking[m] == 0
    ensures m < |s.stream| ==> s.stream[m].status.Waiting?
  {
  }

  predicate AckLands(e: Event, m: nat) { e.Ack? && e.m == m && !e.call.NoEffect? }

  /** The message can be read, as DispatchExactly says it, and the termination of m lands. */
  predicate TermLands(s: State, e: Event, m: nat)
    requires Enabled(s, e)
  {
    e.Dispatch? && e.m == m && !e.call.NoEffect? && (s.stream[m].msg.envelope.None? || s.stream[m].msg.envelope.value.tenant.None?)
  }

  /** Only what was appended is acknowledged, and only what cannot be read terminated. */
  predicate StatusFair(s: State, m: nat) {
    && (s.acking[m] > 0 ==> m < |s.stream| && Appends(s.stream[m].msg))
    && (m < |s.stream| && s.stream[m].status.Acked? ==> Appends(s.stream[m].msg))
    && (m < |s.stream| && s.stream[m].status.Terminated? ==> Unreadable(s.stream[m].msg))
  }

  predicate Is(s: State, m: nat, x: Status) { m < |s.stream| && s.stream[m].status == x }

  lemma FairStep(s: State, e: Event, m: nat)
    requires Enabled(s, e) && StatusFair(s, m)
    ensures StatusFair(Next(s, e), m)
  {
    hide NextRows, NextWorkers, NextAudit, NextHandling, Captured, Refused;
  }

  lemma AckStep(s: State, e: Event, m: nat)
    requires Enabled(s, e) && StatusFair(s, m)
    ensures Is(Next(s, e), m, Acked) <==> Is(s, m, Acked) || AckLands(e, m)
  {
    hide NextRows, NextWorkers, NextAudit, NextHandling, NextAcking, Captured, Refused;
  }

  lemma TerminatedStep(s: State, e: Event, m: nat)
    requires Enabled(s, e) && StatusFair(s, m)
    ensures Is(Next(s, e), m, Terminated) <==> Is(s, m, Terminated) || TermLands(s, e, m)
  {
    hide NextRows, NextWorkers, NextAudit, NextHandling, NextAcking, Captured, Refused;
  }

  /** Over every run: a message is acknowledged if and only if an acknowledgement of it has
      landed, and terminated if and only if it cannot be read and a termination has. */
  lemma {:induction false} StatusExactly(states: seq<State>, events: seq<Event>, n: nat, m: nat)
    requires IsRun(states, events) && n <= |events|
    ensures StatusFair(states[n], m)
    ensures Is(states[n], m, Acked) <==> exists k :: 0 <= k < n && AckLands(events[k], m)
    ensures Is(states[n], m, Terminated) <==> exists k :: 0 <= k < n && TermLands(states[k], events[k], m)
  {
    hide Enabled, Next, AckLands, TermLands, StatusFair, Is;
    if n == 0 {
      FreshStatus(states[0], m);
    } else {
      StatusExactly(states, events, n - 1, m);
      FairStep(states[n - 1], events[n - 1], m);
      AckStep(states[n - 1], events[n - 1], m);
      TerminatedStep(states[n - 1], events[n - 1], m);
    }
  }

  lemma FreshStatus(s: State, m: nat)
    requires s == Initial(|s.workers|)
    ensures StatusFair(s, m) && !Is(s, m, Acked) && !Is(s, m, Terminated)
  {
  }

  // ---- where duplicates come from ----

  function Copies(stream: seq<Stored>, id: string): nat {
    if stream == [] then 0 else Copies(stream[..|stream| - 1], id) + One(stream[|stream| - 1].row == id)
  }

  lemma {:induction false} CopiesUpdate(stream: seq<Stored>, m: nat, x: Stored, id: string)
    requires m < |stream| && x.row == stream[m].row
    ensures Copies(stream[m := x], id) == Copies(stream, id)
  {
    var n := |stream| - 1;
    if m == n {
      assert stream[m := x][..n] == stream[..n];
    } else {
      CopiesUpdate(stream[..n], m, x, id);
      assert stream[m := x][..n] == stream[..n][m := x];
    }
  }

  lemma CopiesAppend(stream: seq<Stored>, x: Stored, id: string)
    ensures Copies(stream + [x], id) == Copies(stream, id) + One(x.row == id)
  {
    assert (stream + [x])[..|stream|] == stream;
  }

  lemma CopiesStep(s: State, e: Event, id: string)
    requires Enabled(s, e)
    ensures Copies(NextStream(s, e), id) ==
      Copies(s.stream, id) + One(e.Publish? && !e.call.NoEffect? && s.workers[e.w].batch[0] == id)
  {
    hide Copies;
    match e
    case Publish(w, _) =>
      var row := s.workers[w].batch[0];
      CopiesAppend(s.stream, Stored(row, s.rows[row].msg, 0, Waiting), id);
    case Deliver(m) => CopiesUpdate(s.stream, m, NextStream(s, e)[m], id);
    case Dispatch(m, _) => CopiesUpdate(s.stream, m, NextStream(s, e)[m], id);
    case Ack(m, _) => CopiesUpdate(s.stream, m, NextStream(s, e)[m], id);
    case _ =>
  }

  /** Worker w has published row id and is about to mark it. */
  predicate Marks(s: State, w: nat, id: string) {
    w < |s.workers| && s.workers[w].stage.Marking? && s.workers[w].batch != [] && s.workers[w].batch[0] == id
  }

  predicate AtMark(s: State, id: string) { exists w: nat :: w < |s.workers| && Marks(s, w, id) }

  predicate IsPublished(s: State, id: string) { id in s.rows && s.rows[id].published }

  /** The step leaves a published row id unmarked: its publish is not seen, its mark is lost,
      or its worker stops before marking. */
  predicate Orphans(s: State, e: Event, id: string)
    requires Enabled(s, e)
  {
    match e
    case Publish(w, call) => call.LostReply? && s.workers[w].batch[0] == id
    case MarkPublished(w, call) => call.NoEffect? && s.workers[w].batch[0] == id
    case Restart(w) => Marks(s, w, id)
    case _ => false
  }

  /** The step publishes row id and the stream gets it. */
  predicate Publishes(s: State, e: Event, id: string)
    requires Enabled(s, e)
  {
    e.Publish? && !e.call.NoEffect? && s.workers[e.w].batch[0] == id
  }

  predicate Orphaned(states: seq<State>, events: seq<Event>, n: nat, id: string)
    requires IsRun(states, events) && n <= |events|
  {
    exists p :: 0 <= p < n && Orphans(states[p], events[p], id)
  }

  lemma PublishedStays(s: State, e: Event, id: string)
    requires Enabled(s, e) && IsPublished(s, id)
    ensures IsPublished(Next(s, e), id)
  {
    hide Enabled, NextRows, NextWorkers, NextStream, NextAudit, NextHandling, NextAcking;
    RowsKept(s, e, id);
  }

  /** A worker about to mark id does so, or id is orphaned. */
  lemma MarksStep(s: State, e: Event, w: nat, id: string)
    requires Enabled(s, e) && w < |s.workers| && Marks(s, w, id)
    ensures Marks(Next(s, e), w, id) || IsPublished(Next(s, e), id) || Orphans(s, e, id)
    ensures e.MarkPublished? && e.w == w && !e.call.NoEffect? ==> IsPublished(Next(s, e), id)
  {
    hide NextStream, NextAudit, NextHandling, NextAcking;
  }

  lemma PublishMarks(s: State, e: Event, id: string)
    requires Enabled(s, e) && Publishes(s, e, id)
    ensures Orphans(s, e, id) || (e.w < |Next(s, e).workers| && Marks(Next(s, e), e.w, id))
  {
    hide NextRows, NextStream, NextAudit, NextHandling, NextAcking;
  }

  /** An orphaning step publishes id or is by a worker about to mark it. */
  lemma OrphanHasCopy(s: State, e: Event, id: string)
    requires Enabled(s, e) && Orphans(s, e, id)
    ensures Publishes(s, e, id) || AtMark(s, id)
  {
    assert !e.Publish? ==> Marks(s, e.w, id);
  }

  /** New marks come from publishing, new published rows from marking. */
  lemma NewMark(s: State, e: Event, id: string)
    requires Enabled(s, e) && (AtMark(Next(s, e), id) || IsPublished(Next(s, e), id))
    ensures AtMark(s, id) || IsPublished(s, id) || Publishes(s, e, id)
  {
    hide NextStream, NextAudit, NextHandling, NextAcking;
    if AtMark(Next(s, e), id) {
      var w: nat :| w < |Next(s, e).workers| && Marks(Next(s, e), w, id);
      assert Marks(s, w, id) || Publishes(s, e, id);
    } else if !IsPublished(s, id) {
      assert Marks(s, e.w, id);
    }
  }

  lemma CopiesAtStart(n: nat, id: string)
    ensures Copies(Initial(n).stream, id) == 0 && !AtMark(Initial(n), id) && !IsPublished(Initial(n), id)
  {
  }

  /** For any number of workers and any faults: a row is in the stream if and only if it is
      marked published, a worker is about to mark it, or an earlier step orphaned it. */
  lemma {:induction false} InStreamExactly(states: seq<State>, events: seq<Event>, n: nat, id: string)
    requires IsRun(states, events) && n <= |events|
    ensures Copies(states[n].stream, id) > 0 <==>
      IsPublished(states[n], id) || AtMark(states[n], id) || Orphaned(states, events, n, id)
  {
    hide Enabled, NextRows, NextWorkers, NextStream, NextAudit, NextHandling, NextAcking, Initial;
    hide Copies, IsPublished, Marks, AtMark, Orphans, Publishes;
    if n == 0 {
      CopiesAtStart(|states[0].workers|, id);
    } else {
      InStreamExactly(states, events, n - 1, id);
      InStreamStep(states[n - 1], events[n - 1], id);
    }
  }

  lemma InStreamStep(s: State, e: Event, id: string)
    requires Enabled(s, e)
    ensures var t := Next(s, e);
      && Copies(t.stream, id) == Copies(s.stream, id) + One(Publishes(s, e, id))
      && (IsPublished(s, id) || AtMark(s, id) || Publishes(s, e, id) ==>
            IsPublished(t, id) || AtMark(t, id) || Orphans(s, e, id))
      && (IsPublished(t, id) || AtMark(t, id) || Orphans(s, e, id) ==>
            IsPublished(s, id) || AtMark(s, id) || Publishes(s, e, id))
  {
    hide NextRows, NextWorkers, NextStream, NextAudit, NextHandling, NextAcking;
    hide Copies, IsPublished, Marks, Orphans;
    CopiesStep(s, e, id);
    if IsPublished(s, id) {
      PublishedStays(s, e, id);
    } else if AtMark(s, id) {
      var w: nat :| w < |s.workers| && Marks(s, w, id);
      WorkersStay(s, e);
      MarksStep(s, e, w, id);
    } else if Publishes(s, e, id) {
      PublishMarks(s, e, id);
    }
    if IsPublished(Next(s, e), id) || AtMark(Next(s, e), id) {
      NewMark(s, e, id);
    }
    if Orphans(s, e, id) {
      OrphanHasCopy(s, e, id);
    }
  }

  lemma WorkersStay(s: State, e: Event)
    requires Enabled(s, e)
    ensures |Next(s, e).workers| == |s.workers|
  {
  }

  /** The publish at step q is the first: the row is not marked, nobody is about to mark it,
      and no earlier step orphaned it. */
  predicate First(states: seq<State>, events: seq<Event>, q: nat, id: string)
    requires IsRun(states, events) && q < |events|
  {
    !IsPublished(states[q], id) && !AtMark(states[q], id) && !Orphaned(states, events, q, id)
  }

  predicate AllFirst(states: seq<State>, events: seq<Event>, n: nat, id: string)
    requires IsRun(states, events) && n <= |events|
  {
    forall q :: 0 <= q < n && Publishes(states[q], events[q], id) ==> First(states, events, q, id)
  }

  /** For any number of workers and any faults: a row is in the stream at most once if and only
      if it is never published when it is marked already, while a worker is about to mark it,
      or after it was orphaned. */
  lemma {:induction false} AtMostOnceExactly(states: seq<State>, events: seq<Event>, n: nat, id: string)
    requires IsRun(states, events) && n <= |events|
    ensures Copies(states[n].stream, id) <= 1 <==> AllFirst(states, events, n, id)
  {
    hide Enabled, NextRows, NextWorkers, NextStream, NextAudit, NextHandling, NextAcking, Initial;
    hide Copies, IsPublished, AtMark, Orphaned, Publishes;
    if n == 0 {
      CopiesAtStart(|states[0].workers|, id);
    } else {
      AtMostOnceExactly(states, events, n - 1, id);
      InStreamExactly(states, events, n - 1, id);
      CopiesMove(states[n - 1], events[n - 1], id);
    }
  }

  lemma CopiesMove(s: State, e: Event, id: string)
    requires Enabled(s, e)
    ensures Copies(Next(s, e).stream, id) == Copies(s.stream, id) + One(Publishes(s, e, id))
  {
    hide NextStream, Copies;
    CopiesStep(s, e, id);
  }

  // ---- what the drain would have to exclude ----

  /** The step drains row id while it is in a worker's unfinished batch. */
  predicate Overlaps(s: State, e: Event, id: string) {
    e.Drain? && id in e.ids && exists v :: 0 <= v < |s.workers| && id in s.workers[v].batch
  }

  /** At most one worker has id, once; nobody has it when it is marked. */
  ghost predicate Held(s: State, id: string) {
    && (forall v :: 0 <= v < |s.workers| ==> Distinct(s.workers[v].batch))
    && (forall v, w :: 0 <= v < w < |s.workers| ==> id !in s.workers[v].batch || id !in s.workers[w].batch)
    && (IsPublished(s, id) ==> forall v :: 0 <= v < |s.workers| ==> id !in s.workers[v].batch)
  }

  predicate Others(s: State, e: Event) {
    match e
    case Enqueue(_, _) => true
    case Deliver(_) => true
    case Dispatch(_, _) => true
    case Ack(_, _) => true
    case _ => false
  }

  /** What worker e.w has after the step. */
  lemma BatchStep(s: State, e: Event, id: string)
    requires Enabled(s, e) && !Others(s, e) && Held(s, id)
    ensures e.w < |s.workers| && NextWorkers(s, e) == s.workers[e.w := NextWorkers(s, e)[e.w]]
    ensures Distinct(NextWorkers(s, e)[e.w].batch)
    ensures id in NextWorkers(s, e)[e.w].batch ==> id in s.workers[e.w].batch || (e.Drain? && id in e.ids)
    ensures e.Drain? && id in e.ids ==> !IsPublished(s, id)
    ensures IsPublished(Next(s, e), id) && !IsPublished(s, id) ==>
      id in s.workers[e.w].batch && id !in NextWorkers(s, e)[e.w].batch
  {
    hide NextStream, NextAudit, NextHandling, NextAcking;
    assert Distinct(s.workers[e.w].batch);
  }

  lemma OthersStep(s: State, e: Event, id: string)
    requires Enabled(s, e) && Others(s, e)
    ensures NextWorkers(s, e) == s.workers && (IsPublished(Next(s, e), id) ==> IsPublished(s, id))
  {
    hide NextStream, NextAudit, NextHandling, NextAcking;
  }

  lemma HeldStep(s: State, e: Event, id: string)
    requires Enabled(s, e) && Held(s, id) && !Overlaps(s, e, id)
    ensures Held(Next(s, e), id)
  {
    hide Enabled, NextRows, NextWorkers, NextStream, NextAudit, NextHandling, NextAcking, IsPublished, Distinct;
    if Others(s, e) {
      OthersStep(s, e, id);
    } else {
      BatchStep(s, e, id);
    }
  }

  /** A held row is not published by a second worker, nor once it is marked. */
  lemma HeldIsFirst(s: State, e: Event, id: string)
    requires Enabled(s, e) && Held(s, id) && Publishes(s, e, id)
    ensures !IsPublished(s, id) && !AtMark(s, id)
  {
    assert id in s.workers[e.w].batch;
    forall w: nat | w < |s.workers|
      ensures !Marks(s, w, id)
    {
      assert id in s.workers[w].batch ==> w == e.w;
    }
  }

  lemma {:induction false} AlwaysHeld(states: seq<State>, events: seq<Event>, n: nat, id: string)
    requires IsRun(states, events) && n <= |events|
    requires forall m :: 0 <= m < n ==> !Overlaps(states[m], events[m], id)
    ensures Held(states[n], id)
  {
    hide Enabled, NextRows, NextWorkers, NextStream, NextAudit, NextHandling, NextAcking, Held, Overlaps, Initial;
    if n == 0 {
      HeldAtStart(|states[0].workers|, id);
    } else {
      AlwaysHeld(states, events, n - 1, id);
      HeldStep(states[n - 1], events[n - 1], id);
    }
  }

  lemma HeldAtStart(n: nat, id: string)
    ensures Held(Initial(n), id)
  {
  }

  /** For any number of workers: if the row is never drained while it is in an unfinished
      batch, and is not published again after being orphaned, it is in the stream at most once,
      and exactly once when marked. The locks of the drain would give the first, if they lasted
      until the batch is done. */
  lemma PublishedAtMostOnce(states: seq<State>, events: seq<Event>, n: nat, id: string)
    requires IsRun(states, events) && n <= |events|
    requires forall m :: 0 <= m < n ==> !Overlaps(states[m], events[m], id)
    ensures Copies(states[n].stream, id) <= 1 <==>
      forall q :: 0 <= q < n && Publishes(states[q], events[q], id) ==> !Orphaned(states, events, q, id)
    ensures IsPublished(states[n], id) ==> Copies(states[n].stream, id) > 0
  {
    hide Next, Enabled, Copies, IsPublished, AtMark, Orphaned, Publishes, Held, Overlaps;
    AtMostOnceExactly(states, events, n, id);
    InStreamExactly(states, events, n, id);
    forall q | 0 <= q < n && Publishes(states[q], events[q], id)
      ensures !IsPublished(states[q], id) && !AtMark(states[q], id)
    {
      AlwaysHeld(states, events, q, id);
      HeldIsFirst(states[q], events[q], id);
    }
  }

  /** One worker never drains a row it has: only orphaning can repeat a row then. */
  lemma OneWorkerNeverOverlaps(s: State, e: Event, id: string)
    requires Enabled(s, e) && |s.workers| == 1
    ensures !Overlaps(s, e, id)
  {
  }

  lemma Extend(states: seq<State>, events: seq<Event>, e: Event) returns (longer: seq<State>, more: seq<Event>)
    requires IsRun(states, events) && Enabled(states[|events|], e)
    ensures IsRun(longer, more) && longer == states + [Next(states[|events|], e)] && more == events + [e]
  {
    hide Enabled, NextRows, NextWorkers, NextStream, NextAudit, NextHandling, NextAcking;
    longer, more := states + [Next(states[|events|], e)], events + [e];
  }

  predicate NoFaults(events: seq<Event>) {
    forall n :: 0 <= n < |events| ==>
      match events[n]
      case Publish(_, call) => call.Done?
      case MarkPublished(_, call) => call.Done?
      case _ => !events[n].Restart?
  }

  lemma PublishIs(s: State, w: nat, msg: Msg)
    requires s.rows == map["e" := Row(msg, 0, false)] && w < |s.workers| && s.workers[w] == Worker(["e"], Head)
    ensures Enabled(s, Publish(w, Done)) && Publishes(s, Publish(w, Done), "e")
    ensures var t := Next(s, Publish(w, Done));
      t.rows == s.rows && t.workers == s.workers[w := Worker(["e"], Marking)]
  {
    hide NextStream;
  }

  /** The drain's locks end with its transaction, before anything is published, so two
      workers can publish one row twice without any fault. */
  lemma TwoWorkersPublishTwice(msg: Msg) returns (states: seq<State>, events: seq<Event>)
    ensures IsRun(states, events) && NoFaults(events) && |states[0].workers| == 2
    ensures Copies(states[|events|].stream, "e") == 2
  {
    hide Copies, Next, Enabled, IsRun, Publishes;
    states, events := BothDrained(msg);
    RunLength(states, events);
    var s := states[|events|];
    PublishIs(s, 0, msg);
    CopiesMove(s, Publish(0, Done), "e");
    states, events := Extend(states, events, Publish(0, Done));
    RunLength(states, events);
    var t := states[|events|];
    PublishIs(t, 1, msg);
    CopiesMove(t, Publish(1, Done), "e");
    states, events := Extend(states, events, Publish(1, Done));
    RunLength(states, events);
    NoCopies();
  }

  lemma NoCopies()
    ensures Copies([], "e") == 0
  {
  }

  lemma BothDrained(msg: Msg) returns (states: seq<State>, events: seq<Event>)
    ensures IsRun(states, events) && NoFaults(events) && |states[0].workers| == 2
    ensures var s := states[|events|];
      s.rows == map["e" := Row(msg, 0, false)] && s.workers == [Worker(["e"], Head), Worker(["e"], Head)] && s.stream == []
  {
    states, events := [Initial(2)], [];
    states, events := Extend(states, events, Enqueue("e", msg));
    states, events := Extend(states, events, Drain(0, ["e"]));
    states, events := Extend(states, events, Drain(1, ["e"]));
  }

  predicate OneBill(s: State, env: Envelope, deliveries: nat) {
    && s.stream == [Stored("e", Msg("PSI_EVENTS.bill.x", Some(env)), deliveries, Waiting)] && s.handling == multiset{}
  }

  predicate NoId(env: Envelope) { env.eventId == "" && env.tenant.Some? && !Refused(env) }

  lemma Delivered(s: State, env: Envelope, d: nat)
    requires OneBill(s, env, d) && d < MAX_DELIVER
    ensures Enabled(s, Deliver(0))
    ensures var t := Next(s, Deliver(0));
      && t.stream == [Stored("e", Msg("PSI_EVENTS.bill.x", Some(env)), d + 1, Waiting)]
      && t.handling == multiset{0} && t.audit == s.audit
  {
    hide NextRows, NextWorkers;
    BillCaptured();
  }

  lemma Dispatched(s: State, env: Envelope)
    requires NoId(env) && |s.stream| == 1 && s.stream[0].msg.envelope == Some(env) && s.handling == multiset{0}
    ensures Enabled(s, Dispatch(0, Done))
    ensures var t := Next(s, Dispatch(0, Done));
      t.stream == s.stream && t.handling == multiset{} && t.audit == s.audit + [RowFor(env)]
  {
    hide NextRows, NextWorkers;
  }

  /** The event is queued, drained and published. */
  lemma BillPublished(env: Envelope) returns (states: seq<State>, events: seq<Event>)
    ensures IsRun(states, events) && OneBill(states[|events|], env, 0) && states[|events|].audit == []
    ensures NoFaults(events)
  {
    var msg := Msg("PSI_EVENTS.bill.x", Some(env));
    states, events := [Initial(1)], [];
    states, events := Extend(states, events, Enqueue("e", msg));
    states, events := Extend(states, events, Drain(0, ["e"]));
    states, events := Extend(states, events, Publish(0, Done));
  }

  /** The message is delivered and its append returns; nothing acknowledges it yet. */
  lemma DeliverAndDispatch(states: seq<State>, events: seq<Event>, env: Envelope, d: nat)
    returns (longer: seq<State>, more: seq<Event>)
    requires IsRun(states, events) && NoFaults(events) && NoId(env) && OneBill(states[|events|], env, d) && d < MAX_DELIVER
    ensures IsRun(longer, more) && NoFaults(more) && OneBill(longer[|more|], env, d + 1)
    ensures longer[|more|].audit == states[|events|].audit + [RowFor(env)]
  {
    hide Next, Enabled, IsRun;
    RunLength(states, events);
    Delivered(states[|events|], env, d);
    longer, more := Extend(states, events, Deliver(0));
    RunLength(longer, more);
    Dispatched(longer[|more|], env);
    longer, more := Extend(longer, more, Dispatch(0, Done));
    RunLength(longer, more);
  }

  /** An event without an id is not deduplicated: for each there is a run without faults in
      which a redelivery before its acknowledgement doubles its row. */
  lemma NoIdNoDedup(env: Envelope) returns (states: seq<State>, events: seq<Event>)
    requires NoId(env)
    ensures IsRun(states, events) && NoFaults(events)
    ensures states[|events|].audit == [RowFor(env), RowFor(env)]
  {
    hide IsRun, NoFaults, NoId, OneBill;
    states, events := BillPublished(env);
    states, events := DeliverAndDispatch(states, events, env, 0);
    states, events := DeliverAndDispatch(states, events, env, 1);
  }

  lemma BillCaptured()
    ensures Captured("PSI_EVENTS.bill.x")
  {
  }

  // ---- the objects ----

  datatype Verdict = Acknowledge | Redeliver | Terminate

  class AuditLog {
    var audit: seq<AuditRow>

    constructor ()
      ensures audit == []
    {
      audit := [];
    }

    method Insert(r: AuditRow, call: Call) returns (ok: bool)
      modifies this
      ensures ok <==> call.Done?
      ensures audit == if call.NoEffect? then old(audit) else Append(old(audit), r)
    {
      if !call.NoEffect? {
        if r.eventId == "" || !HasEvent(audit, r.eventId) {
          audit := audit + [r];
        }
      }
      ok := call.Done?;
    }
  }

  class AuditSubscriber {
    const appender: AuditLog

    constructor (appender: AuditLog)
      ensures this.appender == appender
    {
      this.appender := appender;
    }

    /** One dispatch leaves the log and the message as the machine's Dispatch and Ack steps
        with the same outcome do. */
    method Dispatch(msg: Msg, call: Call) returns (v: Verdict)
      modifies appender
      ensures var s := State(map[], [], [Stored("", msg, 1, Waiting)], multiset{0}, multiset{}, old(appender.audit));
        var t := Next(s, Event.Dispatch(0, call));
        && appender.audit == t.audit
        && (v.Acknowledge? <==> t.acking[0] > 0)
        && (v.Terminate? <==> Unreadable(msg))
        && (v.Terminate? && !call.NoEffect? ==> t.stream[0].status.Terminated?)
    {
      hide Append;
      if msg.envelope.None? || msg.envelope.value.tenant.None? {
        return Terminate;
      }
      var env := msg.envelope.value;
      if env.tenant == Some(NIL_UUID) || env.action == "" {
        return Redeliver;
      }
      var ok := appender.Insert(RowFor(env), call);
      v := if ok then Acknowledge else Redeliver;
    }
  }

  class OutboxWorker {
    var rows: map<string, Row>
    var stream: seq<Stored>

    constructor ()
      ensures rows == map[] && stream == []
    {
      rows, stream := map[], [];
    }

    /** The machine's state with this worker alone. */
    function Alone(batch: seq<string>): State
      reads this
    {
      State(rows, [Worker(batch, Head)], stream, multiset{}, multiset{}, [])
    }

    method ProcessRow(id: string, publish: Call, record: Call)
      requires id in rows
      modifies this
      ensures Alone([]) == ProcessedRow(old(Alone([id])), publish, record)
    {
      ProcessedIs(Alone([id]), publish, record);
      assert [id][1..] == [];
      if !publish.NoEffect? {
        stream := stream + [Stored(id, rows[id].msg, 0, Waiting)];
      }
      if !publish.Done? {
        if !record.NoEffect? {
          rows := rows[id := Row(rows[id].msg, rows[id].attempts + 1, rows[id].published)];
        }
        return;
      }
      if !record.NoEffect? {
        rows := rows[id := Row(rows[id].msg, rows[id].attempts, true)];
      }
    }
  }

  /** The two steps worker 0 takes for the first row of its batch. */
  function ProcessedRow(s: State, publish: Call, record: Call): State
    requires AtStage(s, 0, Head)
  {
    var t := Next(s, Publish(0, publish));
    if publish.Done? then Next(t, MarkPublished(0, record)) else Next(t, RecordError(0, record))
  }

  lemma ProcessedIs(s: State, publish: Call, record: Call)
    requires AtStage(s, 0, Head)
    ensures var id := s.workers[0].batch[0]; var row := s.rows[id];
      ProcessedRow(s, publish, record) == State(
        if record.NoEffect? then s.rows
        else s.rows[id := if publish.Done? then Row(row.msg, row.attempts, true) else Row(row.msg, row.attempts + 1, row.published)],
        s.workers[0 := Worker(s.workers[0].batch[1..], Head)],
        if publish.NoEffect? then s.stream else s.stream + [Stored(id, row.msg, 0, Waiting)],
        s.handling, s.acking, s.audit)
  {
  }
}
