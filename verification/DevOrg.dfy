/** The organization stand-in of internal/adapter/platform/org_dev.go and
    org_dev_dissolve.go over the tables of migration 000059. */
module DevOrg {

  import opened Wrappers

  datatype Result<T> = Ok(value: T) | Err(error: Error)

  datatype Error = Forbidden | NotMember | InvalidRole | LastOwner | InviteInvalid | Conflict

  /** A role as callers may spell it; the tables hold only the first three. */
  datatype Role = Owner | Admin | Member | Other(name: string)

  type Grants = map<string, string>

  datatype Seat = Seat(org: int, account: int)

  datatype Membership = Membership(role: Role, grants: Grants)

  datatype Invite = Invite(org: int, role: Role, grants: Grants, inviter: int, expires: int,
                           accepted: Option<int>, revoked: bool)

  /** dev_org, dev_org_member and dev_org_invite; tokens stands for the unique token hash. */
  datatype Db = Db(orgs: map<(string, string), int>, next: int, members: map<Seat, Membership>,
                   invites: map<nat, Invite>, tokens: map<string, nat>)

  const EMPTY := Db(map[], 1, map[], map[], map[])

  datatype Op =
    | EnsureOrg(product: string, ref: string, owner: int)
    | UpdateMember(org: int, account: int, actor: int, role: Role, grants: Grants)
    | RemoveMember(org: int, account: int, actor: int)
    | CreateInvite(org: int, actor: int, role: Role, grants: Grants, ttl: int, now: int, id: nat, token: string)
    | RevokeInvite(org: int, id: nat, actor: int)
    | AcceptInvite(token: string, account: int, now: int)
    | DissolveOrg(org: int, actor: int)

  /** The operations that read roles first, outside any transaction with their write. */
  predicate ReadsRoles(op: Op) { op.UpdateMember? || op.RemoveMember? || op.CreateInvite? || op.RevokeInvite? }

  type Guarded = op: Op | ReadsRoles(op) witness RevokeInvite(0, 0, 0)

  /** A request between two of its database calls. Asked has read the actor's role; Allowed
      has passed every check, on the two roles it read; Dissolving has revoked the invites. */
  datatype Request =
    | Asked(op: Guarded, actorRole: Role)
    | Allowed(op: Guarded, actorRole: Role, targetRole: Role)
    | Dissolving(org: int, actor: int)

  datatype Reply = OrgId(id: int) | Done | Created(invite: nat, expires: int) | Joined(org: int, role: Role, grants: Grants)

  predicate IsManager(r: Role) { r.Owner? || r.Admin? }

  /** Lifetimes outside 1..168 hours become 72. */
  function Hours(ttl: int): int { if ttl < 1 || ttl > 168 then 72 else ttl }

  // ---- the checks ----

  function RoleIn(db: Db, o: int, a: int): Option<Role> {
    if Seat(o, a) in db.members then Some(db.members[Seat(o, a)].role) else None
  }

  /** The role read second; only changes and removals have a target. */
  function TargetIn(db: Db, op: Guarded): Option<Role> {
    if op.UpdateMember? || op.RemoveMember? then RoleIn(db, op.org, op.account) else None
  }

  function JudgeUpdate(role: Role, actorRole: Role, target: Option<Role>): Result<Role> {
    if target.None? then Err(NotMember)
    else if !IsManager(actorRole) || target.value.Owner? || role.Owner? then Err(Forbidden)
    else if (role.Admin? || target.value.Admin?) && !actorRole.Owner? then Err(Forbidden)
    else if !role.Admin? && !role.Member? then Err(InvalidRole)
    else Ok(target.value)
  }

  function JudgeRemove(leaving: bool, actorRole: Role, target: Option<Role>): Result<Role> {
    if target.None? then Err(NotMember)
    else if target.value.Owner? then Err(LastOwner)
    else if !leaving && (!IsManager(actorRole) || (target.value.Admin? && !actorRole.Owner?)) then Err(Forbidden)
    else Ok(target.value)
  }

  /** What an operation decides on the roles it read: the target's role, or the actor's
      where there is no target, or an error. */
  function Judge(op: Guarded, actorRole: Role, target: Option<Role>): Result<Role> {
    match op
    case UpdateMember(_, _, _, role, _) => JudgeUpdate(role, actorRole, target)
    case RemoveMember(_, a, actor) => JudgeRemove(a == actor, actorRole, target)
    case CreateInvite(_, _, role, _, _, _, _, _) =>
      if !IsManager(actorRole) || (role.Admin? && !actorRole.Owner?) then Err(Forbidden)
      else if !role.Admin? && !role.Member? then Err(InvalidRole)
      else Ok(actorRole)
    case RevokeInvite(_, _, _) => if !IsManager(actorRole) then Err(Forbidden) else Ok(actorRole)
  }

  /** Both reads and the decision at one moment. */
  function Check(db: Db, op: Guarded): Result<Request> {
    var actorRole := RoleIn(db, op.org, op.actor);
    if actorRole.None? then Err(Forbidden)
    else
      var verdict := Judge(op, actorRole.value, TargetIn(db, op));
      if verdict.Err? then Err(verdict.error) else Ok(Allowed(op, actorRole.value, verdict.value))
  }

  // ---- the writes ----

  predicate Pending(iv: Invite) { iv.accepted.None? && !iv.revoked }

  function Offer(op: Op): Invite
    requires op.CreateInvite?
  {
    Invite(op.org, op.role, op.grants, op.actor, op.now + 3600 * Hours(op.ttl), None, false)
  }

  /** The statement a checked operation ends with. */
  function Write(db: Db, op: Guarded): (Db, Result<Reply>) {
    match op
    case UpdateMember(o, a, _, role, grants) =>
      (if Seat(o, a) in db.members then db.(members := db.members[Seat(o, a) := Membership(role, grants)]) else db, Ok(Done))
    case RemoveMember(o, a, _) => (db.(members := db.members - {Seat(o, a)}), Ok(Done))
    case CreateInvite(_, _, _, _, _, _, id, token) =>
      if id in db.invites || token in db.tokens then (db, Err(Conflict))
      else (db.(invites := db.invites[id := Offer(op)], tokens := db.tokens[token := id]), Ok(Created(id, Offer(op).expires)))
    case RevokeInvite(o, id, _) =>
      if id in db.invites && db.invites[id].org == o && Pending(db.invites[id]) then
        (db.(invites := db.invites[id := db.invites[id].(revoked := true)]), Ok(Done))
      else (db, Err(InviteInvalid))
  }

  function SeatsOf(db: Db, o: int): set<Seat> { set s | s in db.members && s.org == o }

  function RevokeAll(invites: map<nat, Invite>, o: int): map<nat, Invite> {
    map id | id in invites ::
      if invites[id].org == o && Pending(invites[id]) then invites[id].(revoked := true) else invites[id]
  }

  /** The first statement of DissolveOrg. */
  function Cleared(db: Db, o: int): Db { db.(invites := RevokeAll(db.invites, o)) }

  /** The second statement of DissolveOrg. */
  function Left(db: Db, o: int, a: int): Db {
    if Seat(o, a) in db.members && |SeatsOf(db, o)| == 1 then db.(members := db.members - {Seat(o, a)}) else db
  }

  function Carry(db: Db, r: Request): (Db, Result<Reply>)
    requires !r.Asked?
  {
    match r
    case Allowed(op, _, _) => Write(db, op)
    case Dissolving(o, a) => (Left(db, o, a), Ok(Done))
  }

  // ---- the transactions ----

  function Ensure(db: Db, product: string, ref: string, owner: int): (Db, Result<Reply>) {
    if (product, ref) in db.orgs then (db, Ok(OrgId(db.orgs[(product, ref)])))
    else
      (Db(db.orgs[(product, ref) := db.next], db.next + 1,
          db.members[Seat(db.next, owner) := Membership(Owner, map[])], db.invites, db.tokens),
       Ok(OrgId(db.next)))
  }

  /** The invite a token opens. */
  function Opens(db: Db, token: string): Option<nat> {
    if token in db.tokens && db.tokens[token] in db.invites then Some(db.tokens[token]) else None
  }

  function Accept(db: Db, token: string, a: int, now: int): (Db, Result<Reply>) {
    if Opens(db, token).None? then (db, Err(InviteInvalid))
    else
      var id := Opens(db, token).value;
      var iv := db.invites[id];
      var seat := Seat(iv.org, a);
      if seat in db.members then (db, Ok(Joined(iv.org, db.members[seat].role, db.members[seat].grants)))
      else if !Pending(iv) || now >= iv.expires then (db, Err(InviteInvalid))
      else
        (db.(members := db.members[seat := Membership(iv.role, iv.grants)],
             invites := db.invites[id := iv.(accepted := Some(a))]),
         Ok(Joined(iv.org, iv.role, iv.grants)))
  }

  /** One operation without interruption. */
  function Do(db: Db, op: Op): (Db, Result<Reply>) {
    match op
    case EnsureOrg(product, ref, owner) => Ensure(db, product, ref, owner)
    case AcceptInvite(token, a, now) => Accept(db, token, a, now)
    case DissolveOrg(o, actor) => (Left(Cleared(db, o), o, actor), Ok(Done))
    case _ => if Check(db, op).Err? then (db, Err(Check(db, op).error)) else Carry(db, Check(db, op).value)
  }

  // ---- operations that may overlap ----

  /** Every database call of UpdateMember, RemoveMember, CreateInvite and RevokeInvite stands
      alone, and the two statements of DissolveOrg, in one READ COMMITTED transaction, each
      take their own snapshot: anything may happen between two of them. */
  datatype Sys = Sys(db: Db, waiting: multiset<Request>)

  /** Begin reads the actor's role, Look the target's and decides; Clear is the first
      statement of DissolveOrg; Land is the last statement of either. */
  datatype Event =
    | Whole(op: Op)
    | Begin(guarded: Guarded)
    | Look(request: Request)
    | Clear(org: int, actor: int)
    | Land(request: Request)

  predicate Enabled(s: Sys, e: Event) {
    match e
    case Look(r) => r in s.waiting && r.Asked?
    case Land(r) => r in s.waiting && !r.Asked?
    case _ => true
  }

  function NextDb(db: Db, e: Event): Db
    requires e.Land? ==> !e.request.Asked?
  {
    match e
    case Whole(op) => Do(db, op).0
    case Clear(o, _) => Cleared(db, o)
    case Land(r) => Carry(db, r).0
    case _ => db
  }

  /** What the step adds to the waiting requests. */
  function Adds(db: Db, e: Event): multiset<Request>
    requires e.Look? ==> e.request.Asked?
  {
    match e
    case Begin(op) =>
      var role := RoleIn(db, op.org, op.actor);
      if role.Some? then multiset{Asked(op, role.value)} else multiset{}
    case Look(r) =>
      var verdict := Judge(r.op, r.actorRole, TargetIn(db, r.op));
      if verdict.Ok? then multiset{Allowed(r.op, r.actorRole, verdict.value)} else multiset{}
    case Clear(o, a) => multiset{Dissolving(o, a)}
    case _ => multiset{}
  }

  function Takes(e: Event): multiset<Request> { if e.Look? || e.Land? then multiset{e.request} else multiset{} }

  function Next(s: Sys, e: Event): Sys
    requires Enabled(s, e)
  {
    Sys(NextDb(s.db, e), s.waiting - Takes(e) + Adds(s.db, e))
  }

  predicate IsRun(states: seq<Sys>, events: seq<Event>) {
    && |states| == |events| + 1
    && states[0] == Sys(EMPTY, multiset{})
    && forall n :: 0 <= n < |events| ==> Enabled(states[n], events[n]) && states[n + 1] == Next(states[n], events[n])
  }

  lemma RunLength(states: seq<Sys>, events: seq<Event>)
    requires IsRun(states, events)
    ensures |states| == |events| + 1
  {
  }

  /** The steps of a checked operation, taken back to back, are the whole operation. */
  lemma StepsAreWhole(s: Sys, op: Guarded)
    requires Check(s.db, op).Ok?
    ensures var r := Check(s.db, op).value;
      && r.Allowed? && Enabled(s, Begin(op))
      && var t := Next(s, Begin(op));
         && Enabled(t, Look(Asked(op, r.actorRole)))
         && var u := Next(t, Look(Asked(op, r.actorRole)));
            Enabled(u, Land(r)) && Next(u, Land(r)) == Next(s, Whole(op)) && Carry(u.db, r).1 == Do(s.db, op).1
  {
    hide Judge, Carry;
    var r := Check(s.db, op).value;
    var t := Next(s, Begin(op));
    assert t.waiting - multiset{Asked(op, r.actorRole)} == s.waiting;
    var u := Next(t, Look(Asked(op, r.actorRole)));
    assert u.waiting - multiset{r} == s.waiting;
  }

  lemma DissolveStepsAreWhole(s: Sys, o: int, a: int)
    ensures var t := Next(s, Clear(o, a));
      Enabled(t, Land(Dissolving(o, a))) && Next(t, Land(Dissolving(o, a))) == Next(s, Whole(DissolveOrg(o, a)))
  {
    hide Cleared, Left;
    var t := Next(s, Clear(o, a));
    assert t.waiting - multiset{Dissolving(o, a)} == s.waiting;
  }

  // ---- what every reachable state keeps ----

  /** w owns o, and nobody else does. */
  predicate OwnedBy(db: Db, o: int, w: int) {
    && Seat(o, w) in db.members && db.members[Seat(o, w)].role.Owner?
    && forall s :: s in db.members && s.org == o && db.members[s].role.Owner? ==> s.account == w
  }

  predicate NoMembers(db: Db, o: int) { forall s :: s in db.members ==> s.org != o }

  predicate NonePending(db: Db, o: int) {
    forall id :: id in db.invites && db.invites[id].org == o ==> !Pending(db.invites[id])
  }

  /** No members, and no invite that could still be accepted. */
  predicate Deserted(db: Db, o: int) { NoMembers(db, o) && NonePending(db, o) }

  /** An allowed change or removal does not meet the owner's row. */
  predicate SparesOwner(db: Db, op: Guarded) {
    op.UpdateMember? || op.RemoveMember? ==> Seat(op.org, op.account) in db.members ==>
      !db.members[Seat(op.org, op.account)].role.Owner?
  }

  predicate Fair(db: Db, r: Request) {
    && (!r.Dissolving? ==> r.op.org < db.next)
    && (r.Allowed? ==> Judge(r.op, r.actorRole, Some(r.targetRole)).Ok? && SparesOwner(db, r.op))
  }

  predicate RowsSound(db: Db) {
    && 1 <= db.next
    && (forall k :: k in db.members ==> k.org < db.next)
    && (forall id :: id in db.invites ==> db.invites[id].org < db.next && !db.invites[id].role.Owner?)
  }

  /** Rows only of created organizations; nothing outside Ensure makes an owner. */
  predicate Sound(s: Sys) { RowsSound(s.db) && forall r :: r in s.waiting ==> Fair(s.db, r) }

  /** No owner appears in an organization that already exists. */
  predicate NoNewOwner(db: Db, t: Db) {
    && db.next <= t.next
    && forall k :: k in t.members && k.org < db.next && t.members[k].role.Owner? ==>
         k in db.members && db.members[k].role.Owner?
  }

  lemma JudgeFair(db: Db, op: Guarded, actorRole: Role)
    requires op.org < db.next
    requires Judge(op, actorRole, TargetIn(db, op)).Ok?
    ensures Fair(db, Allowed(op, actorRole, Judge(op, actorRole, TargetIn(db, op)).value))
  {
  }

  lemma CheckFair(db: Db, op: Guarded)
    requires RowsSound(db) && Check(db, op).Ok?
    ensures Check(db, op).value.Allowed? && Check(db, op).value.op == op && Fair(db, Check(db, op).value)
  {
    hide Judge, Fair;
    JudgeFair(db, op, RoleIn(db, op.org, op.actor).value);
  }

  lemma WriteSound(db: Db, op: Guarded, actorRole: Role, target: Role)
    requires RowsSound(db) && Fair(db, Allowed(op, actorRole, target))
    ensures RowsSound(Write(db, op).0) && NoNewOwner(db, Write(db, op).0)
  {
  }

  lemma CarrySound(db: Db, r: Request)
    requires RowsSound(db) && !r.Asked? && Fair(db, r)
    ensures RowsSound(Carry(db, r).0) && NoNewOwner(db, Carry(db, r).0)
  {
    hide Write, Fair;
    if r.Allowed? {
      WriteSound(db, r.op, r.actorRole, r.targetRole);
    }
  }

  lemma AcceptSound(db: Db, token: string, a: int, now: int)
    requires RowsSound(db)
    ensures RowsSound(Accept(db, token, a, now).0) && NoNewOwner(db, Accept(db, token, a, now).0)
  {
  }

  lemma ClearedSound(db: Db, o: int)
    requires RowsSound(db)
    ensures RowsSound(Cleared(db, o)) && Cleared(db, o).members == db.members && Cleared(db, o).next == db.next
  {
  }

  lemma LeftSound(db: Db, o: int, a: int)
    requires RowsSound(db)
    ensures RowsSound(Left(db, o, a)) && NoNewOwner(db, Left(db, o, a))
  {
  }

  lemma DoSound(db: Db, op: Op)
    requires RowsSound(db)
    ensures RowsSound(Do(db, op).0) && NoNewOwner(db, Do(db, op).0)
  {
    hide Check, Carry, Accept, Cleared, Left, Fair;
    match op
    case EnsureOrg(_, _, _) =>
    case DissolveOrg(o, a) =>
      ClearedSound(db, o);
      LeftSound(Cleared(db, o), o, a);
    case AcceptInvite(token, a, now) => AcceptSound(db, token, a, now);
    case _ =>
      if Check(db, op).Ok? {
        CheckFair(db, op);
        CarrySound(db, Check(db, op).value);
      }
  }

  lemma FairKept(db: Db, t: Db, r: Request)
    requires NoNewOwner(db, t) && Fair(db, r)
    ensures Fair(t, r)
  {
    hide Judge;
  }

  lemma AddsFair(s: Sys, e: Event, r: Request)
    requires Sound(s) && Enabled(s, e) && r in Adds(s.db, e)
    ensures Fair(s.db, r)
  {
    hide Judge, TargetIn;
    match e
    case Look(q) =>
      assert Fair(s.db, q);
      JudgeFair(s.db, q.op, q.actorRole);
    case _ =>
  }

  lemma DbSound(s: Sys, e: Event)
    requires Sound(s) && Enabled(s, e)
    ensures RowsSound(NextDb(s.db, e)) && NoNewOwner(s.db, NextDb(s.db, e))
  {
    hide Do, Carry, Cleared, Fair;
    match e
    case Whole(op) => DoSound(s.db, op);
    case Clear(o, _) => ClearedSound(s.db, o);
    case Land(r) => CarrySound(s.db, r);
    case _ =>
  }

  lemma SoundStep(s: Sys, e: Event)
    requires Sound(s) && Enabled(s, e)
    ensures Sound(Next(s, e)) && NoNewOwner(s.db, Next(s, e).db)
  {
    hide NextDb, Adds, Fair, NoNewOwner, RowsSound;
    DbSound(s, e);
    forall r | r in Next(s, e).waiting
      ensures Fair(Next(s, e).db, r)
    {
      if r !in s.waiting {
        AddsFair(s, e, r);
      }
      FairKept(s.db, Next(s, e).db, r);
    }
  }

  lemma {:induction false} AlwaysSound(states: seq<Sys>, events: seq<Event>, n: nat)
    requires IsRun(states, events) && n <= |events|
    ensures Sound(states[n])
  {
    hide Next, Enabled;
    if n > 0 {
      AlwaysSound(states, events, n - 1);
      SoundStep(states[n - 1], events[n - 1]);
    }
  }

  // ---- founding ----

  /** Step n creates organization o with owner w. */
  predicate Founds(s: Sys, e: Event, o: int, w: int) {
    && e.Whole? && e.op.EnsureOrg? && e.op.owner == w
    && (e.op.product, e.op.ref) !in s.db.orgs && o == s.db.next
  }

  lemma FoundsOwned(s: Sys, e: Event, o: int, w: int)
    requires RowsSound(s.db) && Founds(s, e, o, w)
    ensures Enabled(s, e) && OwnedBy(Next(s, e).db, o, w) && o < Next(s, e).db.next
  {
  }

  lemma {:induction false} NextGrows(states: seq<Sys>, events: seq<Event>, m: nat, n: nat)
    requires IsRun(states, events) && m <= n <= |events|
    ensures states[m].db.next <= states[n].db.next
    decreases n
  {
    hide Next, Enabled, Sound;
    if m < n {
      NextGrows(states, events, m, n - 1);
      AlwaysSound(states, events, n - 1);
      SoundStep(states[n - 1], events[n - 1]);
    }
  }

  /** Every organization that exists was founded at some step of the run. */
  lemma {:induction false} Founding(states: seq<Sys>, events: seq<Event>, n: nat, o: int) returns (k: nat, w: int)
    requires IsRun(states, events) && n <= |events| && 1 <= o < states[n].db.next
    ensures k < n && Founds(states[k], events[k], o, w)
  {
    hide Enabled, Next;
    if o < states[n - 1].db.next {
      k, w := Founding(states, events, n - 1, o);
    } else {
      NextMoves(states[n - 1], events[n - 1]);
      k, w := n - 1, events[n - 1].op.owner;
    }
  }

  lemma WriteNext(db: Db, op: Guarded)
    ensures Write(db, op).0.next == db.next
  {
  }

  lemma NextMoves(s: Sys, e: Event)
    requires Enabled(s, e) && Next(s, e).db.next > s.db.next
    ensures e.Whole? && e.op.EnsureOrg? && Founds(s, e, s.db.next, e.op.owner)
    ensures Next(s, e).db.next == s.db.next + 1
  {
    hide Adds, Write, Judge, RoleIn, TargetIn;
    match e
    case Whole(op) => if ReadsRoles(op) { WriteNext(s.db, op); }
    case Land(r) => if r.Allowed? { WriteNext(s.db, r.op); }
    case _ =>
  }

  // ---- one owner or nobody ----

  ghost predicate Settled(db: Db, o: int) { Deserted(db, o) || exists w :: OwnedBy(db, o, w) }

  /** The step writes an allowed invite of o although o has no member any more. */
  predicate LateInvite(s: Sys, e: Event, o: int) {
    && e.Land? && e.request.Allowed? && e.request.op.CreateInvite? && e.request.op.org == o
    && e.request.op.id !in s.db.invites && e.request.op.token !in s.db.tokens
    && NoMembers(s.db, o)
  }

  /** The step is the second statement of a DissolveOrg; it removes the last member of o
      although an invite of o is pending. */
  predicate LeavesInvite(s: Sys, e: Event, o: int) {
    && e.Land? && e.request.Dissolving? && e.request.org == o
    && SeatsOf(s.db, o) == {Seat(o, e.request.actor)}
    && !NonePending(s.db, o)
  }

  predicate Keeps(s: Sys, e: Event, o: int) { !LateInvite(s, e, o) && !LeavesInvite(s, e, o) }

  lemma SoleSeat(db: Db, o: int, k: Seat)
    requires k in db.members && k.org == o
    ensures |SeatsOf(db, o)| == 1 <==> SeatsOf(db, o) == {k}
  {
    assert k in SeatsOf(db, o);
    var rest := SeatsOf(db, o) - {k};
    if |SeatsOf(db, o)| == 1 {
      assert |rest| == 0;
      assert SeatsOf(db, o) == rest + {k};
    }
  }

  /** The second statement of a DissolveOrg changes something only by removing the sole member. */
  lemma LeftExactly(db: Db, o: int, a: int)
    ensures SeatsOf(db, o) == {Seat(o, a)} ==> Left(db, o, a) == db.(members := db.members - {Seat(o, a)})
    ensures SeatsOf(db, o) != {Seat(o, a)} ==> Left(db, o, a) == db
  {
    if SeatsOf(db, o) == {Seat(o, a)} {
      assert Seat(o, a) in SeatsOf(db, o);
    }
    if Seat(o, a) in db.members {
      SoleSeat(db, o, Seat(o, a));
    }
  }

  lemma LeftOwned(db: Db, org: int, a: int, o: int, w: int)
    requires OwnedBy(db, o, w)
    ensures org == o && SeatsOf(db, o) == {Seat(o, a)} ==>
      NoMembers(Left(db, org, a), o) && Left(db, org, a).invites == db.invites
    ensures !(org == o && SeatsOf(db, o) == {Seat(o, a)}) ==> OwnedBy(Left(db, org, a), o, w)
  {
    LeftExactly(db, org, a);
    if org == o && SeatsOf(db, o) == {Seat(o, a)} {
      forall k | k in db.members && k.org == o
        ensures k == Seat(o, a)
      {
        assert k in SeatsOf(db, o);
      }
    } else if SeatsOf(db, org) == {Seat(org, a)} {
      assert Seat(o, w) in SeatsOf(db, o);
    }
  }

  lemma WriteOwned(db: Db, r: Request, o: int, w: int)
    requires OwnedBy(db, o, w) && r.Allowed? && Fair(db, r)
    ensures OwnedBy(Write(db, r.op).0, o, w)
  {
  }

  lemma AcceptOwned(db: Db, token: string, a: int, now: int, o: int, w: int)
    requires OwnedBy(db, o, w) && RowsSound(db)
    ensures OwnedBy(Accept(db, token, a, now).0, o, w)
  {
  }

  lemma ClearedPending(db: Db, o: int)
    ensures NonePending(Cleared(db, o), o) && SeatsOf(Cleared(db, o), o) == SeatsOf(db, o)
  {
  }

  lemma DissolveOwned(db: Db, org: int, a: int, o: int, w: int)
    requires OwnedBy(db, o, w)
    ensures var t := Left(Cleared(db, org), org, a); OwnedBy(t, o, w) || Deserted(t, o)
  {
    ClearedPending(db, org);
    LeftOwned(Cleared(db, org), org, a, o, w);
  }

  lemma DoOwned(db: Db, op: Op, o: int, w: int)
    requires OwnedBy(db, o, w) && RowsSound(db)
    ensures OwnedBy(Do(db, op).0, o, w) || Deserted(Do(db, op).0, o)
  {
    hide Check, Write, Accept, Cleared, Left, Deserted, Judge;
    match op
    case EnsureOrg(_, _, _) =>
    case DissolveOrg(org, a) => DissolveOwned(db, org, a, o, w);
    case AcceptInvite(token, a, now) => AcceptOwned(db, token, a, now, o, w);
    case _ =>
      if Check(db, op).Ok? {
        CheckFair(db, op);
        WriteOwned(db, Check(db, op).value, o, w);
      }
  }

  lemma OwnedStep(s: Sys, e: Event, o: int, w: int)
    requires Sound(s) && Enabled(s, e) && OwnedBy(s.db, o, w)
    ensures Keeps(s, e, o) ==> OwnedBy(Next(s, e).db, o, w) || Deserted(Next(s, e).db, o)
    ensures !Keeps(s, e, o) ==> NoMembers(Next(s, e).db, o) && !NonePending(Next(s, e).db, o)
  {
    hide Check, Write, Do, Judge, Left, Cleared;
    match e
    case Whole(op) => DoOwned(s.db, op, o, w);
    case Clear(org, _) => ClearedSound(s.db, org);
    case Land(r) =>
      assert Fair(s.db, r);
      if r.Allowed? {
        WriteOwned(s.db, r, o, w);
      } else {
        LeftOwned(s.db, r.org, r.actor, o, w);
      }
    case _ =>
  }

  lemma WriteDeserted(db: Db, op: Guarded, o: int)
    requires Deserted(db, o)
    ensures op.CreateInvite? && op.org == o && op.id !in db.invites && op.token !in db.tokens ==>
      !NonePending(Write(db, op).0, o) && NoMembers(Write(db, op).0, o)
    ensures !(op.CreateInvite? && op.org == o && op.id !in db.invites && op.token !in db.tokens) ==>
      Deserted(Write(db, op).0, o)
  {
    if op.CreateInvite? && op.org == o && op.id !in db.invites && op.token !in db.tokens {
      assert op.id in Write(db, op).0.invites;
    }
  }

  lemma LeftDeserted(db: Db, org: int, a: int, o: int)
    requires Deserted(db, o)
    ensures Deserted(Left(db, org, a), o) && Deserted(Cleared(db, org), o)
  {
  }

  lemma AcceptDeserted(db: Db, token: string, a: int, now: int, o: int)
    requires Deserted(db, o)
    ensures Deserted(Accept(db, token, a, now).0, o)
  {
  }

  lemma DoDeserted(db: Db, op: Op, o: int)
    requires Deserted(db, o) && o < db.next
    ensures Deserted(Do(db, op).0, o)
  {
    hide Judge, Write, Accept, Cleared, Left;
    match op
    case EnsureOrg(_, _, _) =>
    case DissolveOrg(org, a) =>
      LeftDeserted(db, org, a, o);
      LeftDeserted(Cleared(db, org), org, a, o);
    case AcceptInvite(token, a, now) => AcceptDeserted(db, token, a, now, o);
    case _ =>
      if Check(db, op).Ok? {
        WriteDeserted(db, op, o);
      }
  }

  lemma DesertedStep(s: Sys, e: Event, o: int)
    requires Enabled(s, e) && Deserted(s.db, o) && o < s.db.next
    ensures Keeps(s, e, o) ==> Deserted(Next(s, e).db, o)
    ensures !Keeps(s, e, o) ==> NoMembers(Next(s, e).db, o) && !NonePending(Next(s, e).db, o)
  {
    hide Check, Write, Do, Left, Cleared;
    match e
    case Whole(op) => DoDeserted(s.db, op, o);
    case Clear(org, a) => LeftDeserted(s.db, org, a, o);
    case Land(r) =>
      if r.Allowed? {
        WriteDeserted(s.db, r.op, o);
      } else {
        LeftDeserted(s.db, r.org, r.actor, o);
      }
    case _ =>
  }

  /** A settled organization stays settled at a step exactly when the step neither writes an
      invite into it after its last member left nor takes its last member off a pending invite. */
  lemma SettledStep(s: Sys, e: Event, o: int)
    requires Sound(s) && Enabled(s, e) && o < s.db.next && Settled(s.db, o)
    ensures Settled(Next(s, e).db, o) <==> Keeps(s, e, o)
  {
    hide Next, Enabled, Sound, Keeps;
    if Deserted(s.db, o) {
      DesertedStep(s, e, o);
    } else {
      var w :| OwnedBy(s.db, o, w);
      OwnedStep(s, e, o, w);
    }
  }

  /** Founded by w, organization o is in order: its founder is its one owner, or nobody is left. */
  predicate InOrder(db: Db, o: int, w: int) { OwnedBy(db, o, w) || Deserted(db, o) }

  lemma InOrderStep(s: Sys, e: Event, o: int, w: int)
    requires Sound(s) && Enabled(s, e) && o < s.db.next && InOrder(s.db, o, w)
    ensures InOrder(Next(s, e).db, o, w) <==> Keeps(s, e, o)
    ensures Deserted(s.db, o) && Keeps(s, e, o) ==> Deserted(Next(s, e).db, o)
  {
    hide Next, Enabled, Sound, Keeps;
    if Deserted(s.db, o) {
      DesertedStep(s, e, o);
    } else {
      OwnedStep(s, e, o, w);
    }
  }

  lemma FoundedInOrder(states: seq<Sys>, events: seq<Event>, k: nat, m: nat, o: int, w: int)
    requires IsRun(states, events) && k < m <= |events| && Founds(states[k], events[k], o, w)
    ensures InOrder(states[k + 1].db, o, w) && o < states[m].db.next && Sound(states[m])
  {
    hide Next, Enabled, RowsSound, Fair;
    AlwaysSound(states, events, k);
    AlwaysSound(states, events, m);
    FoundsOwned(states[k], events[k], o, w);
    NextGrows(states, events, k + 1, m);
  }

  /** From its founding on an organization is in order as long as, and only as long as, every
      step keeps it: over every run, however the operations overlap, all states up to the n-th
      are in order if and only if no step before is a late invite of that organization or takes
      its last member off a pending one. */
  lemma {:induction false} OneOwnerOrNobody(states: seq<Sys>, events: seq<Event>, k: nat, n: nat, o: int, w: int)
    requires IsRun(states, events) && k < n <= |events| && Founds(states[k], events[k], o, w)
    ensures (forall m :: k < m <= n ==> InOrder(states[m].db, o, w))
        <==> (forall m :: k < m < n ==> Keeps(states[m], events[m], o))
    decreases n
  {
    hide Next, Enabled, Sound, InOrder, Keeps, Founds;
    FoundedInOrder(states, events, k, n, o, w);
    if n > k + 1 {
      FoundedInOrder(states, events, k, n - 1, o, w);
      OneOwnerOrNobody(states, events, k, n - 1, o, w);
      if InOrder(states[n - 1].db, o, w) {
        InOrderStep(states[n - 1], events[n - 1], o, w);
      }
    }
  }

  /** Once deserted an organization stays so, under the same condition. */
  lemma {:induction false} DesertedForGood(states: seq<Sys>, events: seq<Event>, m: nat, n: nat, o: int)
    requires IsRun(states, events) && m <= n <= |events| && o < states[m].db.next && Deserted(states[m].db, o)
    requires forall j :: m <= j < n ==> Keeps(states[j], events[j], o)
    ensures Deserted(states[n].db, o)
    decreases n
  {
    hide Next, Enabled, Deserted, Keeps;
    if m < n {
      DesertedForGood(states, events, m, n - 1, o);
      NextGrows(states, events, m, n - 1);
      DesertedStep(states[n - 1], events[n - 1], o);
    }
  }

  // ---- invites over runs ----

  /** The step carries out request r: it lands, or runs uninterrupted. */
  predicate CarriesOut(s: Sys, e: Event, r: Request) {
    || e == Land(r)
    || (e.Whole? && ReadsRoles(e.op) && Check(s.db, e.op) == Ok(r))
    || (e.Whole? && e.op.DissolveOrg? && r == Dissolving(e.op.org, e.op.actor))
  }

  /** An invite keeps its offer, and once accepted or revoked it is final. */
  predicate Follows(a: Invite, b: Invite) {
    && a.org == b.org && a.role == b.role && a.grants == b.grants && a.inviter == b.inviter && a.expires == b.expires
    && (!Pending(a) ==> b == a)
  }

  predicate Kept(db: Db, t: Db, id: nat) {
    id in db.invites ==> id in t.invites && Follows(db.invites[id], t.invites[id])
  }

  /** r writes the invite id of db. */
  predicate Issues(db: Db, r: Request, id: nat) {
    r.Allowed? && r.op.CreateInvite? && r.op.id == id && id in db.invites && db.invites[id] == Offer(r.op)
  }

  lemma WriteKeeps(db: Db, r: Request, id: nat)
    requires r.Allowed?
    ensures Kept(db, Write(db, r.op).0, id)
    ensures id !in db.invites && id in Write(db, r.op).0.invites ==> Issues(Write(db, r.op).0, r, id)
  {
  }

  lemma AcceptKeeps(db: Db, token: string, a: int, now: int, id: nat)
    ensures Kept(db, Accept(db, token, a, now).0, id) && Accept(db, token, a, now).0.invites.Keys == db.invites.Keys
  {
  }

  lemma ClearedKeeps(db: Db, o: int, id: nat)
    ensures Kept(db, Cleared(db, o), id) && Cleared(db, o).invites.Keys == db.invites.Keys
  {
  }

  lemma LeftKeeps(db: Db, o: int, a: int)
    ensures Left(db, o, a).invites == db.invites
    ensures forall k :: k in Left(db, o, a).members ==> k in db.members && Left(db, o, a).members[k] == db.members[k]
  {
  }

  /** No step forgets an invite, alters its offer or revives it; new ones were allowed. */
  lemma InviteStep(s: Sys, e: Event, id: nat)
    requires Enabled(s, e)
    ensures Kept(s.db, Next(s, e).db, id)
    ensures id !in s.db.invites && id in Next(s, e).db.invites ==>
      exists r :: CarriesOut(s, e, r) && Issues(Next(s, e).db, r, id)
  {
    hide Check, Write, Accept, Cleared, Left, Adds, Judge, Offer;
    match e
    case Land(r) =>
      if r.Allowed? {
        WriteKeeps(s.db, r, id);
        assert CarriesOut(s, e, r);
      } else {
        LeftKeeps(s.db, r.org, r.actor);
      }
    case Clear(o, _) => ClearedKeeps(s.db, o, id);
    case Whole(op) =>
      match op {
        case EnsureOrg(_, _, _) =>
        case AcceptInvite(token, a, now) => AcceptKeeps(s.db, token, a, now, id);
        case DissolveOrg(o, actor) =>
          ClearedKeeps(s.db, o, id);
          LeftKeeps(Cleared(s.db, o), o, actor);
        case _ =>
          if Check(s.db, op).Ok? {
            CheckAllows(s.db, op);
            WriteKeeps(s.db, Check(s.db, op).value, id);
            assert CarriesOut(s, e, Check(s.db, op).value);
          }
      }
    case _ =>
  }

  lemma CheckAllows(db: Db, op: Guarded)
    requires Check(db, op).Ok?
    ensures var r := Check(db, op).value;
      r.Allowed? && r.op == op && RoleIn(db, op.org, op.actor) == Some(r.actorRole)
      && Judge(op, r.actorRole, TargetIn(db, op)) == Ok(r.targetRole)
  {
    hide Judge, RoleIn, TargetIn;
  }

  lemma {:induction false} InviteStays(states: seq<Sys>, events: seq<Event>, m: nat, n: nat, id: nat)
    requires IsRun(states, events) && m <= n <= |events|
    ensures Kept(states[m].db, states[n].db, id)
    decreases n
  {
    hide Next, Enabled;
    if m < n {
      InviteStays(states, events, m, n - 1, id);
      InviteStep(states[n - 1], events[n - 1], id);
    }
  }

  // ---- the two statements of DissolveOrg ----

  lemma NewlyDissolving(s: Sys, e: Event, o: int, a: int)
    requires Enabled(s, e) && Dissolving(o, a) in Next(s, e).waiting && Dissolving(o, a) !in s.waiting
    ensures e == Clear(o, a)
  {
    hide Next, RoleIn, Judge, TargetIn;
    NewlyWaiting(s, e, Dissolving(o, a));
  }

  lemma {:induction false} DissolvingOrigin(states: seq<Sys>, events: seq<Event>, n: nat, o: int, a: int) returns (r: nat)
    requires IsRun(states, events) && n <= |events| && Dissolving(o, a) in states[n].waiting
    ensures r < n && events[r] == Clear(o, a)
  {
    hide Next, Enabled;
    if Dissolving(o, a) in states[n - 1].waiting {
      r := DissolvingOrigin(states, events, n - 1, o, a);
    } else {
      NewlyDissolving(states[n - 1], events[n - 1], o, a);
      r := n - 1;
    }
  }

  /** Invites of o that were there at the revoking statement of step r cannot be pending later. */
  lemma RevokedForGood(states: seq<Sys>, events: seq<Event>, r: nat, n: nat, o: int, id: nat)
    requires IsRun(states, events) && r < n <= |events| && events[r].Clear? && events[r].org == o
    requires id in states[r].db.invites && states[r].db.invites[id].org == o
    ensures id in states[n].db.invites && states[n].db.invites[id].org == o && !Pending(states[n].db.invites[id])
  {
    hide Enabled, Judge, RoleIn;
    InviteStays(states, events, r + 1, n, id);
    assert states[r + 1].db == Cleared(states[r].db, o);
    ClearedPending(states[r].db, o);
  }

  lemma RemovalStep(s: Sys, o: int, a: int)
    requires Dissolving(o, a) in s.waiting && SeatsOf(s.db, o) == {Seat(o, a)}
    ensures var t := Next(s, Land(Dissolving(o, a))).db;
      NoMembers(t, o) && (Deserted(t, o) <==> NonePending(s.db, o))
  {
    LeftExactly(s.db, o, a);
    forall k | k in s.db.members && k.org == o
      ensures k == Seat(o, a)
    {
      assert k in SeatsOf(s.db, o);
    }
  }

  /** A dissolve revokes at r and removes the last member at d. It leaves the organization
      deserted if and only if every invite inserted in between is accepted or revoked by then;
      so inserting none is enough. */
  lemma RemovalExactly(states: seq<Sys>, events: seq<Event>, d: nat, o: int, a: int) returns (r: nat)
    requires IsRun(states, events) && d < |events| && events[d] == Land(Dissolving(o, a))
    requires SeatsOf(states[d].db, o) == {Seat(o, a)}
    ensures r < d && events[r] == Clear(o, a)
    ensures var was, db := states[r].db.invites, states[d].db.invites;
      Deserted(states[d + 1].db, o) <==> forall id :: id in db && id !in was && db[id].org == o ==> !Pending(db[id])
    ensures NoMembers(states[d + 1].db, o)
  {
    hide Next, SeatsOf, Deserted, NoMembers, Pending;
    r := DissolvingOrigin(states, events, d, o, a);
    RemovalStep(states[d], o, a);
    forall id | id in states[r].db.invites && states[r].db.invites[id].org == o
      ensures id in states[d].db.invites && !Pending(states[d].db.invites[id])
    {
      RevokedForGood(states, events, r, d, o, id);
    }
    forall id | id in states[r].db.invites
      ensures id in states[d].db.invites && states[d].db.invites[id].org == states[r].db.invites[id].org
    {
      InviteStays(states, events, r, d, id);
    }
  }

  /** The step inserts an invite of o only while o has a member and no dissolve of o is
      between its two statements. */
  predicate Quiet(s: Sys, e: Event, o: int)
    requires Enabled(s, e)
  {
    var t := Next(s, e).db.invites;
    (exists id :: id in t && id !in s.db.invites && t[id].org == o) ==>
      !NoMembers(s.db, o) && forall r :: r in s.waiting && r.Dissolving? ==> r.org != o
  }

  /** While a dissolve of o is between its statements, no invite of o is pending. */
  predicate DissolvesClean(s: Sys, o: int) {
    forall r :: r in s.waiting && r.Dissolving? && r.org == o ==> NonePending(s.db, o)
  }

  lemma QuietKeeps(s: Sys, e: Event, o: int)
    requires Enabled(s, e) && DissolvesClean(s, o) && Quiet(s, e, o)
    ensures Keeps(s, e, o) && DissolvesClean(Next(s, e), o)
  {
    QuietInTime(s, e, o);
    QuietClean(s, e, o);
  }

  lemma QuietInTime(s: Sys, e: Event, o: int)
    requires Enabled(s, e) && DissolvesClean(s, o) && Quiet(s, e, o)
    ensures Keeps(s, e, o)
  {
    hide SeatsOf, NoMembers, NonePending, Left;
  }

  lemma QuietClean(s: Sys, e: Event, o: int)
    requires Enabled(s, e) && DissolvesClean(s, o) && Quiet(s, e, o)
    ensures DissolvesClean(Next(s, e), o)
  {
    hide NextDb, RoleIn, Judge, Pending;
    forall r | r in Next(s, e).waiting && r.Dissolving? && r.org == o
      ensures NonePending(Next(s, e).db, o)
    {
      if r in s.waiting {
        forall id | id in Next(s, e).db.invites && Next(s, e).db.invites[id].org == o
          ensures !Pending(Next(s, e).db.invites[id])
        {
          InviteStep(s, e, id);
        }
      } else {
        CleanNow(s, e, o);
      }
    }
  }

  lemma CleanNow(s: Sys, e: Event, o: int)
    requires Enabled(s, e) && e.Clear? && e.org == o
    ensures NonePending(Next(s, e).db, o)
  {
    ClearedPending(s.db, o);
  }

  lemma FoundsClean(s: Sys, e: Event, o: int, w: int)
    requires RowsSound(s.db) && Founds(s, e, o, w)
    ensures Enabled(s, e) && DissolvesClean(Next(s, e), o)
  {
  }

  /** If no invite of o is ever inserted late or in the middle of a dissolve of o, every
      state is in order. */
  lemma {:induction false} QuietSuffices(states: seq<Sys>, events: seq<Event>, k: nat, n: nat, o: int, w: int)
    requires IsRun(states, events) && k < n <= |events| && Founds(states[k], events[k], o, w)
    requires forall m :: k < m < n ==> Quiet(states[m], events[m], o)
    ensures DissolvesClean(states[n], o) && InOrder(states[n].db, o, w)
    decreases n
  {
    hide Next, Enabled, InOrder, Quiet, Founds, DissolvesClean, Keeps, RowsSound, Fair;
    FoundedInOrder(states, events, k, n, o, w);
    if n == k + 1 {
      AlwaysSound(states, events, k);
      FoundsClean(states[k], events[k], o, w);
    } else {
      QuietSuffices(states, events, k, n - 1, o, w);
      FoundedInOrder(states, events, k, n - 1, o, w);
      QuietKeeps(states[n - 1], events[n - 1], o);
      InOrderStep(states[n - 1], events[n - 1], o, w);
    }
  }

  // ---- runs that break the rule ----

  const INVITING: Guarded := CreateInvite(1, 1, Member, map[], 72, 0, 7, "t")
  const INVITED := Allowed(INVITING, Owner, Owner)
  const INVITE := Invite(1, Member, map[], 1, 259200, None, false)

  function Shop(members: map<Seat, Membership>, invites: map<nat, Invite>, tokens: map<string, nat>): Db {
    Db(map[("tally", "shop") := 1], 2, members, invites, tokens)
  }

  const OWNER := map[Seat(1, 1) := Membership(Owner, map[])]

  lemma Extend(states: seq<Sys>, events: seq<Event>, e: Event, t: Sys) returns (longer: seq<Sys>, more: seq<Event>)
    requires IsRun(states, events) && Enabled(states[|events|], e) && t == Next(states[|events|], e)
    ensures IsRun(longer, more) && longer == states + [t] && more == events + [e]
    ensures longer[|more|] == t && states <= longer && events <= more
  {
    hide Enabled, Next;
    longer, more := states + [t], events + [e];
    forall n | 0 <= n < |more|
      ensures Enabled(longer[n], more[n]) && longer[n + 1] == Next(longer[n], more[n])
    {
      if n < |events| {
        assert states[n + 1] == Next(states[n], events[n]);
      }
    }
  }

  // The step of each event, written out.

  lemma NextWhole(s: Sys, op: Op)
    ensures Enabled(s, Whole(op)) && Next(s, Whole(op)) == Sys(Do(s.db, op).0, s.waiting)
  {
    hide Do;
  }

  lemma NextBegin(s: Sys, op: Guarded, role: Role)
    requires RoleIn(s.db, op.org, op.actor) == Some(role)
    ensures Enabled(s, Begin(op)) && Next(s, Begin(op)) == Sys(s.db, s.waiting + multiset{Asked(op, role)})
  {
    hide RoleIn;
  }

  lemma NextLook(s: Sys, r: Request, target: Role)
    requires r in s.waiting && r.Asked? && Judge(r.op, r.actorRole, TargetIn(s.db, r.op)) == Ok(target)
    ensures Enabled(s, Look(r))
    ensures Next(s, Look(r)) == Sys(s.db, s.waiting - multiset{r} + multiset{Allowed(r.op, r.actorRole, target)})
  {
    hide Judge, TargetIn;
  }

  lemma NextClear(s: Sys, o: int, a: int)
    ensures Enabled(s, Clear(o, a)) && Next(s, Clear(o, a)) == Sys(Cleared(s.db, o), s.waiting + multiset{Dissolving(o, a)})
  {
    hide Cleared;
  }

  lemma NextLand(s: Sys, r: Request)
    requires r in s.waiting && !r.Asked?
    ensures Enabled(s, Land(r)) && Next(s, Land(r)) == Sys(Carry(s.db, r).0, s.waiting - multiset{r})
  {
    hide Carry;
  }

  /** A run of nothing. */
  lemma Start() returns (states: seq<Sys>, events: seq<Event>)
    ensures IsRun(states, events) && states[|events|] == Sys(EMPTY, multiset{})
  {
    states, events := [Sys(EMPTY, multiset{})], [];
  }

  /** Drives the run by one uninterrupted operation. */
  lemma ExtendWhole(states: seq<Sys>, events: seq<Event>, op: Op) returns (longer: seq<Sys>, more: seq<Event>)
    requires IsRun(states, events)
    ensures |states| == |events| + 1 && IsRun(longer, more) && more == events + [Whole(op)] && states <= longer
    ensures longer[|more|] == Sys(Do(states[|events|].db, op).0, states[|events|].waiting)
  {
    hide Next, Enabled, Do, IsRun;
    RunLength(states, events);
    var s := states[|events|];
    NextWhole(s, op);
    longer, more := Extend(states, events, Whole(op), Sys(Do(s.db, op).0, s.waiting));
  }

  /** Drives the run by a checked operation up to its write. */
  lemma ExtendAllowed(states: seq<Sys>, events: seq<Event>, op: Guarded, role: Role, target: Role)
    returns (longer: seq<Sys>, more: seq<Event>)
    requires IsRun(states, events) && |states| == |events| + 1
    requires RoleIn(states[|events|].db, op.org, op.actor) == Some(role)
    requires Judge(op, role, TargetIn(states[|events|].db, op)) == Ok(target)
    ensures IsRun(longer, more) && more == events + [Begin(op), Look(Asked(op, role))] && states <= longer
    ensures longer[|more|] ==
      Sys(states[|events|].db, states[|events|].waiting + multiset{Allowed(op, role, target)})
  {
    hide Next, Enabled, IsRun, Judge, RoleIn, TargetIn;
    var s := states[|events|];
    var asked := Sys(s.db, s.waiting + multiset{Asked(op, role)});
    NextBegin(s, op, role);
    longer, more := Extend(states, events, Begin(op), asked);
    RunLength(longer, more);
    NextLook(asked, Asked(op, role), target);
    assert asked.waiting - multiset{Asked(op, role)} == s.waiting;
    longer, more := Extend(longer, more, Look(Asked(op, role)), Sys(s.db, s.waiting + multiset{Allowed(op, role, target)}));
  }

  lemma ShopFounded()
    ensures Do(EMPTY, EnsureOrg("tally", "shop", 1)).0 == Shop(OWNER, map[], map[])
  {
  }

  lemma OwnerInvites(db: Db)
    requires db.members == OWNER
    ensures RoleIn(db, 1, 1) == Some(Owner) && Judge(INVITING, Owner, TargetIn(db, INVITING)) == Ok(Owner)
  {
  }

  /** The shop with its owner, whose invite has passed its checks. */
  lemma ShopInviting() returns (states: seq<Sys>, events: seq<Event>)
    ensures IsRun(states, events) && states[|events|] == Sys(Shop(OWNER, map[], map[]), multiset{INVITED})
  {
    hide IsRun, Do, RoleIn, TargetIn, Judge;
    states, events := Start();
    ShopFounded();
    states, events := ExtendWhole(states, events, EnsureOrg("tally", "shop", 1));
    RunLength(states, events);
    OwnerInvites(states[|events|].db);
    states, events := ExtendAllowed(states, events, INVITING, Owner, Owner);
  }

  lemma SoleLeaves(db: Db)
    requires db.members == OWNER
    ensures Left(db, 1, 1) == db.(members := map[])
  {
    assert SeatsOf(db, 1) == {Seat(1, 1)};
  }

  /** The invite is accepted where no member is left: a plain member alone. */
  lemma PlainMemberAlone(states: seq<Sys>, events: seq<Event>) returns (longer: seq<Sys>, more: seq<Event>)
    requires IsRun(states, events)
    requires states[|events|] == Sys(Shop(map[], map[7 := INVITE], map["t" := 7]), multiset{})
    ensures IsRun(longer, more) && Ownerless(longer[|more|].db) && states <= longer && events <= more
  {
    var t := Sys(Shop(map[Seat(1, 2) := Membership(Member, map[])], map[7 := INVITE.(accepted := Some(2))], map["t" := 7]),
                 multiset{});
    assert t == Next(states[|events|], Whole(AcceptInvite("t", 2, 1)));
    longer, more := Extend(states, events, Whole(AcceptInvite("t", 2, 1)), t);
    assert Seat(1, 2) in t.db.members;
  }

  ghost predicate Ownerless(db: Db) {
    Seat(1, 2) in db.members && db.members[Seat(1, 2)].role.Member? && !Settled(db, 1)
  }

  /** The invite is checked, the shop dissolved, the invite written and accepted. */
  lemma OwnerlessOrg() returns (states: seq<Sys>, events: seq<Event>)
    ensures IsRun(states, events) && Ownerless(states[|events|].db)
  {
    hide IsRun, Ownerless, Next, Enabled, Do, Carry;
    states, events := ShopInviting();
    RunLength(states, events);
    var s := states[|events|];
    EmptyDissolved(s.db);
    states, events := ExtendWhole(states, events, DissolveOrg(1, 1));
    RunLength(states, events);
    var t := states[|events|];
    InviteWritten(t.db);
    NextLand(t, INVITED);
    states, events := Extend(states, events, Land(INVITED), Sys(Shop(map[], map[7 := INVITE], map["t" := 7]), multiset{}));
    states, events := PlainMemberAlone(states, events);
  }

  lemma EmptyDissolved(db: Db)
    requires db == Shop(OWNER, map[], map[])
    ensures Do(db, DissolveOrg(1, 1)).0 == Shop(map[], map[], map[]) && Cleared(db, 1) == db
  {
    SoleLeaves(Cleared(db, 1));
  }

  lemma InviteWritten(db: Db)
    requires db.invites == map[] && db.tokens == map[]
    ensures Carry(db, INVITED).0 == db.(invites := map[7 := INVITE], tokens := map["t" := 7])
  {
  }

  /** The invite is written between the two statements of the dissolve. */
  lemma WrittenInBetween() returns (states: seq<Sys>, events: seq<Event>, n: nat)
    ensures IsRun(states, events) && |events| == n + 1 && events[n] == Land(INVITED)
    ensures states[n].db == Shop(OWNER, map[], map[])
    ensures states[n + 1] == Sys(Shop(OWNER, map[7 := INVITE], map["t" := 7]), multiset{Dissolving(1, 1)})
  {
    hide IsRun, Next, Enabled, Do, Carry, Cleared;
    states, events := ShopInviting();
    RunLength(states, events);
    n := |events| + 1;
    var s := states[|events|];
    EmptyDissolved(s.db);
    NextClear(s, 1, 1);
    var t := Sys(s.db, multiset{INVITED, Dissolving(1, 1)});
    states, events := Extend(states, events, Clear(1, 1), t);
    RunLength(states, events);
    InviteWritten(t.db);
    NextLand(t, INVITED);
    var u := Sys(Shop(OWNER, map[7 := INVITE], map["t" := 7]), multiset{Dissolving(1, 1)});
    states, events := Extend(states, events, Land(INVITED), u);
    RunLength(states, events);
  }

  /** The owner is still seated when the invite is written between the two statements of the
      dissolve, so asking for a member at the insert would not help: the shop ends ownerless. */
  lemma DissolveRace() returns (states: seq<Sys>, events: seq<Event>, n: nat)
    ensures IsRun(states, events) && Ownerless(states[|events|].db)
    ensures n < |events| && events[n] == Land(INVITED) && Keeps(states[n], events[n], 1)
    ensures OwnedBy(states[n].db, 1, 1)
  {
    hide IsRun, Ownerless, Keeps, OwnedBy, Next, Enabled, Left;
    states, events, n := WrittenInBetween();
    RunLength(states, events);
    OwnerSeated(states[n]);
    var u := states[n + 1];
    var v := Sys(Shop(map[], map[7 := INVITE], map["t" := 7]), multiset{});
    SoleLeaves(u.db);
    NextLand(u, Dissolving(1, 1));
    states, events := Extend(states, events, Land(Dissolving(1, 1)), v);
    states, events := PlainMemberAlone(states, events);
    RunLength(states, events);
  }

  lemma OwnerSeated(s: Sys)
    requires s.db.members == OWNER
    ensures Keeps(s, Land(INVITED), 1) && OwnedBy(s.db, 1, 1)
  {
    assert Seat(1, 1) in s.db.members;
  }

  // ---- who may touch an admin ----

  function RoleOf(db: Db, k: Seat): Role { if k in db.members then db.members[k].role else Other("") }

  predicate RowChanges(db: Db, t: Db, k: Seat) {
    k in db.members && (k !in t.members || t.members[k] != db.members[k])
  }

  /** r is about the row of k. */
  predicate Aims(r: Request, k: Seat) {
    match r
    case Asked(_, _) => false
    case Allowed(op, _, _) => (op.UpdateMember? || op.RemoveMember?) && Seat(op.org, op.account) == k
    case Dissolving(o, a) => Seat(o, a) == k
  }

  /** The rule: an admin's row changes by the owner's decision, by the admin leaving, or by
      dissolving as the last member. */
  predicate ByRule(db: Db, r: Request, k: Seat) {
    match r
    case Asked(_, _) => false
    case Allowed(op, actorRole, _) => actorRole.Owner? || (op.RemoveMember? && op.actor == op.account)
    case Dissolving(o, _) => SeatsOf(db, o) == {k}
  }

  /** A mere admin's change of somebody else's row, allowed because the row was not an admin's
      when it was read. */
  predicate Stale(r: Request) {
    && r.Allowed? && r.actorRole.Admin? && !r.targetRole.Admin?
    && (r.op.UpdateMember? || (r.op.RemoveMember? && r.op.actor != r.op.account))
  }

  lemma WriteChanges(db: Db, r: Request, k: Seat)
    requires r.Allowed? && Fair(db, r) && RoleOf(db, k).Admin? && RowChanges(db, Write(db, r.op).0, k)
    ensures Aims(r, k) && (ByRule(db, r, k) <==> !Stale(r))
  {
  }

  lemma CheckNotStale(db: Db, op: Guarded, k: Seat)
    requires Check(db, op).Ok? && RoleOf(db, k).Admin? && Aims(Check(db, op).value, k)
    ensures !Stale(Check(db, op).value)
  {
    assert k == Seat(op.org, op.account);
  }

  lemma LeftChanges(db: Db, o: int, a: int, k: Seat)
    requires RowChanges(db, Left(db, o, a), k)
    ensures Aims(Dissolving(o, a), k) && ByRule(db, Dissolving(o, a), k)
  {
    LeftExactly(db, o, a);
  }

  lemma AcceptLeavesRows(db: Db, token: string, a: int, now: int, k: Seat)
    ensures !RowChanges(db, Accept(db, token, a, now).0, k)
  {
  }

  lemma ClearedLeavesRows(db: Db, o: int)
    ensures Cleared(db, o).members == db.members && forall x :: SeatsOf(Cleared(db, o), x) == SeatsOf(db, x)
  {
  }

  lemma WholeByRule(db: Db, op: Op, k: Seat) returns (r: Request)
    requires RowsSound(db) && RoleOf(db, k).Admin? && RowChanges(db, Do(db, op).0, k)
    ensures (ReadsRoles(op) && Check(db, op) == Ok(r)) || (op.DissolveOrg? && r == Dissolving(op.org, op.actor))
    ensures Aims(r, k) && ByRule(db, r, k) && !Stale(r)
  {
    hide Check, Write, Accept, Cleared, Left, Fair, ByRule, Stale, Aims;
    match op
    case EnsureOrg(product, ref, owner) => EnsureLeavesRows(db, product, ref, owner, k);
    case DissolveOrg(o, a) =>
      ClearedLeavesRows(db, o);
      LeftChanges(Cleared(db, o), o, a, k);
      r := Dissolving(o, a);
      ByRuleCleared(db, o, r, k);
    case AcceptInvite(token, a, now) => AcceptLeavesRows(db, token, a, now, k);
    case _ =>
      CheckedByRule(db, op, k);
      r := Check(db, op).value;
  }

  lemma CheckedByRule(db: Db, op: Guarded, k: Seat)
    requires RowsSound(db) && RoleOf(db, k).Admin?
    ensures Check(db, op).Ok? && RowChanges(db, Carry(db, Check(db, op).value).0, k) ==>
      Aims(Check(db, op).value, k) && ByRule(db, Check(db, op).value, k) && !Stale(Check(db, op).value)
  {
    hide Check, Write, ByRule, Stale, Aims, RowChanges;
    if Check(db, op).Ok? {
      CheckFair(db, op);
      if RowChanges(db, Write(db, op).0, k) {
        WriteChanges(db, Check(db, op).value, k);
        CheckNotStale(db, op, k);
      }
    }
  }

  lemma EnsureLeavesRows(db: Db, product: string, ref: string, owner: int, k: Seat)
    requires RowsSound(db)
    ensures !RowChanges(db, Ensure(db, product, ref, owner).0, k)
  {
  }

  lemma ByRuleCleared(db: Db, o: int, r: Request, k: Seat)
    requires r.Dissolving? && ByRule(Cleared(db, o), r, k)
    ensures ByRule(db, r, k) && !Stale(r)
  {
    ClearedLeavesRows(db, r.org);
    ClearedLeavesRows(db, o);
  }

  /** In every reachable state, a step that changes or removes an admin's row carries out one
      request, and it keeps the rule if and only if that request is not stale. An uninterrupted
      operation is never stale. */
  lemma AdminRuleExactly(s: Sys, e: Event, k: Seat) returns (r: Request)
    requires Sound(s) && Enabled(s, e) && RoleOf(s.db, k).Admin? && RowChanges(s.db, Next(s, e).db, k)
    ensures CarriesOut(s, e, r) && Aims(r, k)
    ensures ByRule(s.db, r, k) <==> !Stale(r)
    ensures e.Whole? ==> !Stale(r)
  {
    hide Check, Write, Do, Cleared, Left, Fair, ByRule, Stale, RowsSound, Aims;
    match e
    case Whole(op) => r := WholeByRule(s.db, op, k);
    case Land(q) =>
      r := q;
      if q.Allowed? {
        WriteChanges(s.db, q, k);
      } else {
        LeftChanges(s.db, q.org, q.actor, k);
        NotStale(q);
      }
    case Clear(o, _) => ClearedLeavesRows(s.db, o);
    case _ =>
  }

  lemma NotStale(r: Request)
    requires !r.Allowed?
    ensures !Stale(r)
  {
  }

  /** At i the actor's role was read, at j the target's, and r was allowed on the two. */
  predicate ReadAt(states: seq<Sys>, i: nat, j: nat, r: Request) {
    && i <= j < |states| && r.Allowed?
    && RoleIn(states[i].db, r.op.org, r.op.actor) == Some(r.actorRole)
    && Judge(r.op, r.actorRole, TargetIn(states[j].db, r.op)) == Ok(r.targetRole)
  }

  /** A request new in a state was put there by the step that says so. */
  lemma NewlyWaiting(s: Sys, e: Event, r: Request)
    requires Enabled(s, e) && r in Next(s, e).waiting && r !in s.waiting
    ensures r in Adds(s.db, e)
  {
    hide NextDb, Adds;
  }

  lemma NewlyAsked(s: Sys, e: Event, r: Request)
    requires Enabled(s, e) && r.Asked? && r in Next(s, e).waiting && r !in s.waiting
    ensures e == Begin(r.op) && RoleIn(s.db, r.op.org, r.op.actor) == Some(r.actorRole)
  {
    hide Next, RoleIn, Judge, TargetIn;
    NewlyWaiting(s, e, r);
  }

  lemma NewlyAllowed(s: Sys, e: Event, r: Request)
    requires Enabled(s, e) && r.Allowed? && r in Next(s, e).waiting && r !in s.waiting
    ensures e == Look(Asked(r.op, r.actorRole)) && Asked(r.op, r.actorRole) in s.waiting
    ensures Judge(r.op, r.actorRole, TargetIn(s.db, r.op)) == Ok(r.targetRole)
  {
    hide Next, RoleIn, Judge, TargetIn;
    NewlyWaiting(s, e, r);
  }

  lemma {:induction false} AskedOrigin(states: seq<Sys>, events: seq<Event>, n: nat, r: Request) returns (i: nat)
    requires IsRun(states, events) && n <= |events| && r.Asked? && r in states[n].waiting
    ensures i < n && events[i] == Begin(r.op) && RoleIn(states[i].db, r.op.org, r.op.actor) == Some(r.actorRole)
  {
    hide Next, Enabled, RoleIn;
    if r in states[n - 1].waiting {
      i := AskedOrigin(states, events, n - 1, r);
    } else {
      NewlyAsked(states[n - 1], events[n - 1], r);
      i := n - 1;
    }
  }

  lemma {:induction false} AllowedOrigin(states: seq<Sys>, events: seq<Event>, n: nat, r: Request) returns (i: nat, j: nat)
    requires IsRun(states, events) && n <= |events| && r.Allowed? && r in states[n].waiting
    ensures j < n && ReadAt(states, i, j, r) && events[i] == Begin(r.op) && events[j] == Look(Asked(r.op, r.actorRole))
  {
    hide Next, Enabled, RoleIn, Judge, TargetIn;
    if r in states[n - 1].waiting {
      i, j := AllowedOrigin(states, events, n - 1, r);
    } else {
      NewlyAllowed(states[n - 1], events[n - 1], r);
      j := n - 1;
      i := AskedOrigin(states, events, j, Asked(r.op, r.actorRole));
    }
  }

  /** Every write of a run was allowed on roles read earlier in it. */
  lemma RequestOrigin(states: seq<Sys>, events: seq<Event>, n: nat, r: Request) returns (i: nat, j: nat)
    requires IsRun(states, events) && n < |events| && r.Allowed? && CarriesOut(states[n], events[n], r)
    ensures j <= n && ReadAt(states, i, j, r)
  {
    hide Next, RoleIn, Judge, TargetIn, Check;
    if events[n] == Land(r) {
      i, j := AllowedOrigin(states, events, n, r);
    } else {
      i, j := n, n;
      CheckAllows(states[n].db, events[n].op);
    }
  }

  lemma JudgedTarget(op: Guarded, actorRole: Role, target: Option<Role>)
    requires Judge(op, actorRole, target).Ok?
    ensures op.UpdateMember? || op.RemoveMember? ==> target == Some(Judge(op, actorRole, target).value)
    ensures op.CreateInvite? ==> IsManager(actorRole) && !op.role.Owner? && (op.role.Admin? ==> actorRole.Owner?)
    ensures op.UpdateMember? && op.role.Admin? ==> actorRole.Owner?
  {
  }

  /** Over every run: when an admin's row changes at step n, one request does it, by the rule
      if and only if it is not stale; a stale one read the row as a non-admin's at an earlier
      step j, on behalf of an admin; and the owner whose decision the rule allows is the founder. */
  lemma AdminsOverRuns(states: seq<Sys>, events: seq<Event>, n: nat, k: Seat)
    returns (r: Request, i: nat, j: nat, birth: nat)
    requires IsRun(states, events) && n < |events|
    requires RoleOf(states[n].db, k).Admin? && RowChanges(states[n].db, states[n + 1].db, k)
    ensures CarriesOut(states[n], events[n], r) && Aims(r, k)
    ensures ByRule(states[n].db, r, k) <==> !Stale(r)
    ensures r.Allowed? ==> j <= n && ReadAt(states, i, j, r) && RoleOf(states[j].db, k) == r.targetRole
    ensures Stale(r) ==> j < n
    ensures r.Allowed? && r.actorRole.Owner? ==> birth < i && Founds(states[birth], events[birth], k.org, r.op.actor)
  {
    hide Next, Stale, ByRule, CarriesOut, RowChanges, Sound, ReadAt, IsRun, Founds, RoleOf, Aims;
    StepOf(states, events, n);
    AlwaysSound(states, events, n);
    r := AdminRuleExactly(states[n], events[n], k);
    i, j, birth := 0, 0, 0;
    if r.Allowed? {
      i, j := RequestOrigin(states, events, n, r);
      Readings(states, i, j, r, k);
      assert |states| == |events| + 1;
      StaleEarlier(states, n, j, r, k);
      if r.actorRole.Owner? {
        birth := OwnersAreFounders(states, events, i, k.org, r.op.actor);
      }
    } else {
      NotStale(r);
    }
  }

  lemma Readings(states: seq<Sys>, i: nat, j: nat, r: Request, k: Seat)
    requires ReadAt(states, i, j, r) && Aims(r, k)
    ensures i <= j && RoleOf(states[j].db, k) == r.targetRole && RoleOf(states[i].db, Seat(k.org, r.op.actor)) == r.actorRole
  {
    hide Judge;
    JudgedTarget(r.op, r.actorRole, TargetIn(states[j].db, r.op));
  }

  lemma StaleEarlier(states: seq<Sys>, n: nat, j: nat, r: Request, k: Seat)
    requires r.Allowed? && n < |states| && RoleOf(states[n].db, k).Admin?
    requires j <= n && RoleOf(states[j].db, k) == r.targetRole
    ensures Stale(r) ==> j < n
  {
  }

  lemma StepOf(states: seq<Sys>, events: seq<Event>, n: nat)
    requires IsRun(states, events) && n < |events|
    ensures |states| == |events| + 1 && Enabled(states[n], events[n]) && states[n + 1] == Next(states[n], events[n])
  {
    hide Next, Enabled;
  }

  /** Without interruption, an admin's row changes only by the owner's hand, by leaving, or by
      dissolving as the last member. */
  lemma AdminsAreSafe(db: Db, op: Op, k: Seat)
    requires RowsSound(db) && RoleOf(db, k).Admin? && RowChanges(db, Do(db, op).0, k)
    ensures (op.UpdateMember? || op.RemoveMember? || op.DissolveOrg?) && op.org == k.org
    ensures op.DissolveOrg? ==> op.actor == k.account && SeatsOf(db, k.org) == {k}
    ensures !op.DissolveOrg? ==> op.account == k.account
    ensures !op.DissolveOrg? ==> RoleOf(db, Seat(k.org, op.actor)).Owner? || (op.RemoveMember? && op.actor == k.account)
  {
    hide Judge, Do, RowChanges, Stale, TargetIn;
    var r := WholeByRule(db, op, k);
  }

  /** The rule is broken by going on from any run that ends with an owner, an admin and a
      member of one organization: the admin's demotion of the member, checked while the target
      is one, lands after the owner has made the target an admin. */
  lemma AdminDemotedByAdmin(states: seq<Sys>, events: seq<Event>, o: int, boss: int, admin: int, target: int)
    returns (longer: seq<Sys>, more: seq<Event>, r: Request)
    requires IsRun(states, events) && boss != admin && admin != target && target != boss
    requires var db := states[|events|].db;
      RoleOf(db, Seat(o, boss)).Owner? && RoleOf(db, Seat(o, admin)).Admin? && RoleOf(db, Seat(o, target)).Member?
    ensures r == Allowed(UpdateMember(o, target, admin, Member, map[]), Admin, Member) && Stale(r)
    ensures IsRun(longer, more) && states <= longer && |longer| == |more| + 1 && |more| == |events| + 4
    ensures more[..|events| + 2] == events + [Begin(r.op), Look(Asked(r.op, Admin))]
    ensures more[|events| + 2] == Whole(UpdateMember(o, target, boss, Admin, map[]))
    ensures more[|events| + 3] == Land(r)
    ensures RoleOf(longer[|events| + 3].db, Seat(o, target)).Admin?
    ensures Do(longer[|events| + 3].db, r.op) == (longer[|events| + 3].db, Err(Forbidden))
    ensures RoleOf(longer[|more|].db, Seat(o, target)).Member?
  {
    hide IsRun, Enabled, Next, Do, Write, RoleOf, RoleIn, TargetIn, Judge;
    RunLength(states, events);
    var db := states[|events|].db;
    r := Allowed(UpdateMember(o, target, admin, Member, map[]), Admin, Member);
    DemotionJudged(db, o, admin, target);
    Promoted(db, o, boss, admin, target);
    longer, more := ExtendAllowed(states, events, r.op, Admin, Member);
    RunLength(longer, more);
    longer, more := ExtendWhole(longer, more, UpdateMember(o, target, boss, Admin, map[]));
    RunLength(longer, more);
    var u := longer[|more|];
    NextLand(u, r);
    longer, more := Extend(longer, more, Land(r), Sys(Write(u.db, r.op).0, u.waiting - multiset{r}));
    RunLength(longer, more);
  }

  lemma DemotionJudged(db: Db, o: int, admin: int, target: int)
    requires RoleOf(db, Seat(o, admin)).Admin? && RoleOf(db, Seat(o, target)).Member?
    ensures var op := UpdateMember(o, target, admin, Member, map[]);
      RoleIn(db, o, admin) == Some(Admin) && Judge(op, Admin, TargetIn(db, op)) == Ok(Member)
  {
  }

  lemma Promoted(db: Db, o: int, boss: int, admin: int, target: int)
    requires boss != admin && admin != target && target != boss
    requires RoleOf(db, Seat(o, boss)).Owner? && RoleOf(db, Seat(o, admin)).Admin? && RoleOf(db, Seat(o, target)).Member?
    ensures var t := Do(db, UpdateMember(o, target, boss, Admin, map[])).0;
      && RoleOf(t, Seat(o, target)).Admin?
      && Do(t, UpdateMember(o, target, admin, Member, map[])) == (t, Err(Forbidden))
      && RoleOf(Write(t, UpdateMember(o, target, admin, Member, map[])).0, Seat(o, target)).Member?
  {
  }

  /** Such a run: the founder of the shop invites an admin and a member, and both accept. */
  lemma StaffedShop() returns (states: seq<Sys>, events: seq<Event>)
    ensures IsRun(states, events)
    ensures var db := states[|events|].db;
      RoleOf(db, Seat(1, 1)).Owner? && RoleOf(db, Seat(1, 2)).Admin? && RoleOf(db, Seat(1, 3)).Member?
  {
    hide IsRun, Do;
    states, events := Start();
    ShopFounded();
    states, events := ExtendWhole(states, events, EnsureOrg("tally", "shop", 1));
    RunLength(states, events);
    Invited(states[|events|].db, Admin, 8, "a", 2);
    states, events := ExtendWhole(states, events, CreateInvite(1, 1, Admin, map[], 72, 0, 8, "a"));
    states, events := ExtendWhole(states, events, AcceptInvite("a", 2, 1));
    RunLength(states, events);
    Invited(states[|events|].db, Member, 9, "m", 3);
    states, events := ExtendWhole(states, events, CreateInvite(1, 1, Member, map[], 72, 0, 9, "m"));
    states, events := ExtendWhole(states, events, AcceptInvite("m", 3, 1));
    RunLength(states, events);
  }

  lemma Invited(db: Db, role: Role, id: nat, token: string, a: int)
    requires RoleOf(db, Seat(1, 1)).Owner? && Seat(1, a) !in db.members && id !in db.invites && token !in db.tokens
    requires role.Admin? || role.Member?
    ensures var t := Do(Do(db, CreateInvite(1, 1, role, map[], 72, 0, id, token)).0, AcceptInvite(token, a, 1)).0;
      t.members == db.members[Seat(1, a) := Membership(role, map[])]
      && t.invites.Keys == db.invites.Keys + {id} && t.tokens.Keys == db.tokens.Keys + {token}
  {
  }

  // ---- where owners and admins come from ----

  /** Owners are founders, however the operations overlap. */
  lemma {:induction false} OwnersAreFounders(states: seq<Sys>, events: seq<Event>, n: nat, o: int, a: int) returns (k: nat)
    requires IsRun(states, events) && n <= |events| && RoleOf(states[n].db, Seat(o, a)).Owner?
    ensures k < n && Founds(states[k], events[k], o, a)
  {
    hide Next, Enabled, Sound, Founds;
    AlwaysSound(states, events, n - 1);
    SoundStep(states[n - 1], events[n - 1]);
    SeatExists(states[n], o, a);
    if o < states[n - 1].db.next {
      k := OwnersAreFounders(states, events, n - 1, o, a);
    } else {
      k := n - 1;
      NewOwner(states[n - 1], events[n - 1], o, a);
    }
  }

  lemma SeatExists(s: Sys, o: int, a: int)
    requires Sound(s) && RoleOf(s.db, Seat(o, a)).Owner?
    ensures o < s.db.next
  {
    hide Fair;
  }

  lemma NewOwner(s: Sys, e: Event, o: int, a: int)
    requires Sound(s) && Enabled(s, e) && s.db.next <= o < Next(s, e).db.next && RoleOf(Next(s, e).db, Seat(o, a)).Owner?
    ensures Founds(s, e, o, a)
  {
    hide Judge, Check, Write, Accept, Fair;
    NextMoves(s, e);
  }

  /** Every invite was allowed to a manager by a request that read its role earlier. */
  lemma {:induction false} InviteOrigin(states: seq<Sys>, events: seq<Event>, n: nat, id: nat)
    returns (i: nat, op: Guarded, role: Role)
    requires IsRun(states, events) && n <= |events| && id in states[n].db.invites
    ensures i < n && op.CreateInvite? && op.id == id && RoleIn(states[i].db, op.org, op.actor) == Some(role)
    ensures IsManager(role) && !op.role.Owner? && (op.role.Admin? ==> role.Owner?)
    ensures Follows(Offer(op), states[n].db.invites[id])
  {
    hide Next, Enabled, CarriesOut, RoleIn, Judge, Follows, Offer;
    if id in states[n - 1].db.invites {
      i, op, role := InviteOrigin(states, events, n - 1, id);
      InviteStep(states[n - 1], events[n - 1], id);
      FollowsOn(Offer(op), states[n - 1].db, states[n].db, id);
    } else {
      InviteStep(states[n - 1], events[n - 1], id);
      var r :| CarriesOut(states[n - 1], events[n - 1], r) && Issues(states[n].db, r, id);
      var j;
      i, j := RequestOrigin(states, events, n - 1, r);
      op, role := r.op, r.actorRole;
      JudgedTarget(op, role, TargetIn(states[j].db, op));
      FollowsItself(Offer(op));
    }
  }

  lemma FollowsItself(offer: Invite)
    ensures Follows(offer, offer)
  {
  }

  lemma FollowsOn(offer: Invite, db: Db, t: Db, id: nat)
    requires id in db.invites && Follows(offer, db.invites[id]) && Kept(db, t, id)
    ensures id in t.invites && Follows(offer, t.invites[id])
  {
  }

  /** k accepted the admin invite id. */
  predicate AdminInvite(db: Db, id: nat, k: Seat) {
    && id in db.invites && db.invites[id].org == k.org
    && db.invites[id].role.Admin? && db.invites[id].accepted == Some(k.account)
  }

  /** The request by which k holds its role: a role change, or the invite k accepted. */
  predicate MakesAdmin(db: Db, op: Op, k: Seat) {
    || (op.UpdateMember? && Seat(op.org, op.account) == k && op.role.Admin?)
    || (op.CreateInvite? && op.org == k.org && op.role.Admin? && AdminInvite(db, op.id, k))
  }

  lemma WriteAdmin(db: Db, r: Request, k: Seat)
    requires r.Allowed? && RoleOf(Write(db, r.op).0, k).Admin? && !RoleOf(db, k).Admin?
    ensures r.op.UpdateMember? && Seat(r.op.org, r.op.account) == k && r.op.role.Admin?
  {
  }

  lemma AcceptAdmin(db: Db, token: string, a: int, now: int, k: Seat) returns (id: nat)
    requires RoleOf(Accept(db, token, a, now).0, k).Admin? && !RoleOf(db, k).Admin?
    ensures AdminInvite(Accept(db, token, a, now).0, id, k)
  {
    id := Opens(db, token).value;
  }

  /** A step that makes k an admin carries out a role change or an accept of an admin invite. */
  lemma AdminStep(s: Sys, e: Event, k: Seat) returns (r: Option<Request>, id: nat)
    requires Enabled(s, e) && RoleOf(Next(s, e).db, k).Admin? && !RoleOf(s.db, k).Admin?
    ensures r.Some? ==> CarriesOut(s, e, r.value) && r.value.Allowed? && r.value.op.UpdateMember?
    ensures r.Some? ==> MakesAdmin(Next(s, e).db, r.value.op, k)
    ensures r.None? ==> AdminInvite(Next(s, e).db, id, k)
  {
    hide Check, Write, Accept, Cleared, Left, Opens, AdminInvite;
    r, id := None, 0;
    match e
    case Land(q) =>
      if q.Allowed? {
        WriteAdmin(s.db, q, k);
        r := Some(q);
      } else {
        LeftKeeps(s.db, q.org, q.actor);
      }
    case Clear(o, _) => ClearedLeavesRows(s.db, o);
    case Whole(op) =>
      match op {
        case EnsureOrg(_, _, _) =>
        case AcceptInvite(token, a, now) => id := AcceptAdmin(s.db, token, a, now, k);
        case DissolveOrg(o, actor) =>
          ClearedLeavesRows(s.db, o);
          LeftKeeps(Cleared(s.db, o), o, actor);
        case _ =>
          if Check(s.db, op).Ok? {
            CheckAllows(s.db, op);
            r := Some(Check(s.db, op).value);
            WriteAdmin(s.db, r.value, k);
          }
      }
    case _ =>
  }

  lemma MadeKept(db: Db, t: Db, op: Op, k: Seat)
    requires MakesAdmin(db, op, k) && (op.CreateInvite? ==> Kept(db, t, op.id))
    ensures MakesAdmin(t, op, k)
  {
  }

  lemma {:induction false} AdminSource(states: seq<Sys>, events: seq<Event>, n: nat, k: Seat) returns (i: nat, op: Guarded)
    requires IsRun(states, events) && n <= |events| && RoleOf(states[n].db, k).Admin?
    ensures i < n && MakesAdmin(states[n].db, op, k) && RoleIn(states[i].db, op.org, op.actor) == Some(Owner)
  {
    hide Next, Enabled, CarriesOut, RoleIn, Judge, MakesAdmin, Follows, AdminInvite, Offer;
    if RoleOf(states[n - 1].db, k).Admin? {
      i, op := AdminSource(states, events, n - 1, k);
      if op.CreateInvite? {
        InviteStep(states[n - 1], events[n - 1], op.id);
      }
      MadeKept(states[n - 1].db, states[n].db, op, k);
    } else {
      var r, id := AdminStep(states[n - 1], events[n - 1], k);
      if r.Some? {
        var j;
        op := r.value.op;
        i, j := RequestOrigin(states, events, n - 1, r.value);
        JudgedTarget(op, r.value.actorRole, TargetIn(states[j].db, op));
        UpdateMakes(states[n].db, op, k);
      } else {
        AdminInviteRow(states[n].db, id, k);
        var role;
        i, op, role := InviteOrigin(states, events, n, id);
        InviteMakes(states[n].db, op, id, k);
      }
    }
  }

  lemma UpdateMakes(db: Db, op: Op, k: Seat)
    requires MakesAdmin(db, op, k) && op.UpdateMember?
    ensures op.role.Admin?
  {
  }

  lemma InviteMakes(db: Db, op: Op, id: nat, k: Seat)
    requires AdminInvite(db, id, k) && op.CreateInvite? && op.id == id && Follows(Offer(op), db.invites[id])
    ensures MakesAdmin(db, op, k) && op.role.Admin?
  {
  }

  lemma AdminInviteRow(db: Db, id: nat, k: Seat)
    requires AdminInvite(db, id, k)
    ensures id in db.invites
  {
  }

  /** Every admin of every reachable state was made one by the organization's founder: by a
      role change the founder requested, or by accepting an admin invite the founder issued. */
  lemma AdminsComeFromTheFounder(states: seq<Sys>, events: seq<Event>, n: nat, k: Seat)
    returns (i: nat, op: Guarded, birth: nat)
    requires IsRun(states, events) && n <= |events| && RoleOf(states[n].db, k).Admin?
    ensures MakesAdmin(states[n].db, op, k)
    ensures birth < i < n && Founds(states[birth], events[birth], k.org, op.actor)
  {
    hide IsRun, Founds;
    RunLength(states, events);
    i, op := AdminSource(states, events, n, k);
    birth := OwnersAreFounders(states, events, i, k.org, op.actor);
  }

  // ---- what a row holds ----

  /** The step carries out an allowed update of k to this role and these grants. */
  ghost predicate Updates(s: Sys, e: Event, k: Seat, row: Membership) {
    exists r :: CarriesOut(s, e, r) && UpdatesTo(r, k, row)
  }

  predicate UpdatesTo(r: Request, k: Seat, row: Membership) {
    r.Allowed? && r.op.UpdateMember? && Seat(r.op.org, r.op.account) == k && row == Membership(r.op.role, r.op.grants)
  }

  /** The step founds k's organization for k. */
  predicate Seats(s: Sys, e: Event, k: Seat, row: Membership) {
    Founds(s, e, k.org, k.account) && row == Membership(Owner, map[])
  }

  /** In the step k accepts a pending invite that offers this role and these grants. */
  predicate Joins(s: Sys, e: Event, k: Seat, row: Membership) {
    && e.Whole? && e.op.AcceptInvite? && e.op.account == k.account && Opens(s.db, e.op.token).Some?
    && var iv := s.db.invites[Opens(s.db, e.op.token).value];
       Pending(iv) && iv.org == k.org && row == Membership(iv.role, iv.grants)
  }

  /** The step writes row k. */
  ghost predicate WritesRow(s: Sys, e: Event, k: Seat, row: Membership) {
    Updates(s, e, k, row) || Seats(s, e, k, row) || Joins(s, e, k, row)
  }

  /** Row k is the same as before, and no update of it is carried out. */
  ghost predicate Untouched(s: Sys, e: Event, k: Seat)
    requires Enabled(s, e)
  {
    && k in s.db.members && k in Next(s, e).db.members && Next(s, e).db.members[k] == s.db.members[k]
    && !(exists row :: Updates(s, e, k, row))
  }

  lemma WriteRow(db: Db, r: Request, k: Seat)
    requires r.Allowed? && k in Write(db, r.op).0.members
    ensures k in db.members
    ensures UpdatesTo(r, k, Write(db, r.op).0.members[k])
      || (Write(db, r.op).0.members[k] == db.members[k] && !exists row :: UpdatesTo(r, k, row))
  {
  }

  lemma AllowedRow(s: Sys, e: Event, r: Request, k: Seat)
    requires CarriesOut(s, e, r) && r.Allowed? && k in Write(s.db, r.op).0.members
    ensures k in s.db.members
    ensures Updates(s, e, k, Write(s.db, r.op).0.members[k])
      || (Write(s.db, r.op).0.members[k] == s.db.members[k] && !exists row :: UpdatesTo(r, k, row))
  {
    hide CarriesOut, Write, UpdatesTo;
    WriteRow(s.db, r, k);
  }

  lemma OneRequest(s: Sys, e: Event, r: Request, q: Request)
    requires CarriesOut(s, e, r) && CarriesOut(s, e, q)
    ensures r == q
  {
  }

  lemma NothingCarried(s: Sys, e: Event, k: Seat)
    requires !e.Land? && !(e.Whole? && ReadsRoles(e.op))
    ensures !exists row :: Updates(s, e, k, row)
  {
    hide Check;
  }

  lemma DissolvingCarried(s: Sys, e: Event, k: Seat)
    requires e.Land? && e.request.Dissolving?
    ensures !exists row :: Updates(s, e, k, row)
  {
    hide Check;
  }

  lemma AcceptRow(s: Sys, e: Event, k: Seat)
    requires e.Whole? && e.op.AcceptInvite? && k in Accept(s.db, e.op.token, e.op.account, e.op.now).0.members
    ensures var t := Accept(s.db, e.op.token, e.op.account, e.op.now).0;
      (k in s.db.members && t.members[k] == s.db.members[k]) || Joins(s, e, k, t.members[k])
  {
  }

  lemma EnsureRow(s: Sys, e: Event, k: Seat)
    requires e.Whole? && e.op.EnsureOrg? && k in Ensure(s.db, e.op.product, e.op.ref, e.op.owner).0.members
    ensures var t := Ensure(s.db, e.op.product, e.op.ref, e.op.owner).0;
      (k in s.db.members && t.members[k] == s.db.members[k]) || Seats(s, e, k, t.members[k])
  {
  }

  lemma RowStep(s: Sys, e: Event, k: Seat)
    requires Enabled(s, e) && k in Next(s, e).db.members
    ensures Untouched(s, e, k) || WritesRow(s, e, k, Next(s, e).db.members[k])
  {
    hide Check, Write, Accept, Cleared, Left, Ensure, Updates, Seats, Joins, Adds, CarriesOut, UpdatesTo;
    match e
    case Land(r) =>
      if r.Allowed? {
        Lands(s, r);
        AllowedRow(s, e, r, k);
        OnlyThat(s, e, r, k);
      } else {
        LeftKeeps(s.db, r.org, r.actor);
        DissolvingCarried(s, e, k);
      }
    case Whole(op) =>
      match op {
        case EnsureOrg(_, _, _) => EnsureRow(s, e, k); NothingCarried(s, e, k);
        case AcceptInvite(token, a, now) => AcceptRow(s, e, k); NothingCarried(s, e, k);
        case DissolveOrg(o, actor) =>
          ClearedLeavesRows(s.db, o);
          LeftKeeps(Cleared(s.db, o), o, actor);
          NothingCarried(s, e, k);
        case _ => CheckedRow(s, op, k);
      }
    case Clear(o, _) => ClearedLeavesRows(s.db, o); NothingCarried(s, e, k);
    case _ => NothingCarried(s, e, k);
  }

  lemma Lands(s: Sys, r: Request)
    ensures CarriesOut(s, Land(r), r)
  {
  }

  lemma OnlyThat(s: Sys, e: Event, r: Request, k: Seat)
    requires CarriesOut(s, e, r)
    ensures (exists row :: Updates(s, e, k, row)) ==> exists row :: UpdatesTo(r, k, row)
  {
    hide CarriesOut, UpdatesTo;
    if exists row :: Updates(s, e, k, row) {
      var row :| Updates(s, e, k, row);
      var q :| CarriesOut(s, e, q) && UpdatesTo(q, k, row);
      OneRequest(s, e, r, q);
    }
  }

  lemma CheckedRow(s: Sys, op: Guarded, k: Seat)
    requires k in Next(s, Whole(op)).db.members
    ensures Untouched(s, Whole(op), k) || WritesRow(s, Whole(op), k, Next(s, Whole(op)).db.members[k])
  {
    hide Check, Write, Updates, Seats, Joins, CarriesOut, UpdatesTo;
    var e := Whole(op);
    if Check(s.db, op).Ok? {
      CheckAllows(s.db, op);
      var r := Check(s.db, op).value;
      Carries(s, op);
      AllowedRow(s, e, r, k);
      OnlyThat(s, e, r, k);
    } else {
      RefusedCarries(s, op, k);
    }
  }

  lemma Carries(s: Sys, op: Guarded)
    requires Check(s.db, op).Ok?
    ensures CarriesOut(s, Whole(op), Check(s.db, op).value)
  {
    hide Check;
  }

  lemma RefusedCarries(s: Sys, op: Guarded, k: Seat)
    requires Check(s.db, op).Err?
    ensures !exists row :: Updates(s, Whole(op), k, row)
  {
    hide Check;
  }

  /** Over every run, however the operations overlap: role and grants of a row are together
      those of the last update of it that landed, or else of the invite its account accepted, or
      the founder's. */
  lemma {:induction false} RowOrigin(states: seq<Sys>, events: seq<Event>, n: nat, k: Seat) returns (m: nat)
    requires IsRun(states, events) && n <= |events| && k in states[n].db.members
    ensures m < n && WritesRow(states[m], events[m], k, states[n].db.members[k])
    ensures forall j :: m < j < n ==> Enabled(states[j], events[j]) && Untouched(states[j], events[j], k)
    decreases n
  {
    hide Next, Enabled, WritesRow, Untouched;
    NoRowsAtStart(k);
    StepOf(states, events, n - 1);
    RowStep(states[n - 1], events[n - 1], k);
    if Untouched(states[n - 1], events[n - 1], k) {
      UntouchedRow(states[n - 1], events[n - 1], k);
      m := RowOrigin(states, events, n - 1, k);
    } else {
      m := n - 1;
    }
  }

  lemma NoRowsAtStart(k: Seat)
    ensures k !in EMPTY.members
  {
  }

  lemma UntouchedRow(s: Sys, e: Event, k: Seat)
    requires Enabled(s, e) && Untouched(s, e, k)
    ensures k in s.db.members && k in Next(s, e).db.members && Next(s, e).db.members[k] == s.db.members[k]
  {
  }

  // ---- what the answers mean ----

  /** After an update that answers Done, the member's next accept, with any token of the
      organization, answers with exactly the given role and grants. */
  lemma UpdateThenJoin(db: Db, o: int, a: int, actor: int, role: Role, grants: Grants, token: string, now: int)
    requires Do(db, UpdateMember(o, a, actor, role, grants)).1 == Ok(Done)
    requires Opens(db, token).Some? && db.invites[Opens(db, token).value].org == o
    ensures var t := Do(db, UpdateMember(o, a, actor, role, grants)).0;
      Do(t, AcceptInvite(token, a, now)) == (t, Ok(Joined(o, role, grants)))
  {
  }

  /** After a removal that answers Done, the account has no role, every other row and every
      invite are as before, and only a pending invite lets it in again. */
  lemma RemoveThenJoin(db: Db, o: int, a: int, actor: int, token: string, now: int)
    requires Do(db, RemoveMember(o, a, actor)).1 == Ok(Done)
    requires Opens(db, token).Some? && db.invites[Opens(db, token).value].org == o
    ensures var t := Do(db, RemoveMember(o, a, actor)).0;
      && RoleIn(t, o, a) == None && t.invites == db.invites
      && (forall b :: b != a ==> RoleIn(t, o, b) == RoleIn(db, o, b))
      && var iv := db.invites[Opens(db, token).value];
         Do(t, AcceptInvite(token, a, now)).1 ==
         if Pending(iv) && now < iv.expires then Ok(Joined(o, iv.role, iv.grants)) else Err(InviteInvalid)
  {
  }

  /** A created invite lets a newcomer in with the offered role and grants up to its lifetime:
      the hours asked for if they are 1 to 168, and 72 otherwise. */
  lemma InviteThenJoin(db: Db, o: int, actor: int, role: Role, grants: Grants, ttl: int, now: int, id: nat, token: string,
                       a: int, later: int)
    requires Do(db, CreateInvite(o, actor, role, grants, ttl, now, id, token)).1.Ok? && Seat(o, a) !in db.members
    ensures var (t, r) := Do(db, CreateInvite(o, actor, role, grants, ttl, now, id, token));
      var hours := if 1 <= ttl <= 168 then ttl else 72;
      && r == Ok(Created(id, now + 3600 * hours))
      && Do(t, AcceptInvite(token, a, later)).1 ==
         if later < now + 3600 * hours then Ok(Joined(o, role, grants)) else Err(InviteInvalid)
  {
  }

  /** A revocation answers Done exactly for a pending invite of the organization and a manager,
      and then the invite lets no newcomer in. */
  lemma RevokeThenJoin(db: Db, o: int, id: nat, actor: int, token: string, a: int, now: int)
    requires Opens(db, token) == Some(id) && Seat(db.invites[id].org, a) !in db.members
    ensures var (t, r) := Do(db, RevokeInvite(o, id, actor));
      && (r == Ok(Done) <==> RoleIn(db, o, actor) in {Some(Owner), Some(Admin)} && db.invites[id].org == o && Pending(db.invites[id]))
      && (r == Ok(Done) ==> Do(t, AcceptInvite(token, a, now)) == (t, Err(InviteInvalid)))
      && (r != Ok(Done) ==> t == db)
  {
  }

  /** An accept answers with the row the account has afterwards, exactly if it has one. */
  lemma AcceptAnswers(db: Db, token: string, a: int, now: int)
    ensures var (t, r) := Do(db, AcceptInvite(token, a, now));
      && (Opens(db, token).None? ==> r == Err(InviteInvalid))
      && (Opens(db, token).Some? ==>
            var k := Seat(db.invites[Opens(db, token).value].org, a);
            r == if k in t.members then Ok(Joined(k.org, t.members[k].role, t.members[k].grants)) else Err(InviteInvalid))
  {
  }

  /** A role the tables hold. */
  predicate Known(r: Option<Role>) { r in {None, Some(Owner), Some(Admin), Some(Member)} }

  /** Who may do what, as a table. */
  lemma Permissions(db: Db, op: Guarded)
    requires Known(RoleIn(db, op.org, op.actor)) && Known(TargetIn(db, op))
    ensures var actor, target := RoleIn(db, op.org, op.actor), TargetIn(db, op);
      Check(db, op).Ok? <==>
        match op
        case UpdateMember(_, _, _, role, _) =>
          (actor, target, role) in {
            (Some(Owner), Some(Admin), Admin), (Some(Owner), Some(Admin), Member), (Some(Owner), Some(Member), Admin),
            (Some(Owner), Some(Member), Member), (Some(Admin), Some(Member), Member)}
        case RemoveMember(_, a, b) =>
          (actor, target) in {(Some(Owner), Some(Admin)), (Some(Owner), Some(Member)), (Some(Admin), Some(Member))}
          || (a == b && target in {Some(Admin), Some(Member)})
        case CreateInvite(_, _, role, _, _, _, _, _) =>
          (actor, role) in {(Some(Owner), Admin), (Some(Owner), Member), (Some(Admin), Member)}
        case RevokeInvite(_, _, _) => actor in {Some(Owner), Some(Admin)}
  {
  }

  /** Which error a refused request gets: forbidden for outsiders, then no member for an absent
      target, last owner for removing the owner, invalid role where a member's role would be
      granted, for a role nobody has or an invite as owner, and forbidden otherwise. */
  lemma Refusals(db: Db, op: Guarded)
    requires Known(RoleIn(db, op.org, op.actor)) && Known(TargetIn(db, op)) && Check(db, op).Err?
    ensures Check(db, op).error == NotMember <==>
      (op.UpdateMember? || op.RemoveMember?) && RoleIn(db, op.org, op.actor).Some? && TargetIn(db, op).None?
    ensures Check(db, op).error == LastOwner <==>
      op.RemoveMember? && RoleIn(db, op.org, op.actor).Some? && TargetIn(db, op) == Some(Owner)
    ensures Check(db, op).error == InvalidRole <==>
      ((op.UpdateMember? && op.role.Other?) || (op.CreateInvite? && (op.role.Other? || op.role.Owner?)))
      && Check(db, AsMember(op)).Ok?
    ensures Check(db, op).error in {Forbidden, NotMember, LastOwner, InvalidRole}
  {
    SameReads(db, op);
  }

  lemma SameReads(db: Db, op: Guarded)
    ensures AsMember(op).org == op.org && AsMember(op).actor == op.actor && TargetIn(db, AsMember(op)) == TargetIn(db, op)
  {
  }

  /** The same request for the role of a member. */
  function AsMember(op: Guarded): Guarded {
    match op
    case UpdateMember(o, a, actor, _, grants) => UpdateMember(o, a, actor, Member, grants)
    case CreateInvite(o, actor, _, grants, ttl, now, id, token) => CreateInvite(o, actor, Member, grants, ttl, now, id, token)
    case _ => op
  }

  /** Rows and invites hold only known roles. */
  predicate KnownRoles(db: Db) {
    && (forall k :: k in db.members ==> db.members[k].role in {Owner, Admin, Member})
    && (forall id :: id in db.invites ==> db.invites[id].role in {Owner, Admin, Member})
  }

  lemma KnownWrite(db: Db, r: Request)
    requires KnownRoles(db) && r.Allowed? && Fair(db, r)
    ensures KnownRoles(Write(db, r.op).0)
  {
  }

  lemma KnownAccept(db: Db, token: string, a: int, now: int)
    requires KnownRoles(db)
    ensures KnownRoles(Accept(db, token, a, now).0)
  {
  }

  lemma KnownDo(db: Db, op: Op)
    requires KnownRoles(db) && RowsSound(db)
    ensures KnownRoles(Do(db, op).0)
  {
    hide Check, Write, Accept, Cleared, Left, Fair, RowsSound;
    match op
    case EnsureOrg(_, _, _) =>
    case DissolveOrg(o, a) =>
      KnownCleared(db, o);
      LeftKeeps(Cleared(db, o), o, a);
    case AcceptInvite(token, a, now) => KnownAccept(db, token, a, now);
    case _ =>
      if Check(db, op).Ok? {
        CheckFair(db, op);
        KnownWrite(db, Check(db, op).value);
      }
  }

  lemma KnownCleared(db: Db, o: int)
    requires KnownRoles(db)
    ensures KnownRoles(Cleared(db, o))
  {
  }

  lemma KnownStep(s: Sys, e: Event)
    requires Sound(s) && Enabled(s, e) && KnownRoles(s.db)
    ensures KnownRoles(Next(s, e).db)
  {
    hide Check, Write, Do, Cleared, Left, Fair, KnownRoles, Adds;
    match e
    case Whole(op) => KnownDo(s.db, op);
    case Clear(o, _) => KnownCleared(s.db, o);
    case Land(r) =>
      assert Fair(s.db, r);
      if r.Allowed? {
        KnownWrite(s.db, r);
      } else {
        KnownLeft(s.db, r.org, r.actor);
      }
    case _ =>
  }

  lemma KnownLeft(db: Db, o: int, a: int)
    requires KnownRoles(db)
    ensures KnownRoles(Left(db, o, a))
  {
    LeftKeeps(db, o, a);
  }

  /** So the table of permissions is about every reachable state. */
  lemma {:induction false} AlwaysKnown(states: seq<Sys>, events: seq<Event>, n: nat, o: int, a: int)
    requires IsRun(states, events) && n <= |events|
    ensures KnownRoles(states[n].db) && Known(RoleIn(states[n].db, o, a))
  {
    hide Next, Enabled, Sound;
    if n > 0 {
      AlwaysKnown(states, events, n - 1, o, a);
      AlwaysSound(states, events, n - 1);
      KnownStep(states[n - 1], events[n - 1]);
    }
  }

  // ---- one organization per reference ----

  predicate OneOrgEach(db: Db) {
    && (forall x :: x in db.orgs ==> 1 <= db.orgs[x] < db.next)
    && (forall x, y :: x in db.orgs && y in db.orgs && x != y ==> db.orgs[x] != db.orgs[y])
  }

  lemma OrgsStep(s: Sys, e: Event)
    requires Enabled(s, e)
    ensures var t := Next(s, e).db;
      && s.db.next <= t.next
      && (forall x :: x in s.db.orgs ==> x in t.orgs && t.orgs[x] == s.db.orgs[x])
      && (forall x :: x in t.orgs && x !in s.db.orgs ==> t.orgs[x] == s.db.next && t.next == s.db.next + 1)
      && (forall x, y :: x in t.orgs && y in t.orgs && x !in s.db.orgs && y !in s.db.orgs ==> x == y)
  {
    hide Judge, RoleIn, TargetIn, Adds, Write, Check;
    match e
    case Whole(op) => if ReadsRoles(op) && Check(s.db, op).Ok? { CheckAllows(s.db, op); WriteOrgs(s.db, op); }
    case Land(r) => if r.Allowed? { WriteOrgs(s.db, r.op); }
    case _ =>
  }

  lemma WriteOrgs(db: Db, op: Guarded)
    ensures Write(db, op).0.orgs == db.orgs && Write(db, op).0.next == db.next
  {
  }

  /** Over every run: an organization id, once given for a product and reference, stays, no other
      pair gets it, and EnsureOrg answers with it. */
  lemma {:induction false} OrgIdsStay(states: seq<Sys>, events: seq<Event>, m: nat, n: nat, x: (string, string), owner: int)
    requires IsRun(states, events) && m <= n <= |events|
    ensures OneOrgEach(states[n].db) && 1 <= states[n].db.next
    ensures x in states[m].db.orgs ==> x in states[n].db.orgs && states[n].db.orgs[x] == states[m].db.orgs[x]
    ensures x in states[m].db.orgs ==>
      Do(states[n].db, EnsureOrg(x.0, x.1, owner)) == (states[n].db, Ok(OrgId(states[m].db.orgs[x])))
    decreases n
  {
    hide Next, Enabled;
    if n > 0 {
      OrgIdsStay(states, events, if m < n then m else n - 1, n - 1, x, owner);
      OrgsStep(states[n - 1], events[n - 1]);
    }
  }

  // ---- an invite adds at most one member ----

  /** An accept that adds a member uses a pending invite in time, adds exactly the seat it
      offers, and leaves the invite final. */
  lemma AcceptSpends(db: Db, token: string, a: int, now: int)
    requires Accept(db, token, a, now).0 != db
    ensures var t := Accept(db, token, a, now).0;
      && Opens(db, token).Some?
      && var id := Opens(db, token).value;
         var iv := db.invites[id];
         && Pending(iv) && now < iv.expires && Seat(iv.org, a) !in db.members
         && t.members == db.members[Seat(iv.org, a) := Membership(iv.role, iv.grants)]
         && id in t.invites && !Pending(t.invites[id]) && t.invites[id].accepted == Some(a)
  {
  }

  /** Whatever happens in between, a token whose invite was accepted or revoked earlier in
      the run, or has expired, never changes a row again. */
  lemma SpentInviteAddsNobody(states: seq<Sys>, events: seq<Event>, k: nat, n: nat, token: string, a: int, now: int)
    requires IsRun(states, events) && k <= n <= |events| && Opens(states[n].db, token).Some?
    requires var id := Opens(states[n].db, token).value;
      (id in states[k].db.invites && !Pending(states[k].db.invites[id])) || now >= states[n].db.invites[id].expires
    ensures Accept(states[n].db, token, a, now).0 == states[n].db
  {
    hide IsRun, Accept;
    RunLength(states, events);
    var id := Opens(states[n].db, token).value;
    InviteStays(states, events, k, n, id);
    if Accept(states[n].db, token, a, now).0 != states[n].db {
      AcceptSpends(states[n].db, token, a, now);
    }
  }

  // ---- the client ----

  class DevOrgClient {
    var orgs: map<(string, string), int>
    var next: int
    var members: map<Seat, Membership>
    var invites: map<nat, Invite>
    var tokens: map<string, nat>

    function Tables(): Db
      reads this
    {
      Db(orgs, next, members, invites, tokens)
    }

    constructor ()
      ensures Tables() == EMPTY
    {
      orgs, next, members, invites, tokens := map[], 1, map[], map[], map[];
    }

    method RoleIn(org: int, account: int) returns (r: Result<Role>)
      ensures r == if Seat(org, account) in members then Ok(members[Seat(org, account)].role) else Err(NotMember)
    {
      if Seat(org, account) !in members {
        return Err(NotMember);
      }
      r := Ok(members[Seat(org, account)].role);
    }

    method EnsureOrg(product: string, ref: string, owner: int) returns (r: Result<Reply>)
      modifies this
      ensures (Tables(), r) == Do(old(Tables()), Op.EnsureOrg(product, ref, owner))
    {
      if (product, ref) in orgs {
        return Ok(OrgId(orgs[(product, ref)]));
      }
      var id := next;
      next := next + 1;
      orgs := orgs[(product, ref) := id];
      members := members[Seat(id, owner) := Membership(Owner, map[])];
      r := Ok(OrgId(id));
    }

    method UpdateMember(org: int, account: int, actor: int, role: Role, grants: Grants) returns (r: Result<Reply>)
      modifies `members
      ensures (Tables(), r) == Do(old(Tables()), Op.UpdateMember(org, account, actor, role, grants))
    {
      var actorRole := RoleIn(org, actor);
      if actorRole.Err? {
        return Err(Forbidden);
      }
      var targetRole := RoleIn(org, account);
      if targetRole.Err? {
        return Err(NotMember);
      }
      if !IsManager(actorRole.value) || targetRole.value.Owner? || role.Owner? {
        return Err(Forbidden);
      }
      if (role.Admin? || targetRole.value.Admin?) && !actorRole.value.Owner? {
        return Err(Forbidden);
      }
      if !role.Admin? && !role.Member? {
        return Err(InvalidRole);
      }
      members := members[Seat(org, account) := Membership(role, grants)];
      r := Ok(Done);
    }

    method RemoveMember(org: int, account: int, actor: int) returns (r: Result<Reply>)
      modifies `members
      ensures (Tables(), r) == Do(old(Tables()), Op.RemoveMember(org, account, actor))
    {
      var actorRole := RoleIn(org, actor);
      if actorRole.Err? {
        return Err(Forbidden);
      }
      var targetRole := RoleIn(org, account);
      if targetRole.Err? {
        return Err(NotMember);
      }
      if targetRole.value.Owner? {
        return Err(LastOwner);
      }
      if account != actor {
        if !IsManager(actorRole.value) || (targetRole.value.Admin? && !actorRole.value.Owner?) {
          return Err(Forbidden);
        }
      }
      members := members - {Seat(org, account)};
      r := Ok(Done);
    }

    method CreateInvite(org: int, actor: int, role: Role, grants: Grants, ttl: int, now: int, id: nat, token: string)
      returns (r: Result<Reply>)
      modifies `invites, `tokens
      ensures (Tables(), r) == Do(old(Tables()), Op.CreateInvite(org, actor, role, grants, ttl, now, id, token))
    {
      var actorRole := RoleIn(org, actor);
      if actorRole.Err? {
        return Err(Forbidden);
      }
      if !IsManager(actorRole.value) || (role.Admin? && !actorRole.value.Owner?) {
        return Err(Forbidden);
      }
      if !role.Admin? && !role.Member? {
        return Err(InvalidRole);
      }
      var hours := ttl;
      if hours < 1 || hours > 168 {
        hours := 72;
      }
      var expires := now + 3600 * hours;
      if id in invites || token in tokens {
        return Err(Conflict);
      }
      invites := invites[id := Invite(org, role, grants, actor, expires, None, false)];
      tokens := tokens[token := id];
      r := Ok(Created(id, expires));
    }

    method RevokeInvite(org: int, id: nat, actor: int) returns (r: Result<Reply>)
      modifies `invites
      ensures (Tables(), r) == Do(old(Tables()), Op.RevokeInvite(org, id, actor))
    {
      var actorRole := RoleIn(org, actor);
      if actorRole.Err? || !IsManager(actorRole.value) {
        return Err(Forbidden);
      }
      if id !in invites || invites[id].org != org || invites[id].accepted.Some? || invites[id].revoked {
        return Err(InviteInvalid);
      }
      invites := invites[id := invites[id].(revoked := true)];
      r := Ok(Done);
    }

    method AcceptInvite(token: string, account: int, now: int) returns (r: Result<Reply>)
      modifies `members, `invites
      ensures (Tables(), r) == Do(old(Tables()), Op.AcceptInvite(token, account, now))
    {
      if token !in tokens || tokens[token] !in invites {
        return Err(InviteInvalid);
      }
      var id := tokens[token];
      var iv := invites[id];
      var seat := Seat(iv.org, account);
      if seat in members {
        return Ok(Joined(iv.org, members[seat].role, members[seat].grants));
      }
      if iv.accepted.Some? || iv.revoked || !(now < iv.expires) {
        return Err(InviteInvalid);
      }
      members := members[seat := Membership(iv.role, iv.grants)];
      invites := invites[id := iv.(accepted := Some(account))];
      r := Ok(Joined(iv.org, iv.role, iv.grants));
    }

    method RevokePending(org: int)
      modifies `invites
      ensures Tables() == Cleared(old(Tables()), org)
    {
      invites := RevokeAll(invites, org);
    }

    method DeleteIfSole(org: int, actor: int)
      modifies `members
      ensures Tables() == Left(old(Tables()), org, actor)
    {
      if Seat(org, actor) in members && |set s | s in members && s.org == org| == 1 {
        members := members - {Seat(org, actor)};
      }
    }

    method DissolveOrg(org: int, actor: int) returns (r: Result<Reply>)
      modifies `members, `invites
      ensures (Tables(), r) == Do(old(Tables()), Op.DissolveOrg(org, actor))
    {
      RevokePending(org);
      DeleteIfSole(org, actor);
      r := Ok(Done);
    }
  }
}
