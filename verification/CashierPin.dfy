/** The cashier PIN lockout of internal/app/account/cashier_mode.go. Times are whole
    seconds since the zero time.Time. */
module CashierPin {

  import opened Wrappers

  const PIN_MAX_FAILS := 5
  const PIN_LOCK_FOR := 300
  const SWEEP_EVERY := 60

  /** One member of one shop. */
  datatype Key = Key(tenant: nat, actor: string)

  datatype Attempts = Attempts(fails: nat, until: nat, last: nat)

  datatype State = State(tries: map<Key, Attempts>, swept: nat)

  const START := State(map[], 0)

  // ---- specification ----

  /** The lock is over and the last counted attempt is pinLockFor ago. */
  predicate Stale(a: Attempts, now: nat) {
    now >= a.until && now - a.last >= PIN_LOCK_FOR
  }

  function Sweep(s: State, now: nat): State {
    if now - s.swept < SWEEP_EVERY then s
    else State(map k | k in s.tries && !Stale(s.tries[k], now) :: s.tries[k], now)
  }

  function EntryOf(s: State, k: Key): Attempts {
    if k in s.tries then s.tries[k] else Attempts(0, 0, 0)
  }

  function Counted(a: Attempts, now: nat): Attempts {
    if a.fails + 1 >= PIN_MAX_FAILS then Attempts(0, now + PIN_LOCK_FOR, now)
    else Attempts(a.fails + 1, a.until, now)
  }

  function Reserve(s: State, k: Key, now: nat): (State, bool) {
    var t := Sweep(s, now);
    var a := EntryOf(t, k);
    if now < a.until then (State(t.tries[k := a], t.swept), false)
    else (State(t.tries[k := Counted(a, now)], t.swept), true)
  }

  function Clear(s: State, k: Key): State { State(s.tries - {k}, s.swept) }

  // ---- the object ----

  class SetCashierMode {
    var tries: map<Key, Attempts>
    var swept: nat

    function Abs(): State
      reads this
    {
      State(tries, swept)
    }

    constructor ()
      ensures Abs() == START
    {
      tries := map[];
      swept := 0;
    }

    /** sweepLocked */
    method SweepLocked(now: nat)
      modifies this
      ensures Abs() == Sweep(old(Abs()), now)
    {
      if now - swept < SWEEP_EVERY {
        return;
      }
      swept := now;
      var todo := tries.Keys;
      while todo != {}
        invariant swept == now && todo <= tries.Keys <= old(tries).Keys
        invariant forall k :: k in old(tries) ==>
          (k in tries <==> k in todo || !Stale(old(tries)[k], now)) && (k in tries ==> tries[k] == old(tries)[k])
        decreases |todo|
      {
        var k :| k in todo;
        todo := todo - {k};
        if !(now < tries[k].until) && now - tries[k].last >= PIN_LOCK_FOR {
          tries := tries - {k};
        }
      }
    }

    method ReserveAttempt(k: Key, now: nat) returns (ok: bool)
      modifies this
      ensures (Abs(), ok) == Reserve(old(Abs()), k, now)
    {
      SweepLocked(now);
      ghost var kept := tries;
      if k !in tries {
        tries := tries[k := Attempts(0, 0, 0)];
      }
      var a := tries[k];
      assert tries == kept[k := a];
      if now < a.until {
        return false;
      }
      a := a.(last := now, fails := a.fails + 1);
      if a.fails >= PIN_MAX_FAILS {
        a := a.(until := now + PIN_LOCK_FOR, fails := 0);
      }
      tries := tries[k := a];
      assert tries == kept[k := a];
      return true;
    }

    method ClearFails(k: Key)
      modifies this
      ensures Abs() == Clear(old(Abs()), k)
    {
      tries := tries - {k};
    }

    method CheckPinOf(k: Key, stored: string, pin: string, now: nat) returns (v: Verdict)
      modifies this
      ensures (Abs(), v) == CheckPin(old(Abs()), k, stored, pin, now)
    {
      hide Reserve;
      var ok := ReserveAttempt(k, now);
      if !ok {
        return LockedOut;
      }
      if pin != stored {
        return Wrong;
      }
      ClearFails(k);
      v := Right;
    }

    method VerifyPin(stored: Option<string>, k: Key, pin: string, now: nat) returns (v: Verdict)
      modifies this
      ensures (Abs(), v) == Verify(old(Abs()), stored, k, pin, now)
    {
      if !ValidPin(pin) {
        return Invalid;
      }
      if stored.None? {
        return NotSet;
      }
      v := CheckPinOf(k, stored.value, pin, now);
    }

    /** Execute after it has read the record as seen. */
    method ExecuteOn(repo: CashierModeRepo, seen: Option<string>, retail: bool, k: Key, pin: string, now: nat)
      returns (v: Verdict)
      modifies this, repo
      ensures (Abs(), repo.pin, v) == Execute(old(Abs()), seen, old(repo.pin), retail, k, pin, now)
    {
      hide Reserve, CheckPin;
      if seen.None? && !retail {
        return NotRetail;
      }
      if !ValidPin(pin) {
        return Invalid;
      }
      if seen.Some? {
        v := CheckPinOf(k, seen.value, pin, now);
        return;
      }
      var first := repo.PutCashierFirst(pin);
      v := if first then Right else AlreadySet;
    }
  }

  class CashierModeRepo {
    var pin: Option<string>

    constructor ()
      ensures pin == None
    {
      pin := None;
    }

    /** The guarded update: one statement, so its test and its write are one step. */
    method PutCashierFirst(first: string) returns (ok: bool)
      modifies this
      ensures ok <==> old(pin).None?
      ensures pin == if old(pin).None? then Some(first) else old(pin)
    {
      if pin.Some? {
        return false;
      }
      pin := Some(first);
      ok := true;
    }
  }

  // ---- runs: attempts of any member, and forgiveness after a correct PIN ----

  datatype Op = Attempt(k: Key, now: nat) | Forgive(k: Key)

  function Step(s: State, op: Op): (State, bool) {
    match op
    case Attempt(k, now) => Reserve(s, k, now)
    case Forgive(k) => (Clear(s, k), false)
  }

  function Run(s: State, ops: seq<Op>): State {
    if ops == [] then s else Step(Run(s, ops[..|ops| - 1]), ops[|ops| - 1]).0
  }

  /** How the last operation was answered. */
  predicate LastAccepted(s: State, ops: seq<Op>)
    requires ops != []
  {
    Step(Run(s, ops[..|ops| - 1]), ops[|ops| - 1]).1
  }

  /** Attempts of k that reached the comparison. */
  function Accepted(s: State, ops: seq<Op>, k: Key): nat {
    if ops == [] then 0
    else
      var op := ops[|ops| - 1];
      Accepted(s, ops[..|ops| - 1], k) + (if op.Attempt? && op.k == k && LastAccepted(s, ops) then 1 else 0)
  }

  lemma {:induction false} RunConcat(s: State, a: seq<Op>, b: seq<Op>)
    ensures Run(s, a + b) == Run(Run(s, a), b)
  {
    if b == [] {
      assert a + b == a;
    } else {
      assert (a + b)[..|a + b| - 1] == a + b[..|b| - 1];
      RunConcat(s, a, b[..|b| - 1]);
    }
  }

  // ---- the window bound ----

  /** Attempts of k in ops fall into the pinLockFor seconds from w, and none clears k. */
  predicate InWindow(ops: seq<Op>, k: Key, w: nat) {
    forall i :: 0 <= i < |ops| ==>
      (match ops[i]
       case Attempt(_, now) => w <= now < w + PIN_LOCK_FOR
       case Forgive(k') => k' != k)
  }

  predicate FailsBelowCap(s: State) {
    forall k :: k in s.tries ==> s.tries[k].fails < PIN_MAX_FAILS
  }

  lemma {:induction false} AlwaysBelowCap(s: State, ops: seq<Op>)
    requires FailsBelowCap(s)
    ensures FailsBelowCap(Run(s, ops))
  {
    if ops != [] {
      AlwaysBelowCap(s, ops[..|ops| - 1]);
    }
  }

  /** n attempts of k have been accepted since w: either they are all still counted,
      or the lock they caused outlasts the window. */
  predicate WindowState(s: State, k: Key, w: nat, n: nat) {
    n > 0 ==>
      && k in s.tries && s.tries[k].last >= w
      && (n <= s.tries[k].fails || (n <= PIN_MAX_FAILS && s.tries[k].until >= w + PIN_LOCK_FOR))
  }

  lemma {:induction false} WindowInvariant(s: State, ops: seq<Op>, k: Key, w: nat)
    requires FailsBelowCap(s) && InWindow(ops, k, w)
    ensures WindowState(Run(s, ops), k, w, Accepted(s, ops, k))
  {
    if ops != [] {
      var before := ops[..|ops| - 1];
      assert InWindow(before, k, w);
      WindowInvariant(s, before, k, w);
      AlwaysBelowCap(s, before);
      var op := ops[|ops| - 1];
      WindowStep(Run(s, before), op, k, w, Accepted(s, before, k));
    }
  }

  lemma WindowStep(s: State, op: Op, k: Key, w: nat, n: nat)
    requires FailsBelowCap(s) && WindowState(s, k, w, n)
    requires op.Attempt? ==> w <= op.now < w + PIN_LOCK_FOR
    requires op.Forgive? ==> op.k != k
    ensures WindowState(Step(s, op).0, k, w, n + if op.Attempt? && op.k == k && Step(s, op).1 then 1 else 0)
  {
  }

  /** From any state a run can reach, at most five attempts of one member within five
      minutes reach the comparison, however other members' attempts, forgiveness of
      others and the sweeper interleave. */
  lemma WindowBound(history: seq<Op>, ops: seq<Op>, k: Key, w: nat)
    requires InWindow(ops, k, w)
    ensures Accepted(Run(START, history), ops, k) <= PIN_MAX_FAILS
  {
    AlwaysBelowCap(START, history);
    WindowInvariant(Run(START, history), ops, k, w);
    AlwaysBelowCap(Run(START, history), ops);
  }

  // ---- what other members can do to one member ----

  function Only(ops: seq<Op>, k: Key): seq<Op> {
    if ops == [] then []
    else
      var op := ops[|ops| - 1];
      Only(ops[..|ops| - 1], k) + (if op.k == k then [op] else [])
  }

  /** Clock readings do not go back; t is the latest. */
  predicate Ordered(ops: seq<Op>, t: nat) {
    && (forall i :: 0 <= i < |ops| && ops[i].Attempt? ==> ops[i].now <= t)
    && (forall i, j :: 0 <= i < j < |ops| && ops[i].Attempt? && ops[j].Attempt? ==> ops[i].now <= ops[j].now)
  }

  /** A stale entry with failures survives because someone else's attempt ran the
      sweeper less than a minute ago. */
  predicate StaleKept(s: State, k: Key, now: nat) {
    && k in s.tries && Stale(s.tries[k], now) && s.tries[k].fails > 0
    && now - s.swept < SWEEP_EVERY
  }

  /** That never happens at an attempt of k. */
  predicate NeverKept(ops: seq<Op>, k: Key) {
    ops != [] ==>
      && NeverKept(ops[..|ops| - 1], k)
      && (var op := ops[|ops| - 1];
          op.Attempt? && op.k == k ==> !StaleKept(Run(START, ops[..|ops| - 1]), k, op.now))
  }

  predicate SameEntry(a: Attempts, b: Attempts, t: nat) {
    a.fails == b.fails && a.last == b.last && (a.until == b.until || (a.until <= t && b.until <= t))
  }

  /** How the state of a run relates to that of k's operations alone. */
  predicate Alike(s: State, lone: State, k: Key, t: nat) {
    if k in s.tries then k in lone.tries && SameEntry(s.tries[k], lone.tries[k], t)
    else k in lone.tries ==> Stale(lone.tries[k], t)
  }

  /** Alone, an entry with failures was last touched no earlier than the last sweep. */
  predicate LoneState(s: State, k: Key, t: nat) {
    && s.swept <= t
    && (k in s.tries ==>
          var a := s.tries[k];
          && a.last <= t && a.fails < PIN_MAX_FAILS
          && (a.fails > 0 ==> s.swept <= a.last && a.until <= a.last))
  }

  lemma LoneStep(s: State, op: Op, k: Key, t: nat, t': nat)
    requires LoneState(s, k, t) && op.k == k && t <= t' && (op.Attempt? ==> op.now == t')
    ensures LoneState(Step(s, op).0, k, t')
  {
  }

  /** An attempt of k: same answer, and the states stay alike. */
  lemma OwnAttempt(s: State, lone: State, k: Key, t: nat, now: nat)
    requires Alike(s, lone, k, t) && LoneState(lone, k, t) && t <= now
    requires !StaleKept(s, k, now)
    ensures Reserve(s, k, now).1 == Reserve(lone, k, now).1
    ensures Alike(Reserve(s, k, now).0, Reserve(lone, k, now).0, k, now)
  {
  }

  lemma OtherStep(s: State, lone: State, op: Op, k: Key, t: nat, t': nat)
    requires Alike(s, lone, k, t) && t <= t' && op.k != k && (op.Attempt? ==> op.now == t')
    ensures Alike(Step(s, op).0, lone, k, t')
  {
  }

  function LastTime(ops: seq<Op>): nat {
    if ops == [] then 0
    else
      var op := ops[|ops| - 1];
      if op.Attempt? then op.now else LastTime(ops[..|ops| - 1])
  }

  lemma {:induction false} LastTimeBound(ops: seq<Op>, t: nat)
    requires Ordered(ops, t)
    ensures LastTime(ops) <= t
    ensures forall i :: 0 <= i < |ops| && ops[i].Attempt? ==> ops[i].now <= LastTime(ops)
  {
    if ops != [] && !ops[|ops| - 1].Attempt? {
      LastTimeBound(ops[..|ops| - 1], t);
    }
  }

  lemma {:induction false} RunsAlike(ops: seq<Op>, k: Key)
    requires Ordered(ops, LastTime(ops)) && NeverKept(ops, k)
    ensures Alike(Run(START, ops), Run(START, Only(ops, k)), k, LastTime(ops))
    ensures LoneState(Run(START, Only(ops, k)), k, LastTime(ops))
  {
    if ops != [] {
      var before, op := ops[..|ops| - 1], ops[|ops| - 1];
      LastTimeBound(ops, LastTime(ops));
      assert forall i, j :: 0 <= i < j < |before| ==> before[i] == ops[i] && before[j] == ops[j];
      assert Ordered(before, LastTime(ops));
      LastTimeBound(before, LastTime(ops));
      assert Ordered(before, LastTime(before));
      RunsAlike(before, k);
      var lone := Only(before, k);
      if op.k == k {
        assert Only(ops, k) == lone + [op];
        assert (lone + [op])[..|lone|] == lone;
        LoneStep(Run(START, lone), op, k, LastTime(before), LastTime(ops));
        if op.Attempt? {
          OwnAttempt(Run(START, before), Run(START, lone), k, LastTime(before), op.now);
        }
      } else {
        OtherStep(Run(START, before), Run(START, lone), op, k, LastTime(before), LastTime(ops));
        assert Only(ops, k) == lone;
      }
    }
  }

  /** Same answers with and without the others, while no stale entry is kept. */
  lemma OthersDoNotMatter(ops: seq<Op>, k: Key, now: nat)
    requires Ordered(ops, now) && NeverKept(ops + [Attempt(k, now)], k)
    ensures Reserve(Run(START, ops), k, now).1 == Reserve(Run(START, Only(ops, k)), k, now).1
  {
    var all := ops + [Attempt(k, now)];
    assert all[..|ops|] == ops;
    LastTimeBound(ops, now);
    RunsAlike(ops, k);
    OwnAttempt(Run(START, ops), Run(START, Only(ops, k)), k, LastTime(ops), now);
  }

  // ---- exactly when others matter ----

  function Burst(k: Key, now: nat, n: nat): (b: seq<Op>)
    ensures |b| == n
  {
    if n == 0 then [] else Burst(k, now, n - 1) + [Attempt(k, now)]
  }

  /** The answer to the attempt that follows n attempts at the same moment. */
  predicate AnswerAfter(s: State, k: Key, now: nat, n: nat) {
    Reserve(Run(s, Burst(k, now, n)), k, now).1
  }

  /** Failures still held against k at now. */
  function HeldFails(s: State, k: Key, now: nat): nat { EntryOf(Sweep(s, now), k).fails }

  predicate Locked(s: State, k: Key, now: nat) { now < EntryOf(s, k).until }

  lemma {:induction false} BurstState(s: State, k: Key, now: nat, n: nat)
    requires n > 0 && HeldFails(s, k, now) < PIN_MAX_FAILS
    ensures var r := Run(s, Burst(k, now, n));
      k in r.tries &&
      (if Locked(s, k, now) || n >= PIN_MAX_FAILS - HeldFails(s, k, now) then Locked(r, k, now)
       else r.tries[k].fails == HeldFails(s, k, now) + n && r.tries[k].last == now && !Locked(r, k, now))
  {
    var b := Burst(k, now, n);
    assert b[..n - 1] == Burst(k, now, n - 1);
    if n > 1 {
      BurstState(s, k, now, n - 1);
    }
  }

  /** A burst is answered until five failures are held, then refused. */
  lemma BurstAnswers(s: State, k: Key, now: nat, n: nat)
    requires HeldFails(s, k, now) < PIN_MAX_FAILS
    ensures AnswerAfter(s, k, now, n) <==> !Locked(s, k, now) && n < PIN_MAX_FAILS - HeldFails(s, k, now)
  {
    if n > 0 {
      BurstState(s, k, now, n);
    }
  }

  /** After a run in which no stale entry was kept, others change what k can do next
      if and only if one is kept now: the guard `now.Sub(uc.swept) < time.Minute`
      returns early although k has failures and has been idle for pinLockFor. */
  lemma OthersMatterExactly(ops: seq<Op>, k: Key, now: nat)
    requires Ordered(ops, now) && NeverKept(ops, k)
    ensures StaleKept(Run(START, ops), k, now) <==>
            exists n :: AnswerAfter(Run(START, ops), k, now, n) != AnswerAfter(Run(START, Only(ops, k)), k, now, n)
  {
    var s, lone := Run(START, ops), Run(START, Only(ops, k));
    LastTimeBound(ops, now);
    RunsAlike(ops, k);
    AlwaysBelowCap(START, ops);
    AlwaysBelowCap(START, Only(ops, k));
    Compare(s, lone, k, LastTime(ops), now);
    var f := HeldFails(s, k, now);
    forall n: nat
      ensures AnswerAfter(s, k, now, n) <==> !Locked(s, k, now) && n < PIN_MAX_FAILS - f
      ensures AnswerAfter(lone, k, now, n) <==> !Locked(lone, k, now) && n < PIN_MAX_FAILS - HeldFails(lone, k, now)
    {
      BurstAnswers(s, k, now, n);
      BurstAnswers(lone, k, now, n);
    }
    if StaleKept(s, k, now) {
      assert AnswerAfter(s, k, now, PIN_MAX_FAILS - f) != AnswerAfter(lone, k, now, PIN_MAX_FAILS - f);
    }
  }

  lemma Compare(s: State, lone: State, k: Key, t: nat, now: nat)
    requires Alike(s, lone, k, t) && LoneState(lone, k, t) && t <= now
    requires FailsBelowCap(s) && FailsBelowCap(lone)
    ensures Locked(s, k, now) == Locked(lone, k, now)
    ensures HeldFails(s, k, now) < PIN_MAX_FAILS && HeldFails(lone, k, now) < PIN_MAX_FAILS
    ensures StaleKept(s, k, now) ==> !Locked(s, k, now) && HeldFails(s, k, now) > 0 && HeldFails(lone, k, now) == 0
    ensures !StaleKept(s, k, now) && !Locked(s, k, now) ==> HeldFails(s, k, now) == HeldFails(lone, k, now)
  {
  }

  lemma {:induction false} BurstOrdered(k: Key, now: nat, n: nat)
    ensures Only(Burst(k, now, n), k) == Burst(k, now, n)
    ensures forall i :: 0 <= i < n ==> Burst(k, now, n)[i] == Attempt(k, now)
    ensures n > 0 ==> LastTime(Burst(k, now, n)) == now
  {
    if n > 0 {
      var b := Burst(k, now, n);
      assert b[..n - 1] == Burst(k, now, n - 1);
      BurstOrdered(k, now, n - 1);
    }
  }

  lemma {:induction false} BurstKeepsNothing(k: Key, now: nat, n: nat)
    requires n < PIN_MAX_FAILS
    ensures NeverKept(Burst(k, now, n), k)
  {
    hide Run;
    if n > 0 {
      var b := Burst(k, now, n);
      assert b[..n - 1] == Burst(k, now, n - 1);
      BurstKeepsNothing(k, now, n - 1);
      FreshStart(k, now);
      if n > 1 {
        BurstState(START, k, now, n - 1);
      }
    }
  }

  lemma FreshStart(k: Key, now: nat)
    ensures HeldFails(START, k, now) == 0 && !Locked(START, k, now)
    ensures Run(START, []) == START && !StaleKept(START, k, now)
  {
  }

  lemma {:induction false} BurstSwept(k: Key, now: nat, n: nat)
    requires now >= SWEEP_EVERY && n > 0
    ensures Run(START, Burst(k, now, n)).swept == now
  {
    var b := Burst(k, now, n);
    assert b[..n - 1] == Burst(k, now, n - 1);
    if n > 1 {
      BurstSwept(k, now, n - 1);
    }
  }

  /** A few wrong guesses, five minutes of silence, and a colleague's guess a second
      before the next: the old failures still count, although alone they would be gone. */
  lemma ColleagueKeepsFailures(k: Key, colleague: Key, t: nat, fails: nat)
    requires k != colleague && 0 < fails < PIN_MAX_FAILS && t >= SWEEP_EVERY
    ensures var ops, now := Burst(k, t, fails) + [Attempt(colleague, t + 299)], t + 300;
      && Ordered(ops, now) && NeverKept(ops, k)
      && !AnswerAfter(Run(START, ops), k, now, PIN_MAX_FAILS - fails)
      && AnswerAfter(Run(START, Only(ops, k)), k, now, PIN_MAX_FAILS - fails)
  {
    hide Run, AnswerAfter, HeldFails, Locked, Step, Burst, Ordered, NeverKept, Only;
    var b, other, now := Burst(k, t, fails), Attempt(colleague, t + 299), t + 300;
    var ops := b + [other];
    ColleagueIn(k, colleague, t, fails);
    FreshStart(k, t);
    BurstState(START, k, t, fails);
    BurstSwept(k, t, fails);
    var lone, s := Run(START, b), Run(START, ops);
    RunLast(START, b, other);
    ColleagueSweeps(lone, k, colleague, t, fails);
    BurstAnswers(s, k, now, PIN_MAX_FAILS - fails);
    BurstAnswers(lone, k, now, PIN_MAX_FAILS - fails);
  }

  lemma ColleagueIn(k: Key, colleague: Key, t: nat, fails: nat)
    requires k != colleague && 0 < fails < PIN_MAX_FAILS
    ensures var b, now := Burst(k, t, fails), t + 300; var ops := b + [Attempt(colleague, t + 299)];
      Ordered(ops, now) && NeverKept(ops, k) && Only(ops, k) == b
  {
    hide Run, Burst;
    var b := Burst(k, t, fails);
    var ops := b + [Attempt(colleague, t + 299)];
    assert ops[..|b|] == b;
    BurstOrdered(k, t, fails);
    BurstKeepsNothing(k, t, fails);
  }

  lemma ColleagueSweeps(lone: State, k: Key, colleague: Key, t: nat, fails: nat)
    requires k != colleague && k in lone.tries && !Locked(lone, k, t) && lone.swept == t
    requires lone.tries[k].fails == fails && lone.tries[k].last == t
    ensures var s, now := Step(lone, Attempt(colleague, t + 299)).0, t + 300;
      && HeldFails(lone, k, now) == 0 && !Locked(lone, k, now)
      && HeldFails(s, k, now) == fails && !Locked(s, k, now)
  {
  }

  lemma RunLast(s: State, ops: seq<Op>, op: Op)
    ensures Run(s, ops + [op]) == Step(Run(s, ops), op).0
  {
    assert (ops + [op])[..|ops|] == ops;
  }

  // ---- checking a PIN ----

  datatype Verdict = Right | LockedOut | Wrong | Invalid | NotSet | NotRetail | AlreadySet

  /** Four to six digits. */
  predicate ValidPin(p: string) { 4 <= |p| <= 6 && forall i :: 0 <= i < |p| ==> '0' <= p[i] <= '9' }

  /** The attempt is counted before the comparison and forgiven only when the PIN is right.
      Hashing with the stored salt is taken to be injective, so the PIN stands for it. */
  function CheckPin(s: State, k: Key, stored: string, pin: string, now: nat): (State, Verdict) {
    var (t, ok) := Reserve(s, k, now);
    if !ok then (t, LockedOut) else if pin != stored then (t, Wrong) else (Clear(t, k), Right)
  }

  function Verify(s: State, stored: Option<string>, k: Key, pin: string, now: nat): (State, Verdict) {
    if !ValidPin(pin) then (s, Invalid)
    else if stored.None? then (s, NotSet)
    else CheckPin(s, k, stored.value, pin, now)
  }

  /** Execute with the record it read earlier and the record there is when it writes. */
  function Execute(s: State, seen: Option<string>, current: Option<string>, retail: bool, k: Key, pin: string, now: nat)
    : (State, Option<string>, Verdict)
  {
    if seen.None? && !retail then (s, current, NotRetail)
    else if !ValidPin(pin) then (s, current, Invalid)
    else if seen.Some? then (CheckPin(s, k, seen.value, pin, now).0, current, CheckPin(s, k, seen.value, pin, now).1)
    else if current.Some? then (s, current, AlreadySet)
    else (s, Some(pin), Right)
  }

  // ---- exactly when each verdict is given ----

  lemma CheckExactly(s: State, k: Key, stored: string, pin: string, now: nat)
    ensures var (t, v) := CheckPin(s, k, stored, pin, now);
      && (v == LockedOut <==> Locked(s, k, now))
      && (v == Wrong <==> !Locked(s, k, now) && pin != stored)
      && (v == Right <==> !Locked(s, k, now) && pin == stored)
      && (v == Right ==> k !in t.tries)
  {
  }

  lemma ForgottenAnswers(t: State, k: Key, later: nat, n: nat)
    requires k !in t.tries
    ensures AnswerAfter(t, k, later, n) <==> n < PIN_MAX_FAILS
  {
    hide AnswerAfter;
    NoFails(t, k, later);
    BurstAnswers(t, k, later, n);
  }

  lemma NoFails(t: State, k: Key, later: nat)
    requires k !in t.tries
    ensures HeldFails(t, k, later) == 0 && !Locked(t, k, later)
  {
  }

  /** In any state of the counters: a lockout is answered if and only if the member is locked at
      that moment, and otherwise the right PIN is accepted and any other told wrong. The right
      PIN gives the member five attempts again, at any later moment. */
  lemma VerifyExactly(s: State, stored: Option<string>, k: Key, pin: string, now: nat, later: nat, n: nat)
    ensures var (t, v) := Verify(s, stored, k, pin, now);
      && (v == Invalid <==> !ValidPin(pin))
      && (v == NotSet <==> ValidPin(pin) && stored.None?)
      && (v == LockedOut <==> ValidPin(pin) && stored.Some? && Locked(s, k, now))
      && (v == Wrong <==> ValidPin(pin) && stored.Some? && !Locked(s, k, now) && stored != Some(pin))
      && (v == Right <==> ValidPin(pin) && !Locked(s, k, now) && stored == Some(pin))
      && (v == Right ==> (AnswerAfter(t, k, later, n) <==> n < PIN_MAX_FAILS))
  {
    hide CheckPin, AnswerAfter, ValidPin, Locked;
    if ValidPin(pin) && stored.Some? {
      CheckExactly(s, k, stored.value, pin, now);
      var t := CheckPin(s, k, stored.value, pin, now).0;
      if k !in t.tries {
        ForgottenAnswers(t, k, later, n);
      }
    }
  }

  /** The same for Execute once it has read the record as seen; the first PIN of a retail shop is
      stored if and only if none is stored by then. */
  lemma ExecuteExactly(s: State, seen: Option<string>, current: Option<string>, retail: bool, k: Key, pin: string,
                       now: nat, later: nat, n: nat)
    ensures var (t, after, v) := Execute(s, seen, current, retail, k, pin, now);
      && (v == NotRetail <==> seen.None? && !retail)
      && (v == Invalid <==> (seen.Some? || retail) && !ValidPin(pin))
      && (v == LockedOut <==> ValidPin(pin) && seen.Some? && Locked(s, k, now))
      && (v == Wrong <==> ValidPin(pin) && seen.Some? && !Locked(s, k, now) && seen != Some(pin))
      && (v == AlreadySet <==> ValidPin(pin) && seen.None? && retail && current.Some?)
      && (v == Right <==> ValidPin(pin) && if seen.Some? then !Locked(s, k, now) && seen == Some(pin) else retail && current.None?)
      && (v == Right && seen.Some? ==> (AnswerAfter(t, k, later, n) <==> n < PIN_MAX_FAILS))
      && after == if v == Right && seen.None? then Some(pin) else current
  {
    hide CheckPin, AnswerAfter, ValidPin, Locked;
    if ValidPin(pin) && seen.Some? {
      CheckExactly(s, k, seen.value, pin, now);
      var t := CheckPin(s, k, seen.value, pin, now).0;
      if k !in t.tries {
        ForgottenAnswers(t, k, later, n);
      }
    }
  }

  /** The fifth counted failure locks the member for exactly 300 seconds, an earlier one not at
      all; with no entry left by the sweep a failure is the first. */
  lemma LockLasts(s: State, k: Key, now: nat, later: nat)
    requires !Locked(s, k, now) && now <= later
    ensures var t := Step(s, Attempt(k, now)).0;
      && (Locked(t, k, later) <==> HeldFails(s, k, now) >= 4 && later < now + 300)
      && (HeldFails(s, k, now) < 4 ==> HeldFails(t, k, now) == HeldFails(s, k, now) + 1)
      && (now - s.swept >= 60 && (k in s.tries ==> now >= s.tries[k].last + 300) ==> HeldFails(s, k, now) == 0)
  {
  }

  /** Four, five and six digits are valid; three, seven and anything else are not. */
  lemma PinShapes()
    ensures ValidPin("0129") && ValidPin("01239") && ValidPin("012349")
    ensures !ValidPin("") && !ValidPin("012") && !ValidPin("0123456") && !ValidPin("12a4") && !ValidPin("12 4")
    ensures !ValidPin("12-4") && !ValidPin("/123") && !ValidPin(":123")
  {
    assert "12a4"[2] == 'a' && "12 4"[2] == ' ' && "12-4"[2] == '-' && "/123"[0] == '/' && ":123"[0] == ':';
  }

  // ---- requests of several devices ----

  /** A request of Execute or of Verify to one shop. */
  datatype Ask = Setting(k: Key, pin: string) | Checking(k: Key, pin: string)

  datatype Phase = Start | Read(seen: Option<string>) | Answered(verdict: Verdict)

  datatype Shop = Shop(stored: Option<string>, phases: seq<Phase>)

  /** Load reads the record; Settle is all that follows. In between anything may happen, so the
      record may be stale by then; tries is what the failure counters are at that moment. */
  datatype Call = Load(i: nat) | Settle(i: nat, tries: State, retail: bool, now: nat)

  predicate Enabled(s: Shop, c: Call) {
    match c
    case Load(i) => i < |s.phases| && s.phases[i].Start?
    case Settle(i, _, _, _) => i < |s.phases| && s.phases[i].Read?
  }

  /** The verdict of a settled request and the record after it. */
  function Settled(a: Ask, seen: Option<string>, stored: Option<string>, tries: State, retail: bool, now: nat)
    : (Option<string>, Verdict)
  {
    match a
    case Setting(k, pin) => (Execute(tries, seen, stored, retail, k, pin, now).1, Execute(tries, seen, stored, retail, k, pin, now).2)
    case Checking(k, pin) => (stored, Verify(tries, seen, k, pin, now).1)
  }

  function Next(asks: seq<Ask>, s: Shop, c: Call): Shop
    requires |asks| == |s.phases| && Enabled(s, c)
  {
    match c
    case Load(i) => Shop(s.stored, s.phases[i := Read(s.stored)])
    case Settle(i, tries, retail, now) =>
      var (stored, v) := Settled(asks[i], s.phases[i].seen, s.stored, tries, retail, now);
      Shop(stored, s.phases[i := Answered(v)])
  }

  predicate IsRun(asks: seq<Ask>, states: seq<Shop>, calls: seq<Call>) {
    && |states| == |calls| + 1 && states[0] == Shop(None, seq(|asks|, i => Start))
    && (forall n :: 0 <= n <= |calls| ==> |states[n].phases| == |asks|)
    && forall n :: 0 <= n < |calls| ==> Enabled(states[n], calls[n]) && states[n + 1] == Next(asks, states[n], calls[n])
  }

  /** v is the truth about a request when the record is `stored`. */
  predicate IsTrue(a: Ask, stored: Option<string>, v: Verdict) {
    match v
    case Right => stored == Some(a.pin)
    case Wrong => stored.Some? && stored.value != a.pin
    case LockedOut => stored.Some?
    case AlreadySet => stored.Some? && a.Setting?
    case Invalid => !ValidPin(a.pin)
    case NotSet => a.Checking?
    case NotRetail => a.Setting?
  }

  /** What one settled request may do to the record. */
  lemma SettledIs(a: Ask, seen: Option<string>, stored: Option<string>, tries: State, retail: bool, now: nat)
    requires seen.Some? ==> stored == seen
    ensures var (after, v) := Settled(a, seen, stored, tries, retail, now);
      && (stored.Some? ==> after == stored)
      && (after != stored ==> after == Some(a.pin) && ValidPin(a.pin) && a.Setting? && retail && v == Right)
      && IsTrue(a, after, v)
  {
    hide Reserve;
  }

  /** Request i stored the PIN p. */
  predicate StoredBy(asks: seq<Ask>, s: Shop, i: nat, p: string) {
    i < |asks| == |s.phases| && asks[i].Setting? && asks[i].pin == p && s.phases[i] == Answered(Right)
  }

  predicate Settles(asks: seq<Ask>, s: Shop) {
    && |s.phases| == |asks|
    && (s.stored.Some? ==> ValidPin(s.stored.value) && exists i: nat :: i < |asks| && StoredBy(asks, s, i, s.stored.value))
    && (forall i :: 0 <= i < |asks| && s.phases[i].Read? && s.phases[i].seen.Some? ==> s.stored == s.phases[i].seen)
    && (forall i :: 0 <= i < |asks| && s.phases[i].Answered? ==> IsTrue(asks[i], s.stored, s.phases[i].verdict))
  }

  lemma TruthStays(a: Ask, stored: Option<string>, after: Option<string>, v: Verdict)
    requires IsTrue(a, stored, v) && (stored.Some? ==> after == stored)
    ensures IsTrue(a, after, v)
  {
  }

  lemma SettlesStep(asks: seq<Ask>, s: Shop, c: Call)
    requires Settles(asks, s) && Enabled(s, c)
    ensures Settles(asks, Next(asks, s, c)) && (s.stored.Some? ==> Next(asks, s, c).stored == s.stored)
  {
    hide Settled, IsTrue, ValidPin;
    var t := Next(asks, s, c);
    if c.Settle? {
      SettledIs(asks[c.i], s.phases[c.i].seen, s.stored, c.tries, c.retail, c.now);
    }
    forall i | 0 <= i < |asks| && t.phases[i].Answered?
      ensures IsTrue(asks[i], t.stored, t.phases[i].verdict)
    {
      if s.phases[i].Answered? {
        TruthStays(asks[i], s.stored, t.stored, s.phases[i].verdict);
      }
    }
    if t.stored.Some? {
      if s.stored.Some? {
        var i: nat :| i < |asks| && StoredBy(asks, s, i, s.stored.value);
        assert StoredBy(asks, t, i, t.stored.value);
      } else {
        assert StoredBy(asks, t, c.i, t.stored.value);
      }
    }
  }

  lemma {:induction false} AlwaysSettles(asks: seq<Ask>, states: seq<Shop>, calls: seq<Call>, m: nat, n: nat)
    requires IsRun(asks, states, calls) && m <= n <= |calls|
    ensures Settles(asks, states[n]) && (states[m].stored.Some? ==> states[n].stored == states[m].stored)
    decreases n
  {
    hide Settles, Next, Enabled;
    if n == 0 {
      NothingSettled(asks, states[0]);
    } else {
      AlwaysSettles(asks, states, calls, if m < n then m else n - 1, n - 1);
      SettlesStep(asks, states[n - 1], calls[n - 1]);
    }
  }

  lemma NothingSettled(asks: seq<Ask>, s: Shop)
    requires s == Shop(None, seq(|asks|, i => Start))
    ensures Settles(asks, s)
  {
  }

  /** However the requests of several devices interleave, the PIN stored first stays: it is
      valid, a request that succeeded gave it, and from then on success means that the given
      PIN is the stored one, a wrong verdict that it is not, so no two successes differ. */
  lemma FirstPinStays(asks: seq<Ask>, states: seq<Shop>, calls: seq<Call>, m: nat, n: nat)
    requires IsRun(asks, states, calls) && m <= n <= |calls|
    ensures states[m].stored.Some? ==> states[n].stored == states[m].stored
    ensures var s := states[n];
      && (s.stored.Some? ==> ValidPin(s.stored.value) && exists i: nat :: i < |asks| && StoredBy(asks, s, i, s.stored.value))
      && (forall i :: 0 <= i < |asks| && s.phases[i].Answered? ==> IsTrue(asks[i], s.stored, s.phases[i].verdict))
      && forall i, j :: 0 <= i < j < |asks| && s.phases[i] == Answered(Right) && s.phases[j] == Answered(Right) ==>
           asks[i].pin == asks[j].pin
  {
    hide Next, Enabled, ValidPin;
    AlwaysSettles(asks, states, calls, m, n);
  }

  datatype Try = Try(k: Key, stored: string, pin: string, now: nat)

  /** The counter after the tries, and what they do to it. */
  function After(s: State, ts: seq<Try>): State {
    if ts == [] then s
    else
      var t := ts[|ts| - 1];
      CheckPin(After(s, ts[..|ts| - 1]), t.k, t.stored, t.pin, t.now).0
  }

  function VerdictOf(s: State, ts: seq<Try>): Verdict
    requires ts != []
  {
    var t := ts[|ts| - 1];
    CheckPin(After(s, ts[..|ts| - 1]), t.k, t.stored, t.pin, t.now).1
  }

  /** The wrong PINs of k that were compared, so told wrong. */
  function WrongGuesses(s: State, ts: seq<Try>, k: Key): nat {
    if ts == [] then 0
    else WrongGuesses(s, ts[..|ts| - 1], k) + (if ts[|ts| - 1].k == k && VerdictOf(s, ts) == Wrong then 1 else 0)
  }

  function OpsOf(s: State, ts: seq<Try>): seq<Op> {
    if ts == [] then []
    else
      var t := ts[|ts| - 1];
      OpsOf(s, ts[..|ts| - 1]) + [Attempt(t.k, t.now)] + (if VerdictOf(s, ts) == Right then [Forgive(t.k)] else [])
  }

  function Counts(s: State, ops: seq<Op>, op: Op, k: Key): nat {
    if op.Attempt? && op.k == k && Step(Run(s, ops), op).1 then 1 else 0
  }

  lemma RunTwo(s: State, ops: seq<Op>, op: Op)
    ensures Run(s, ops + [op]) == Step(Run(s, ops), op).0
    ensures forall k :: Accepted(s, ops + [op], k) == Accepted(s, ops, k) + Counts(s, ops, op, k)
  {
    assert (ops + [op])[..|ops|] == ops;
  }

  lemma {:induction false} TriesAreOps(s: State, ts: seq<Try>, k: Key)
    requires forall i :: 0 <= i < |ts| && ts[i].k == k ==> ts[i].pin != ts[i].stored
    ensures After(s, ts) == Run(s, OpsOf(s, ts)) && WrongGuesses(s, ts, k) == Accepted(s, OpsOf(s, ts), k)
    decreases |ts|
  {
    hide Reserve, Run, Accepted;
    if ts == [] {
      RunNothing(s, k);
    } else {
      var before, t := ts[..|ts| - 1], ts[|ts| - 1];
      TriesAreOps(s, before, k);
      var ops := OpsOf(s, before);
      RunTwo(s, ops, Attempt(t.k, t.now));
      RunTwo(s, ops + [Attempt(t.k, t.now)], Forgive(t.k));
      assert ops + [Attempt(t.k, t.now)] + [] == ops + [Attempt(t.k, t.now)];
    }
  }

  lemma RunNothing(s: State, k: Key)
    ensures Run(s, []) == s && Accepted(s, [], k) == 0
  {
  }

  lemma {:induction false} OpsInWindow(s: State, ts: seq<Try>, k: Key, w: nat)
    requires forall i :: 0 <= i < |ts| ==> w <= ts[i].now < w + PIN_LOCK_FOR && (ts[i].k == k ==> ts[i].pin != ts[i].stored)
    ensures InWindow(OpsOf(s, ts), k, w)
    decreases |ts|
  {
    hide Reserve;
    if ts != [] {
      OpsInWindow(s, ts[..|ts| - 1], k, w);
    }
  }

  /** From any reachable state, a member who does not know the PIN is told "wrong" at most
      five times in any five minutes, whatever other members try meanwhile. */
  lemma FiveGuessesPerWindow(history: seq<Op>, ts: seq<Try>, k: Key, w: nat)
    requires forall i :: 0 <= i < |ts| ==> w <= ts[i].now < w + PIN_LOCK_FOR && (ts[i].k == k ==> ts[i].pin != ts[i].stored)
    ensures WrongGuesses(Run(START, history), ts, k) <= PIN_MAX_FAILS
  {
    hide InWindow, OpsOf, WrongGuesses, Run, Accepted;
    var s := Run(START, history);
    TriesAreOps(s, ts, k);
    OpsInWindow(s, ts, k, w);
    WindowBound(history, OpsOf(s, ts), k, w);
  }
}
