/** The client's idempotency key holder of web/lib/submit-key.ts. */
module SubmitKey {

  import I = Idempotency

  datatype Held = Nothing | Key(key: string, fingerprint: string)

  /** What a submit ended with. */
  datatype Result = Success | NetworkError | ApiError(status: int) | OtherError

  /** No real answer came back: a network error, or a gateway 502, 503 or 504. */
  predicate Lost(r: Result) { r.NetworkError? || (r.ApiError? && r.status in {502, 503, 504}) }

  /** One call on the holder; `made` is the key the generator would make now. */
  datatype Call = KeyFor(payload: string, made: string) | Ended(result: Result)

  function After(h: Held, c: Call): Held {
    match c
    case KeyFor(payload, made) => if h.Key? && h.fingerprint == payload then h else Key(made, payload)
    case Ended(r) => if r.Success? || !Lost(r) then Nothing else h
  }

  /** What is held after the calls, starting from nothing. */
  function Holding(calls: seq<Call>): Held {
    if calls == [] then Nothing else After(Holding(calls[..|calls| - 1]), calls[|calls| - 1])
  }

  /** The key handed out by call n. */
  function Given(calls: seq<Call>, n: nat): string
    requires n < |calls| && calls[n].KeyFor?
  {
    var h := After(Holding(calls[..n]), calls[n]);
    if h.Key? then h.key else assert false; ""
  }

  class UseSubmitKey {
    var held: Held

    constructor ()
      ensures held == Nothing
    {
      held := Nothing;
    }

    method KeyFor(payload: string, made: string) returns (key: string)
      modifies this
      ensures held == After(old(held), Call.KeyFor(payload, made)) && held == Key(key, payload)
    {
      if held.Nothing? || held.fingerprint != payload {
        held := Key(made, payload);
      }
      key := held.key;
    }

    method Failed(err: Result)
      requires !err.Success?
      modifies this
      ensures held == After(old(held), Ended(err))
    {
      var lost := err.NetworkError? || (err.ApiError? && (err.status == 502 || err.status == 503 || err.status == 504));
      if !lost {
        held := Nothing;
      }
    }

    method Succeeded()
      modifies this
      ensures held == After(old(held), Ended(Success))
    {
      held := Nothing;
    }
  }

  /** The generator never repeats a key. */
  predicate FreshKeys(calls: seq<Call>) {
    forall m, n :: 0 <= m < n < |calls| && calls[m].KeyFor? && calls[n].KeyFor? ==> calls[m].made != calls[n].made
  }

  /** Nothing between two calls gives the key up: only lost replies and the same payload. */
  predicate Pending(calls: seq<Call>, m: nat, n: nat)
    requires m <= n <= |calls| && m < |calls| && calls[m].KeyFor?
  {
    forall k :: m < k < n ==>
      match calls[k]
      case KeyFor(payload, _) => payload == calls[m].payload
      case Ended(r) => r == NetworkError || r == ApiError(502) || r == ApiError(503) || r == ApiError(504)
  }

  lemma HoldingStep(calls: seq<Call>, n: nat)
    requires n < |calls|
    ensures Holding(calls[..n + 1]) == After(Holding(calls[..n]), calls[n])
  {
    assert calls[..n + 1][..n] == calls[..n];
  }

  /** While pending, the holder keeps the key given at m. */
  lemma {:induction false} PendingKeeps(calls: seq<Call>, m: nat, n: nat)
    requires m < n <= |calls| && calls[m].KeyFor? && Pending(calls, m, n)
    ensures Holding(calls[..n]) == Key(Given(calls, m), calls[m].payload)
    decreases n
  {
    hide Holding;
    HoldingStep(calls, n - 1);
    if m + 1 < n {
      PendingKeeps(calls, m, n - 1);
    }
  }

  /** The held key was generated at an earlier call with the held payload, pending since. */
  lemma {:induction false} HeldSource(calls: seq<Call>, n: nat) returns (m: nat)
    requires n <= |calls| && Holding(calls[..n]).Key?
    ensures m < n && calls[m].KeyFor? && calls[m].made == Holding(calls[..n]).key
    ensures calls[m].payload == Holding(calls[..n]).fingerprint && Pending(calls, m, n)
    decreases n
  {
    hide Holding;
    if n == 0 {
      HoldingEmpty(calls[..0]);
      assert false;
    } else {
      HoldingStep(calls, n - 1);
      var h := Holding(calls[..n - 1]);
      var c := calls[n - 1];
      if h.Key? && (c.Ended? || h.fingerprint == c.payload) {
        m := HeldSource(calls, n - 1);
      } else {
        m := n - 1;
      }
    }
  }

  lemma HoldingEmpty(calls: seq<Call>)
    requires calls == []
    ensures Holding(calls) == Nothing
  {
  }

  /** Two attempts get the same key exactly when the payload is unchanged and every call
      between them was a lost reply or another attempt with that payload. */
  lemma SameKeyExactly(calls: seq<Call>, m: nat, n: nat)
    requires m < n < |calls| && calls[m].KeyFor? && calls[n].KeyFor? && FreshKeys(calls)
    ensures Given(calls, m) == Given(calls, n) <==> calls[m].payload == calls[n].payload && Pending(calls, m, n)
  {
    hide Holding;
    HoldingStep(calls, m);
    HoldingStep(calls, n);
    if calls[m].payload == calls[n].payload && Pending(calls, m, n) {
      PendingKeeps(calls, m, n);
    }
    if Given(calls, m) == Given(calls, n) {
      var a := HeldSource(calls, m + 1);
      var b := HeldSource(calls, n + 1);
      assert calls[a].made == calls[b].made;
      assert a == b;
    }
  }

  // ---- against the server ----

  /** One submit button: its holder's history and where it submits. */
  datatype Button = Button(tenant: string, method_: string, path: string, calls: seq<Call>)

  datatype Attempt = Attempt(button: nat, call: nat)

  predicate IsAttempt(bs: seq<Button>, a: Attempt) {
    a.button < |bs| && a.call < |bs[a.button].calls| && bs[a.button].calls[a.call].KeyFor?
  }

  function Made(bs: seq<Button>, a: Attempt): string
    requires IsAttempt(bs, a)
  {
    bs[a.button].calls[a.call].made
  }

  ghost predicate FreshEverywhere(bs: seq<Button>) {
    forall a, b :: IsAttempt(bs, a) && IsAttempt(bs, b) && a != b ==> Made(bs, a) != Made(bs, b)
  }

  /** The request an attempt sends: the payload is the body. */
  function Sent(bs: seq<Button>, a: Attempt): I.Req
    requires IsAttempt(bs, a)
  {
    var b := bs[a.button];
    I.Req(b.tenant, Given(b.calls, a.call), b.method_, b.path, b.calls[a.call].payload)
  }

  lemma SentSource(bs: seq<Button>, a: Attempt) returns (m: Attempt)
    requires IsAttempt(bs, a)
    ensures IsAttempt(bs, m) && m.button == a.button && Made(bs, m) == Sent(bs, a).raw
    ensures bs[m.button].calls[m.call].payload == Sent(bs, a).body
  {
    hide Holding;
    var calls := bs[a.button].calls;
    HoldingStep(calls, a.call);
    var n := HeldSource(calls, a.call + 1);
    m := Attempt(a.button, n);
  }

  /** Requests of any buttons that carry the same key are the same request. */
  lemma SameKeySameRequest(bs: seq<Button>, a: Attempt, b: Attempt)
    requires FreshEverywhere(bs) && IsAttempt(bs, a) && IsAttempt(bs, b) && I.SameKey(Sent(bs, a), Sent(bs, b))
    ensures Sent(bs, a) == Sent(bs, b)
  {
    hide Holding, Given;
    var m := SentSource(bs, a);
    var n := SentSource(bs, b);
  }

  /** In every run of the server, whatever its faults and delays, no attempt of any button
      is refused for a reused key. */
  lemma NeverRefused(bs: seq<Button>, attempts: seq<Attempt>, rs: seq<I.Req>,
                     states: seq<I.State>, events: seq<I.Event>, i: nat)
    requires FreshEverywhere(bs) && |rs| == |attempts| && I.Requests(rs)
    requires forall k :: 0 <= k < |rs| ==> IsAttempt(bs, attempts[k]) && rs[k] == Sent(bs, attempts[k])
    requires I.IsRun(rs, states, events) && states[0] == I.Initial(|rs|) && i < |rs|
    ensures states[|events|].phases[i] != I.Done(I.KeyReused)
  {
    hide Sent, I.IsRun, I.Requests;
    forall a, b | 0 <= a < |rs| && 0 <= b < |rs| && I.SameKey(rs[a], rs[b]) ensures rs[a] == rs[b] {
      SameKeySameRequest(bs, attempts[a], attempts[b]);
    }
    RunShape(rs, states, events);
    I.HonestKeysNeverRefused(rs, states, events, i);
  }

  lemma RunShape(rs: seq<I.Req>, states: seq<I.State>, events: seq<I.Event>)
    requires I.IsRun(rs, states, events)
    ensures |states| == |events| + 1 && |states[|events|].phases| == |rs|
  {
  }
}
