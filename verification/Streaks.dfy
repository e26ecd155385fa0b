/** The kill-switch streak evaluator of internal/alert/evaluator.go and signal.go. Values
    and thresholds are exact numbers, dates are ordered integers. */
module Streaks {

  datatype Direction = LT | GT | Unknown

  datatype Signal = Signal(name: string, value: real, threshold: real, direction: Direction)

  datatype Snapshot = Snapshot(date: int, signals: seq<Signal>)

  datatype Breach = Breach(name: string, days: nat, first: int)

  predicate IsBreached(s: Signal) {
    match s.direction
    case LT => s.value < s.threshold
    case GT => s.value > s.threshold
    case Unknown => false
  }

  // ---- the plain definition ----

  /** Below a lower bound, or above an upper one. */
  predicate Red(s: Signal) {
    (s.direction.LT? && s.value < s.threshold) || (s.direction.GT? && s.threshold < s.value)
  }

  /** Reading j of a snapshot is of signal x, and red. */
  predicate Reads(snap: Snapshot, j: int, x: string) { 0 <= j < |snap.signals| && snap.signals[j].name == x }

  predicate RedAt(snap: Snapshot, j: int, x: string) { Reads(snap, j, x) && Red(snap.signals[j]) }

  /** The reading at (date, j) comes after the one at (d, i). */
  predicate Later(date: int, j: int, d: int, i: int) { date > d || (date == d && j > i) }

  /** No green reading of x comes after (date, j). */
  ghost predicate NoGreenAfter(snaps: seq<Snapshot>, x: string, date: int, j: int) {
    forall snap, i :: snap in snaps && Reads(snap, i, x) && Later(snap.date, i, date, j) ==>
      Red(snap.signals[i])
  }

  /** The red readings of x after its last green one, by date and position. The definition
      does not look at the order of the snapshots. */
  ghost function Trailing(snaps: seq<Snapshot>, x: string): set<(int, int)> {
    set snap, j | snap in snaps && 0 <= j < |snap.signals| && RedAt(snap, j, x) && NoGreenAfter(snaps, x, snap.date, j)
      :: (snap.date, j)
  }

  predicate IsFirst(s: set<(int, int)>, date: int) {
    && (exists p :: p in s && p.0 == date)
    && (forall p :: p in s ==> date <= p.0)
  }

  /** Two snapshots with readings have different dates. */
  ghost predicate DistinctDates(snaps: seq<Snapshot>) {
    && (forall a :: a in snaps && a.signals != [] ==> multiset(snaps)[a] == 1)
    && (forall a, b :: a in snaps && b in snaps && a.signals != [] && b.signals != [] && a != b ==> a.date != b.date)
  }

  // ---- the readings in chronological order ----

  datatype Reading = Reading(name: string, date: int, pos: int, red: bool)

  function OfSnapshot(snap: Snapshot, n: nat): (rs: seq<Reading>)
    requires n <= |snap.signals|
    ensures |rs| == n
    ensures forall j :: 0 <= j < n ==>
      rs[j] == Reading(snap.signals[j].name, snap.date, j, IsBreached(snap.signals[j]))
  {
    seq(n, j requires 0 <= j < n => Reading(snap.signals[j].name, snap.date, j, IsBreached(snap.signals[j])))
  }

  function Flat(snaps: seq<Snapshot>): seq<Reading> {
    if snaps == [] then []
    else
      var last := snaps[|snaps| - 1];
      Flat(snaps[..|snaps| - 1]) + OfSnapshot(last, |last.signals|)
  }

  datatype Entry = Entry(count: nat, first: int)

  /** The zero time of a streak that has not begun. */
  const ZERO := Entry(0, 0)

  function Bump(e: Entry, date: int, red: bool): Entry {
    if !red then ZERO else Entry(e.count + 1, if e.count == 0 then date else e.first)
  }

  /** The streak of x after the readings. */
  function Streak(rs: seq<Reading>, x: string): Entry {
    if rs == [] then ZERO
    else
      var last := rs[|rs| - 1];
      var e := Streak(rs[..|rs| - 1], x);
      if last.name == x then Bump(e, last.date, last.red) else e
  }

  // ---- the streak counts the trailing reds ----

  predicate Increasing(rs: seq<Reading>) {
    forall k, m :: 0 <= k < m < |rs| ==> Later(rs[m].date, rs[m].pos, rs[k].date, rs[k].pos)
  }

  predicate RedTail(rs: seq<Reading>, x: string, k: int) {
    0 <= k < |rs| && rs[k].name == x && forall m :: k <= m < |rs| && rs[m].name == x ==> rs[m].red
  }

  ghost function Tail(rs: seq<Reading>, x: string): set<(int, int)> {
    set k | 0 <= k < |rs| && RedTail(rs, x, k) :: (rs[k].date, rs[k].pos)
  }

  lemma RedTailStep(rs: seq<Reading>, x: string, k: nat)
    requires k < |rs|
    ensures var n := |rs| - 1;
      RedTail(rs, x, k) <==> (if k < n then RedTail(rs[..n], x, k) else rs[n].name == x) && (rs[n].name == x ==> rs[n].red)
  {
  }

  lemma TailHas(rs: seq<Reading>, x: string, p: (int, int))
    ensures p in Tail(rs, x) <==> exists k: nat :: k < |rs| && RedTail(rs, x, k) && p == (rs[k].date, rs[k].pos)
  {
    hide RedTail;
  }

  lemma TailStep(rs: seq<Reading>, x: string)
    requires rs != []
    ensures var last, before := rs[|rs| - 1], Tail(rs[..|rs| - 1], x);
      Tail(rs, x) == if last.name != x then before else if last.red then before + {(last.date, last.pos)} else {}
  {
    hide Tail, RedTail;
    var n := |rs| - 1;
    var front, last := rs[..n], rs[n];
    forall p
      ensures p in Tail(rs, x) <==>
        (p in Tail(front, x) || (last.name == x && p == (last.date, last.pos))) && (last.name == x ==> last.red)
    {
      TailHas(rs, x, p);
      TailHas(front, x, p);
      forall k: nat | k < |rs|
        ensures RedTail(rs, x, k) <==>
          (if k < n then RedTail(front, x, k) else last.name == x) && (last.name == x ==> last.red)
        ensures k < n ==> front[k] == rs[k]
      {
        RedTailStep(rs, x, k);
      }
    }
  }

  lemma {:induction false} StreakCountsTail(rs: seq<Reading>, x: string)
    requires Increasing(rs)
    ensures Streak(rs, x).count == |Tail(rs, x)|
    ensures Tail(rs, x) != {} ==> IsFirst(Tail(rs, x), Streak(rs, x).first)
    ensures forall p :: p in Tail(rs, x) ==> exists k :: 0 <= k < |rs| && p == (rs[k].date, rs[k].pos)
  {
    hide Tail, Later, IsFirst;
    if rs == [] {
      TailNone(x);
    } else {
      var n := |rs| - 1;
      var front, last := rs[..n], rs[n];
      StreakCountsTail(front, x);
      TailStep(rs, x);
      TailBefore(rs, x);
      var t, key := Tail(front, x), (last.date, last.pos);
      if last.name == x && last.red {
        FirstGrows(t, key, Streak(front, x).first);
      }
    }
  }

  lemma TailBefore(rs: seq<Reading>, x: string)
    requires rs != [] && Increasing(rs)
    ensures var front, last := rs[..|rs| - 1], rs[|rs| - 1];
      forall p :: p in Tail(front, x) ==> p != (last.date, last.pos) && p.0 <= last.date
    ensures forall p :: p in Tail(rs, x) ==> exists k :: 0 <= k < |rs| && p == (rs[k].date, rs[k].pos)
  {
    var n := |rs| - 1;
    var front := rs[..n];
    forall p | p in Tail(front, x)
      ensures p != (rs[n].date, rs[n].pos) && p.0 <= rs[n].date
    {
      var k :| 0 <= k < |front| && p == (front[k].date, front[k].pos);
      assert front[k] == rs[k] && Later(rs[n].date, rs[n].pos, rs[k].date, rs[k].pos);
    }
  }

  lemma TailNone(x: string)
    ensures Tail([], x) == {}
  {
  }

  lemma FirstGrows(t: set<(int, int)>, key: (int, int), first: int)
    requires key !in t && (t != {} ==> IsFirst(t, first)) && forall p :: p in t ==> p.0 <= key.0
    ensures |t + {key}| == |t| + 1
    ensures IsFirst(t + {key}, if t == {} then key.0 else first)
  {
    assert key in t + {key};
    if t != {} {
      var p :| p in t && p.0 == first;
      assert p in t + {key};
    }
  }

  // ---- sorted snapshots give increasing readings ----

  predicate Ordered(snaps: seq<Snapshot>) { forall a, b :: 0 <= a < b < |snaps| ==> snaps[a].date <= snaps[b].date }

  lemma TwiceIn(snaps: seq<Snapshot>, a: nat, b: nat)
    requires a < b < |snaps| && snaps[a] == snaps[b]
    ensures multiset(snaps)[snaps[a]] >= 2
  {
    assert snaps == snaps[..b] + [snaps[b]] + snaps[b + 1..];
    assert snaps[..b][a] == snaps[a];
    assert snaps[a] in multiset(snaps[..b]);
  }

  lemma FlatSource(snaps: seq<Snapshot>, k: nat) returns (a: nat)
    requires k < |Flat(snaps)|
    ensures a < |snaps|
    ensures var r := Flat(snaps)[k]; 0 <= r.pos < |snaps[a].signals| && r == OfSnapshot(snaps[a], |snaps[a].signals|)[r.pos]
  {
    var n := |snaps| - 1;
    if k < |Flat(snaps[..n])| {
      a := FlatSource(snaps[..n], k);
    } else {
      a := n;
    }
  }

  lemma {:induction false} FlatHas(snaps: seq<Snapshot>, a: nat, j: nat) returns (k: nat)
    requires a < |snaps| && j < |snaps[a].signals|
    ensures k < |Flat(snaps)| && Flat(snaps)[k] == OfSnapshot(snaps[a], |snaps[a].signals|)[j]
  {
    var n := |snaps| - 1;
    if a == n {
      k := |Flat(snaps[..n])| + j;
    } else {
      k := FlatHas(snaps[..n], a, j);
    }
  }

  ghost predicate Apart(snaps: seq<Snapshot>) {
    forall a, b :: 0 <= a < b < |snaps| && snaps[a].signals != [] && snaps[b].signals != [] ==>
      snaps[a].date < snaps[b].date
  }

  lemma OrderedApart(snaps: seq<Snapshot>)
    requires Ordered(snaps) && DistinctDates(snaps)
    ensures Apart(snaps)
  {
    forall a, b | 0 <= a < b < |snaps| && snaps[a].signals != [] && snaps[b].signals != []
      ensures snaps[a].date < snaps[b].date
    {
      assert snaps[a] in snaps && snaps[b] in snaps;
      if snaps[a] == snaps[b] {
        TwiceIn(snaps, a, b);
        assert false;
      }
    }
  }

  lemma {:induction false} FlatIncreasing(snaps: seq<Snapshot>)
    requires Apart(snaps)
    ensures Increasing(Flat(snaps))
  {
    if snaps != [] {
      var n := |snaps| - 1;
      var front, last := snaps[..n], snaps[n];
      FlatIncreasing(front);
      var fs, ls := Flat(front), OfSnapshot(last, |last.signals|);
      var rs := Flat(snaps);
      forall k, m | 0 <= k < m < |rs| ensures Later(rs[m].date, rs[m].pos, rs[k].date, rs[k].pos) {
        if m < |fs| {
          assert rs[k] == fs[k] && rs[m] == fs[m];
        } else if k < |fs| {
          var a := FlatSource(front, k);
          assert front[a] == snaps[a];
        }
      }
    }
  }

  /** The chronological tail is the order-free set. */
  lemma TailIsTrailing(snaps: seq<Snapshot>, x: string)
    requires Increasing(Flat(snaps))
    ensures Tail(Flat(snaps), x) == Trailing(snaps, x)
  {
    hide Flat;
    var rs := Flat(snaps);
    forall p ensures p in Tail(rs, x) ==> p in Trailing(snaps, x) {
      if p in Tail(rs, x) {
        var k :| 0 <= k < |rs| && RedTail(rs, x, k) && p == (rs[k].date, rs[k].pos);
        TailInTrailing(snaps, x, k);
      }
    }
    forall p ensures p in Trailing(snaps, x) ==> p in Tail(rs, x) {
      if p in Trailing(snaps, x) {
        var snap, j :| snap in snaps && 0 <= j < |snap.signals| && RedAt(snap, j, x) && NoGreenAfter(snaps, x, snap.date, j)
          && p == (snap.date, j);
        TrailingInTail(snaps, x, snap, j);
      }
    }
  }

  lemma TailInTrailing(snaps: seq<Snapshot>, x: string, k: int)
    requires var rs := Flat(snaps); Increasing(rs) && 0 <= k < |rs| && RedTail(rs, x, k)
    ensures var rs := Flat(snaps); (rs[k].date, rs[k].pos) in Trailing(snaps, x)
  {
    hide Flat;
    var rs := Flat(snaps);
    var a := FlatSource(snaps, k);
    var snap, j := snaps[a], rs[k].pos;
    assert snap in snaps && RedAt(snap, j, x);
    forall t, i | t in snaps && Reads(t, i, x) && Later(t.date, i, snap.date, j) ensures Red(t.signals[i]) {
      var b :| 0 <= b < |snaps| && snaps[b] == t;
      var m := FlatHas(snaps, b, i);
      assert rs[m] == Reading(x, t.date, i, IsBreached(t.signals[i]));
      assert m < k ==> Later(rs[k].date, rs[k].pos, rs[m].date, rs[m].pos);
    }
    assert NoGreenAfter(snaps, x, snap.date, j);
  }

  lemma TrailingInTail(snaps: seq<Snapshot>, x: string, snap: Snapshot, j: int)
    requires Increasing(Flat(snaps)) && snap in snaps && RedAt(snap, j, x) && NoGreenAfter(snaps, x, snap.date, j)
    ensures (snap.date, j) in Tail(Flat(snaps), x)
  {
    hide Flat;
    var rs := Flat(snaps);
    var a :| 0 <= a < |snaps| && snaps[a] == snap;
    var k := FlatHas(snaps, a, j);
    assert rs[k] == Reading(x, snap.date, j, true);
    forall m | k <= m < |rs| && rs[m].name == x ensures rs[m].red {
      var b := FlatSource(snaps, m);
      var t := snaps[b];
      assert t in snaps && Reads(t, rs[m].pos, x);
      if m > k {
        assert Later(rs[m].date, rs[m].pos, rs[k].date, rs[k].pos);
      }
    }
    assert RedTail(rs, x, k);
  }

  /** Only which snapshots there are matters. */
  lemma SameSnapshots(a: seq<Snapshot>, b: seq<Snapshot>, x: string)
    requires multiset(a) == multiset(b)
    ensures Trailing(a, x) == Trailing(b, x) && (DistinctDates(a) <==> DistinctDates(b))
  {
    assert forall s :: s in a <==> s in multiset(a);
    assert forall s :: s in b <==> s in multiset(b);
    assert forall date, j :: NoGreenAfter(a, x, date, j) <==> NoGreenAfter(b, x, date, j);
  }

  // ---- the evaluator ----

  /** sort.Slice by date: it promises no order among equal dates. */
  method SortByDate(snaps: seq<Snapshot>) returns (sorted: seq<Snapshot>)
    ensures Ordered(sorted) && multiset(sorted) == multiset(snaps)
  {
    hide Ordered;
    sorted := [];
    NothingOrdered();
    var i := 0;
    while i < |snaps|
      invariant 0 <= i <= |snaps| && Ordered(sorted) && multiset(sorted) == multiset(snaps[..i])
    {
      assert snaps[..i + 1] == snaps[..i] + [snaps[i]];
      sorted := PutByDate(sorted, snaps[i]);
      i := i + 1;
    }
    assert snaps[..i] == snaps;
  }

  lemma NothingOrdered()
    ensures Ordered([])
  {
  }

  method PutByDate(sorted: seq<Snapshot>, snap: Snapshot) returns (more: seq<Snapshot>)
    requires Ordered(sorted)
    ensures Ordered(more) && multiset(more) == multiset(sorted) + multiset{snap}
  {
    hide Ordered;
    var j := |sorted|;
    while j > 0 && snap.date < sorted[j - 1].date
      invariant 0 <= j <= |sorted| && forall k :: j <= k < |sorted| ==> snap.date < sorted[k].date
    {
      j := j - 1;
    }
    SpliceOrdered(sorted, snap, j);
    SpliceAdds(sorted, snap, j);
    more := sorted[..j] + [snap] + sorted[j..];
  }

  lemma SpliceAdds(sorted: seq<Snapshot>, snap: Snapshot, j: nat)
    requires j <= |sorted|
    ensures multiset(sorted[..j] + [snap] + sorted[j..]) == multiset(sorted) + multiset{snap}
  {
    assert sorted == sorted[..j] + sorted[j..];
  }

  lemma SpliceOrdered(sorted: seq<Snapshot>, snap: Snapshot, j: nat)
    requires Ordered(sorted) && j <= |sorted| && (j > 0 ==> sorted[j - 1].date <= snap.date)
    requires forall k :: j <= k < |sorted| ==> snap.date < sorted[k].date
    ensures Ordered(sorted[..j] + [snap] + sorted[j..])
  {
    var more := sorted[..j] + [snap] + sorted[j..];
    forall a, b | 0 <= a < b < |more| ensures more[a].date <= more[b].date {
      var x := if a < j then a else a - 1;
      var y := if b < j then b else b - 1;
      assert a < j ==> more[a] == sorted[x] && x <= j - 1;
      assert a > j ==> more[a] == sorted[x];
      assert b < j ==> more[b] == sorted[y];
      assert b > j ==> more[b] == sorted[y] && y >= j;
    }
  }

  /** The order of names: by code, a proper prefix first. */
  predicate Before(a: string, b: string) {
    if b == "" then false
    else if a == "" then true
    else a[0] < b[0] || (a[0] == b[0] && Before(a[1..], b[1..]))
  }

  lemma {:induction false} BeforeTotal(a: string, b: string)
    ensures a == b || Before(a, b) || Before(b, a)
    ensures !Before(a, a)
    decreases |a|
  {
    if a != "" {
      BeforeTotal(a[1..], if b == "" then a[1..] else b[1..]);
      assert b != "" ==> a == [a[0]] + a[1..] && b == [b[0]] + b[1..];
    }
  }

  lemma {:induction false} BeforeTransitive(a: string, b: string, c: string)
    requires Before(a, b) && Before(b, c)
    ensures Before(a, c)
    decreases |a|
  {
    if a != "" && a[0] == b[0] == c[0] {
      BeforeTransitive(a[1..], b[1..], c[1..]);
    }
  }

  predicate Sorted(bs: seq<Breach>) { forall i, j :: 0 <= i < j < |bs| ==> Before(bs[i].name, bs[j].name) }

  /** Puts one more breach at its place by name. */
  method Insert(bs: seq<Breach>, b: Breach) returns (cs: seq<Breach>)
    requires Sorted(bs) && forall i :: 0 <= i < |bs| ==> bs[i].name != b.name
    ensures Sorted(cs) && forall c :: c in cs <==> c in bs || c == b
  {
    hide Before, Sorted;
    var j := |bs|;
    while j > 0 && Before(b.name, bs[j - 1].name)
      invariant 0 <= j <= |bs| && forall k :: j <= k < |bs| ==> Before(b.name, bs[k].name)
    {
      j := j - 1;
    }
    if j > 0 {
      BeforeTotal(bs[j - 1].name, b.name);
    }
    SpliceSorted(bs, b, j);
    cs := bs[..j] + [b] + bs[j..];
    assert bs == bs[..j] + bs[j..];
  }

  lemma SpliceSorted(bs: seq<Breach>, b: Breach, j: nat)
    requires Sorted(bs) && j <= |bs| && (j > 0 ==> Before(bs[j - 1].name, b.name))
    requires forall k :: j <= k < |bs| ==> Before(b.name, bs[k].name)
    ensures Sorted(bs[..j] + [b] + bs[j..])
  {
    hide Before;
    var cs := bs[..j] + [b] + bs[j..];
    forall x, y | 0 <= x < y < |cs| ensures Before(cs[x].name, cs[y].name) {
      var u := if x < j then x else x - 1;
      var v := if y < j then y else y - 1;
      assert x < j ==> cs[x] == bs[u];
      assert x > j ==> cs[x] == bs[u];
      assert y < j ==> cs[y] == bs[v];
      assert y > j ==> cs[y] == bs[v] && v >= j;
      if y == j && x < j - 1 {
        BeforeTransitive(bs[x].name, bs[j - 1].name, b.name);
      }
    }
  }

  function EntryFor(streaks: map<string, Entry>, x: string): Entry {
    if x in streaks then streaks[x] else ZERO
  }

  /** The loop over the sorted snapshots. */
  method Accumulate(sorted: seq<Snapshot>) returns (streaks: map<string, Entry>)
    ensures forall x :: EntryFor(streaks, x) == Streak(Flat(sorted), x)
  {
    hide Streak, Flat;
    streaks := map[];
    FlatNone();
    StreakNone();
    var i := 0;
    while i < |sorted|
      invariant 0 <= i <= |sorted| && forall x :: EntryFor(streaks, x) == Streak(Flat(sorted[..i]), x)
    {
      var snap := sorted[i];
      ghost var rs := Flat(sorted[..i]);
      assert rs + OfSnapshot(snap, 0) == rs;
      var j := 0;
      while j < |snap.signals|
        invariant 0 <= j <= |snap.signals|
        invariant forall x :: EntryFor(streaks, x) == Streak(rs + OfSnapshot(snap, j), x)
      {
        var sig := snap.signals[j];
        var entry := if sig.name in streaks then streaks[sig.name] else ZERO;
        if IsBreached(sig) {
          entry := Entry(entry.count + 1, if entry.count == 0 then snap.date else entry.first);
        } else {
          entry := ZERO;
        }
        ghost var before := rs + OfSnapshot(snap, j);
        ghost var r := Reading(sig.name, snap.date, j, IsBreached(sig));
        assert rs + OfSnapshot(snap, j + 1) == before + [r];
        forall x
          ensures Streak(before + [r], x) ==
            if x == sig.name then Bump(Streak(before, x), snap.date, r.red) else Streak(before, x)
        {
          StreakStep(before, r, x);
        }
        streaks := streaks[sig.name := entry];
        j := j + 1;
      }
      assert sorted[..i + 1][..i] == sorted[..i] && sorted[..i + 1][i] == snap;
      FlatStep(sorted[..i + 1]);
      i := i + 1;
    }
    assert sorted[..i] == sorted;
  }

  lemma FlatNone()
    ensures Flat([]) == []
  {
  }

  lemma StreakNone()
    ensures forall x :: Streak([], x) == ZERO
  {
  }

  lemma FlatStep(snaps: seq<Snapshot>)
    requires snaps != []
    ensures var last := snaps[|snaps| - 1];
      Flat(snaps) == Flat(snaps[..|snaps| - 1]) + OfSnapshot(last, |last.signals|)
  {
  }

  lemma StreakStep(rs: seq<Reading>, r: Reading, x: string)
    ensures Streak(rs + [r], x) == if r.name == x then Bump(Streak(rs, x), r.date, r.red) else Streak(rs, x)
  {
    assert (rs + [r])[..|rs|] == rs;
  }

  /** b is a signal with at least n trailing red readings, as the plain definition has it. */
  ghost predicate IsBreach(snaps: seq<Snapshot>, n: int, b: Breach) {
    b.days == |Trailing(snaps, b.name)| && b.days >= n && IsFirst(Trailing(snaps, b.name), b.first)
  }

  /** For snapshots in any order, as long as those with readings have distinct dates, the
      result is exactly the signals in breach, each once, in the order of their names. */
  method Evaluate(snaps: seq<Snapshot>, required: int) returns (breaches: seq<Breach>)
    ensures Sorted(breaches)
    ensures required <= 0 ==> breaches == []
    ensures required > 0 && DistinctDates(snaps) ==> forall b :: b in breaches <==> IsBreach(snaps, required, b)
  {
    hide Flat, Streak, Trailing, DistinctDates, IsFirst, Before;
    if |snaps| == 0 || required <= 0 {
      NoSnapshots(snaps, required);
      return [];
    }
    var sorted := SortByDate(snaps);
    var streaks := Accumulate(sorted);
    breaches := [];
    var names := streaks.Keys;
    while names != {}
      invariant names <= streaks.Keys && Sorted(breaches)
      invariant forall b :: b in breaches <==>
        && b.name in streaks && b.name !in names && streaks[b.name].count >= required
        && b == Breach(b.name, streaks[b.name].count, streaks[b.name].first)
      decreases |names|
    {
      var name :| name in names;
      names := names - {name};
      var entry := streaks[name];
      if entry.count >= required {
        breaches := Insert(breaches, Breach(name, entry.count, entry.first));
      }
    }
    if DistinctDates(snaps) {
      forall b ensures b in breaches <==> IsBreach(snaps, required, b) {
        StreakIsBreach(snaps, sorted, required, b);
        assert EntryFor(streaks, b.name) == Streak(Flat(sorted), b.name);
      }
    }
  }

  lemma NoSnapshots(snaps: seq<Snapshot>, required: int)
    ensures snaps == [] && required > 0 ==> forall b :: !IsBreach(snaps, required, b)
  {
    if snaps == [] && required > 0 {
      forall b: Breach ensures |Trailing(snaps, b.name)| == 0 {
        assert Trailing(snaps, b.name) == {};
      }
    }
  }

  /** The accumulated entry decides the breach. */
  lemma StreakIsBreach(snaps: seq<Snapshot>, sorted: seq<Snapshot>, required: int, b: Breach)
    requires Ordered(sorted) && multiset(sorted) == multiset(snaps) && DistinctDates(snaps) && required > 0
    ensures var e := Streak(Flat(sorted), b.name);
      IsBreach(snaps, required, b) <==> e.count >= required && b == Breach(b.name, e.count, e.first)
  {
    hide Flat, Streak, Trailing, DistinctDates, IsFirst;
    SameSnapshots(snaps, sorted, b.name);
    OrderedApart(sorted);
    FlatIncreasing(sorted);
    StreakCountsTail(Flat(sorted), b.name);
    TailIsTrailing(sorted, b.name);
    var t, e := Trailing(snaps, b.name), Streak(Flat(sorted), b.name);
    if t != {} && IsFirst(t, b.first) {
      FirstUnique(t, b.first, e.first);
    }
    if |t| > 0 {
      assert t != {};
    }
  }

  lemma FirstUnique(t: set<(int, int)>, a: int, b: int)
    requires IsFirst(t, a) && IsFirst(t, b)
    ensures a == b
  {
  }
}
