/** The status-history table parser of cmd/kill-switch-monitor/parser.go, and what its rows
    mean to the streak evaluator. */
module Assumptions {

  import C = Calendar
  import opened GoStrings
  import opened Streaks
  import opened Wrappers

  // ---- text ----

  /** unicode.ToLower, where it can give one of a to z. */
  function Lower(c: char): char {
    if 'A' <= c <= 'Z' then (c as int + 32) as char
    else if c == '\U{130}' then 'i'
    else if c == '\U{212A}' then 'k'
    else c
  }

  function ToLower(s: string): string { if s == "" then "" else [Lower(s[0])] + ToLower(s[1..]) }

  predicate HasDashes(s: string) {
    |s| >= 3 && (s[..3] == "---" || HasDashes(s[1..]))
  }

  /** strings.Split(s, "|") */
  function Split(s: string): (parts: seq<string>)
    ensures |parts| > 0
  {
    if s == "" then [""]
    else
      var rest := Split(s[1..]);
      if s[0] == '|' then [""] + rest else [[s[0]] + rest[0]] + rest[1..]
  }

  function SplitTableRow(line: string): seq<string> {
    var parts := Split(line);
    if |parts| >= 2 then parts[1..|parts| - 1] else parts
  }

  function StatusToValue(status: string): Option<real> {
    var s := ToLower(Trim(status));
    if s == "truthy" then Some(1.0) else if s == "falsified" then Some(0.0) else None
  }

  function StatusAt(cols: seq<string>, idx: nat): Option<real> {
    if idx >= |cols| then None else StatusToValue(Trim(cols[idx]))
  }

  predicate IsDigit(c: char) { '0' <= c <= '9' }

  function Two(s: string): nat
    requires |s| == 2 && IsDigit(s[0]) && IsDigit(s[1])
  {
    10 * (s[0] as int - '0' as int) + (s[1] as int - '0' as int)
  }

  function DaysIn(y: nat, m: nat): nat {
    if m == 2 then if y % 4 == 0 && (y % 100 != 0 || y % 400 == 0) then 29 else 28
    else if m in {4, 6, 9, 11} then 30 else 31
  }

  /** time.DateOnly; the date as the number yyyymmdd. */
  function ParseDate(s: string): Option<int> {
    if |s| != 10 || s[4] != '-' || s[7] != '-' || !(forall i :: 0 <= i < 10 && i != 4 && i != 7 ==> IsDigit(s[i])) then None
    else
      var y, m, d := 100 * Two(s[..2]) + Two(s[2..4]), Two(s[5..7]), Two(s[8..10]);
      if 1 <= m <= 12 && 1 <= d <= DaysIn(y, m) then Some(10000 * y + 100 * m + d) else None
  }

  // ---- the table ----

  const COL_DATE := 0
  const COL_KS1 := 7
  const COL_KS2 := 9

  function SignalOf(name: string, threshold: real, value: Option<real>): seq<Signal> {
    if value.Some? then [Signal(name, value.value, threshold, LT)] else []
  }

  function SignalsOf(cols: seq<string>): seq<Signal> {
    SignalOf("ks1_onboarding_rate", 0.40, StatusAt(cols, COL_KS1))
    + SignalOf("ks2_ai_po_order_rate", 0.20, StatusAt(cols, COL_KS2))
  }

  datatype Table = Table(inTable: bool, headerParsed: bool, snapshots: seq<Snapshot>)

  const START := Table(false, false, [])

  function DataRow(t: Table, line: string): Table {
    var cols := SplitTableRow(line);
    if |cols| <= COL_DATE then t
    else
      var date := ParseDate(Trim(cols[COL_DATE]));
      if date.None? then t else t.(snapshots := t.snapshots + [Snapshot(date.value, SignalsOf(cols))])
  }

  function ParseLine(t: Table, raw: string): Table {
    var line := Trim(raw);
    if line == "" || line[0] != '|' then if t.inTable then Table(false, false, t.snapshots) else t
    else if HasDashes(line) then Table(true, true, t.snapshots)
    else if !t.inTable then Table(true, t.headerParsed, t.snapshots)
    else if !t.headerParsed then t
    else DataRow(t, line)
  }

  function ParseFrom(t: Table, lines: seq<string>): Table
    decreases |lines|
  {
    if lines == [] then t else ParseFrom(ParseLine(t, lines[0]), lines[1..])
  }

  function Parse(lines: seq<string>): seq<Snapshot> { ParseFrom(START, lines).snapshots }

  method ParseAssumptions(lines: seq<string>) returns (snapshots: seq<Snapshot>)
    ensures snapshots == Parse(lines)
  {
    hide Trim, HasDashes, SplitTableRow, ParseDate, StatusAt;
    snapshots := [];
    var inTable, headerParsed := false, false;
    var i := 0;
    while i < |lines|
      invariant 0 <= i <= |lines|
      invariant ParseFrom(Table(inTable, headerParsed, snapshots), lines[i..]) == ParseFrom(START, lines)
    {
      var line := Trim(lines[i]);
      assert lines[i..][0] == lines[i] && lines[i..][1..] == lines[i + 1..];
      i := i + 1;
      if line == "" || line[0] != '|' {
        if inTable {
          inTable := false;
          headerParsed := false;
        }
        continue;
      }
      if HasDashes(line) {
        inTable := true;
        headerParsed := true;
        continue;
      }
      if !inTable {
        inTable := true;
        continue;
      }
      if !headerParsed {
        continue;
      }
      var cols := SplitTableRow(line);
      if |cols| <= COL_DATE {
        continue;
      }
      var date := ParseDate(Trim(cols[COL_DATE]));
      if date.None? {
        continue;
      }
      var signals: seq<Signal> := [];
      var v := StatusAt(cols, COL_KS1);
      if v.Some? {
        signals := signals + [Signal("ks1_onboarding_rate", v.value, 0.40, LT)];
      }
      v := StatusAt(cols, COL_KS2);
      if v.Some? {
        signals := signals + [Signal("ks2_ai_po_order_rate", v.value, 0.20, LT)];
      }
      assert signals == SignalsOf(cols);
      snapshots := snapshots + [Snapshot(date.value, signals)];
    }
  }

  // ---- rows without a reading ----

  /** A table line that is no separator and whose KS cells carry no reading. */
  predicate NoReading(raw: string) {
    var line := Trim(raw);
    && line != "" && line[0] == '|' && !HasDashes(line)
    && StatusAt(SplitTableRow(line), COL_KS1).None? && StatusAt(SplitTableRow(line), COL_KS2).None?
  }

  /** The snapshots that carry a reading. */
  function Real(snaps: seq<Snapshot>): seq<Snapshot> {
    if snaps == [] then []
    else Real(snaps[..|snaps| - 1]) + (if snaps[|snaps| - 1].signals == [] then [] else [snaps[|snaps| - 1]])
  }

  /** The parser goes on alike from both: it collects rows in both or in neither. */
  predicate Alike(t: Table, u: Table) {
    && (t.headerParsed ==> t.inTable) && (u.headerParsed ==> u.inTable)
    && t.headerParsed == u.headerParsed && Real(t.snapshots) == Real(u.snapshots)
  }

  lemma RealAppend(snaps: seq<Snapshot>, s: Snapshot)
    ensures Real(snaps + [s]) == Real(snaps) + if s.signals == [] then [] else [s]
  {
    assert (snaps + [s])[..|snaps|] == snaps;
  }

  lemma AlikeStep(t: Table, u: Table, raw: string)
    requires Alike(t, u)
    ensures Alike(ParseLine(t, raw), ParseLine(u, raw))
  {
    hide Trim, HasDashes, SplitTableRow, ParseDate, StatusAt, Real, SignalsOf;
    forall s: Snapshot {:trigger t.snapshots + [s]}
      ensures Real(t.snapshots + [s]) == Real(t.snapshots) + if s.signals == [] then [] else [s]
    {
      RealAppend(t.snapshots, s);
    }
    forall s: Snapshot {:trigger u.snapshots + [s]}
      ensures Real(u.snapshots + [s]) == Real(u.snapshots) + if s.signals == [] then [] else [s]
    {
      RealAppend(u.snapshots, s);
    }
  }

  lemma NoReadingStep(t: Table, raw: string)
    requires (t.headerParsed ==> t.inTable) && NoReading(raw)
    ensures Alike(t, ParseLine(t, raw))
  {
    hide Trim, HasDashes, SplitTableRow, ParseDate, StatusAt, Real;
    var cols := SplitTableRow(Trim(raw));
    if |cols| > 0 && ParseDate(Trim(cols[0])).Some? {
      RealAppend(t.snapshots, Snapshot(ParseDate(Trim(cols[0])).value, SignalsOf(cols)));
    }
  }

  lemma {:induction false} AlikeFrom(t: Table, u: Table, lines: seq<string>)
    requires Alike(t, u)
    ensures Alike(ParseFrom(t, lines), ParseFrom(u, lines))
    decreases |lines|
  {
    hide ParseLine, Alike;
    if lines != [] {
      AlikeStep(t, u, lines[0]);
      AlikeFrom(ParseLine(t, lines[0]), ParseLine(u, lines[0]), lines[1..]);
    }
  }

  lemma {:induction false} ParseAppend(t: Table, a: seq<string>, b: seq<string>)
    ensures ParseFrom(t, a + b) == ParseFrom(ParseFrom(t, a), b)
    decreases |a|
  {
    hide ParseLine;
    if a == [] {
      assert a + b == b;
    } else {
      assert (a + b)[1..] == a[1..] + b;
      ParseAppend(ParseLine(t, a[0]), a[1..], b);
    }
  }

  lemma CountSnoc(a: seq<Snapshot>, x: Snapshot, s: Snapshot)
    ensures multiset(a + [x])[s] == multiset(a)[s] + One(x == s)
  {
  }

  lemma RealSnoc(snaps: seq<Snapshot>)
    requires snaps != []
    ensures var n := |snaps| - 1;
      Real(snaps) == Real(snaps[..n]) + (if snaps[n].signals == [] then [] else [snaps[n]])
  {
  }

  lemma RealStep(snaps: seq<Snapshot>, s: Snapshot)
    requires snaps != []
    ensures var front, last := snaps[..|snaps| - 1], snaps[|snaps| - 1];
      && multiset(snaps)[s] == multiset(front)[s] + One(last == s)
      && multiset(Real(snaps))[s] == multiset(Real(front))[s] + One(last.signals != [] && last == s)
  {
    hide Real;
    var front, last := snaps[..|snaps| - 1], snaps[|snaps| - 1];
    RealSnoc(snaps);
    CountSnoc(front, last, s);
    CountSnoc(Real(front), last, s);
    assert snaps == front + [last];
    assert Real(front) + [] == Real(front);
  }

  lemma {:induction false} RealHas(snaps: seq<Snapshot>, s: Snapshot)
    ensures multiset(Real(snaps))[s] == if s.signals == [] then 0 else multiset(snaps)[s]
  {
    hide Real;
    if snaps == [] {
      RealNothing();
    } else {
      RealHas(snaps[..|snaps| - 1], s);
      RealStep(snaps, s);
    }
  }

  lemma RealNothing()
    ensures Real([]) == []
  {
  }

  /** Only the snapshots with a reading matter to the evaluator. */
  lemma RealDecides(snaps: seq<Snapshot>, x: string)
    ensures Trailing(Real(snaps), x) == Trailing(snaps, x) && (DistinctDates(Real(snaps)) <==> DistinctDates(snaps))
  {
    hide Real;
    forall s ensures s in Real(snaps) <==> s in snaps && s.signals != [] {
      RealHas(snaps, s);
      assert s in multiset(snaps) <==> s in snaps;
      assert s in multiset(Real(snaps)) <==> s in Real(snaps);
    }
    forall s: Snapshot | s.signals != [] ensures multiset(Real(snaps))[s] == multiset(snaps)[s] {
      RealHas(snaps, s);
    }
    forall date, j ensures NoGreenAfter(Real(snaps), x, date, j) <==> NoGreenAfter(snaps, x, date, j) {
      forall snap, i | snap in snaps && Reads(snap, i, x) ensures snap in Real(snaps) {
      }
    }
  }

  /** Adding a row whose KS cells carry no reading, anywhere in any file, never changes the
      evaluator's verdict. */
  lemma RowsWithoutReadingDoNotMatter(a: seq<string>, raw: string, b: seq<string>, required: int, breach: Breach)
    requires NoReading(raw)
    ensures DistinctDates(Parse(a + [raw] + b)) <==> DistinctDates(Parse(a + b))
    ensures IsBreach(Parse(a + [raw] + b), required, breach) <==> IsBreach(Parse(a + b), required, breach)
  {
    hide ParseLine, Real, NoReading, DistinctDates, Trailing;
    var t := ParseFrom(START, a);
    ParseAppend(START, a, b);
    ParseAppend(START, a, [raw] + b);
    assert a + [raw] + b == a + ([raw] + b);
    ParseAppend(t, [raw], b);
    assert [raw][1..] == [];
    NothingRead();
    AlikeFrom(START, START, a);
    NoReadingStep(t, raw);
    AlikeFrom(t, ParseLine(t, raw), b);
    RealDecides(Parse(a + b), breach.name);
    RealDecides(Parse(a + [raw] + b), breach.name);
  }

  lemma NothingRead()
    ensures Alike(START, START)
  {
  }

  // ---- what a written row means ----

  function Join(cells: seq<string>): string
    requires |cells| > 0
  {
    if |cells| == 1 then cells[0] else cells[0] + "|" + Join(cells[1..])
  }

  lemma {:induction false} SplitCell(cell: string, rest: string)
    requires '|' !in cell
    ensures Split(cell + "|" + rest) == [cell] + Split(rest)
  {
    var s := cell + "|" + rest;
    if cell == "" {
      assert s[1..] == rest;
    } else {
      assert s[1..] == cell[1..] + "|" + rest;
      SplitCell(cell[1..], rest);
      assert cell == [cell[0]] + cell[1..];
    }
  }

  lemma {:induction false} SplitLast(cell: string)
    requires '|' !in cell
    ensures Split(cell) == [cell]
  {
    if cell != "" {
      SplitLast(cell[1..]);
      assert cell == [cell[0]] + cell[1..];
    }
  }

  /** Splitting undoes joining. */
  lemma {:induction false} SplitJoin(cells: seq<string>)
    requires |cells| > 0 && forall i :: 0 <= i < |cells| ==> '|' !in cells[i]
    ensures Split(Join(cells)) == cells
  {
    hide Split;
    if |cells| == 1 {
      SplitLast(cells[0]);
    } else {
      SplitJoin(cells[1..]);
      SplitCell(cells[0], Join(cells[1..]));
    }
  }

  lemma JoinLast(cell: string)
    ensures Join([cell]) == cell
  {
  }

  lemma {:induction false} JoinAppend(cells: seq<string>, last: string)
    requires |cells| > 0
    ensures Join(cells + [last]) == Join(cells) + "|" + last
  {
    hide Join;
    assert cells == [cells[0]] + cells[1..];
    assert cells + [last] == [cells[0]] + (cells[1..] + [last]);
    JoinFirst(cells[0], cells[1..] + [last]);
    if |cells| > 1 {
      JoinFirst(cells[0], cells[1..]);
      JoinAppend(cells[1..], last);
    } else {
      JoinLast(last);
      JoinLast(cells[0]);
      assert cells == [cells[0]] && cells[1..] + [last] == [last];
    }
  }

  lemma TrimBars(line: string)
    requires line != "" && line[0] == '|' && line[|line| - 1] == '|'
    ensures Trim(line) == line
  {
  }

  /** A row written between bars is read, inside the table, as the snapshot of its date whose
      signals are the KS1 and KS2 readings of cells 7 and 9. */
  lemma WrittenRowIsRead(t: Table, cells: seq<string>, date: int)
    requires t.inTable && t.headerParsed && |cells| > 0 && forall i :: 0 <= i < |cells| ==> '|' !in cells[i]
    requires var line := "|" + Join(cells) + "|"; !HasDashes(line)
    requires ParseDate(Trim(cells[0])) == Some(date)
    ensures var signals := Reading("ks1_onboarding_rate", 0.4, cells, 7) + Reading("ks2_ai_po_order_rate", 0.2, cells, 9);
      ParseLine(t, "|" + Join(cells) + "|") == t.(snapshots := t.snapshots + [Snapshot(date, signals)])
  {
    hide Trim, HasDashes, ParseDate, SignalsOf, Join, SplitTableRow, Reading;
    TrimBars("|" + Join(cells) + "|");
    RowSplits(cells);
    SignalsRead(cells);
  }

  /** c is the lower-case letter l, its capital, or another letter with that lower case. */
  predicate CasingOf(c: char, l: char) {
    c == l || ('A' <= c <= 'Z' && c as int - 'A' as int == l as int - 'a' as int)
    || (l == 'i' && c == '\U{130}') || (l == 'k' && c == '\U{212A}')
  }

  predicate SpelledAs(core: string, word: string) {
    |core| == |word| && forall k :: 0 <= k < |word| ==> CasingOf(core[k], word[k])
  }

  /** Cell idx says the word, in any casing and with any white space around it. */
  ghost predicate Says(cells: seq<string>, idx: nat, word: string) {
    idx < |cells| && exists head, core, tail :: Wraps(cells[idx], head, core, tail) && SpelledAs(core, word)
  }

  predicate Wraps(cell: string, head: string, core: string, tail: string) {
    cell == head + core + tail && AllSpace(head) && AllSpace(tail)
  }

  /** What cell idx says of a signal: truthy reads 1, falsified reads 0, anything else nothing. */
  ghost function Reading(name: string, threshold: real, cells: seq<string>, idx: nat): seq<Signal> {
    if Says(cells, idx, "truthy") then [Signal(name, 1.0, threshold, LT)]
    else if Says(cells, idx, "falsified") then [Signal(name, 0.0, threshold, LT)]
    else []
  }

  lemma LowerIs(c: char, l: char)
    requires 'a' <= l <= 'z'
    ensures Lower(c) == l <==> CasingOf(c, l)
    ensures CasingOf(c, l) ==> !IsSpace(c)
  {
  }

  lemma {:induction false} LowerSpells(core: string, word: string)
    requires forall k :: 0 <= k < |word| ==> 'a' <= word[k] <= 'z'
    ensures ToLower(core) == word <==> SpelledAs(core, word)
    decreases |core|
  {
    hide Lower, CasingOf;
    if core != "" && word != "" {
      LowerIs(core[0], word[0]);
      LowerSpells(core[1..], word[1..]);
      assert word == [word[0]] + word[1..];
      assert forall k :: 1 <= k < |core| ==> core[1..][k - 1] == core[k];
      assert forall k :: 1 <= k < |word| ==> word[1..][k - 1] == word[k];
    }
  }

  /** Trimming twice and lowering finds the word exactly when the cell says it. */
  lemma SaysIs(cells: seq<string>, idx: nat, word: string)
    requires idx < |cells| && word != "" && forall k :: 0 <= k < |word| ==> 'a' <= word[k] <= 'z'
    ensures ToLower(Trim(Trim(cells[idx]))) == word <==> Says(cells, idx, word)
  {
    hide IsSpace, Trim, CasingOf, AllSpace, ToLower;
    var cell := cells[idx];
    if ToLower(Trim(Trim(cell))) == word {
      var head, tail := TrimParts(cell);
      var left, right := TrimParts(Trim(cell));
      LowerSpells(Trim(Trim(cell)), word);
      SpaceJoins(head, left);
      SpaceJoins(right, tail);
      assert cell == (head + left) + Trim(Trim(cell)) + (right + tail);
      assert Wraps(cell, head + left, Trim(Trim(cell)), right + tail);
    }
    if Says(cells, idx, word) {
      var head, core, tail :| Wraps(cell, head, core, tail) && SpelledAs(core, word);
      LowerIs(core[0], word[0]);
      LowerIs(core[|core| - 1], word[|core| - 1]);
      TrimIs(head, core, tail);
      NoSpace();
      TrimIs("", core, "");
      assert "" + core + "" == core;
      LowerSpells(core, word);
    }
  }

  lemma SpaceJoins(a: string, b: string)
    requires AllSpace(a) && AllSpace(b)
    ensures AllSpace(a + b)
  {
    hide IsSpace;
  }

  lemma NoSpace()
    ensures AllSpace("")
  {
  }

  lemma StatusReads(name: string, threshold: real, cells: seq<string>, idx: nat)
    ensures SignalOf(name, threshold, StatusAt(cells, idx)) == Reading(name, threshold, cells, idx)
  {
    hide Trim, ToLower, Says;
    if idx < |cells| {
      SaysIs(cells, idx, "truthy");
      SaysIs(cells, idx, "falsified");
    } else {
      SaysNothing(cells, idx);
    }
  }

  lemma SaysNothing(cells: seq<string>, idx: nat)
    requires idx >= |cells|
    ensures forall word :: !Says(cells, idx, word)
  {
  }

  lemma SignalsRead(cells: seq<string>)
    ensures SignalsOf(cells) == Reading("ks1_onboarding_rate", 0.4, cells, 7) + Reading("ks2_ai_po_order_rate", 0.2, cells, 9)
  {
    hide StatusAt, SignalOf, Reading;
    StatusReads("ks1_onboarding_rate", 0.4, cells, 7);
    StatusReads("ks2_ai_po_order_rate", 0.2, cells, 9);
  }

  /** Without a bar at its end a row loses its last cell. */
  lemma OpenRowSplits(cells: seq<string>)
    requires |cells| > 0 && forall i :: 0 <= i < |cells| ==> '|' !in cells[i]
    ensures SplitTableRow("|" + Join(cells)) == cells[..|cells| - 1]
  {
    hide *;
    var all := [""] + cells;
    JoinOne(cells);
    BarlessFront(cells);
    SplitJoin(all);
    WithoutEnds("|" + Join(cells));
    assert all[1..|all| - 1] == cells[..|cells| - 1];
  }

  lemma WithoutEnds(line: string)
    requires |Split(line)| >= 2
    ensures SplitTableRow(line) == Split(line)[1..|Split(line)| - 1]
  {
  }

  lemma BarlessFront(cells: seq<string>)
    requires forall i :: 0 <= i < |cells| ==> '|' !in cells[i]
    ensures var all := [""] + cells; forall i :: 0 <= i < |all| ==> '|' !in all[i]
  {
  }

  lemma JoinOne(cells: seq<string>)
    requires |cells| > 0
    ensures Join([""] + cells) == "|" + Join(cells)
  {
    hide Join;
    JoinFirst("", cells);
  }

  lemma RowSplits(cells: seq<string>)
    requires |cells| > 0 && forall i :: 0 <= i < |cells| ==> '|' !in cells[i]
    ensures SplitTableRow("|" + Join(cells) + "|") == cells
  {
    hide Join, Split;
    var all := [""] + cells + [""];
    JoinBars(cells);
    AllBarless(cells);
    SplitJoin(all);
    assert all[1..|all| - 1] == cells;
  }

  lemma AllBarless(cells: seq<string>)
    requires forall i :: 0 <= i < |cells| ==> '|' !in cells[i]
    ensures var all := [""] + cells + [""]; forall i :: 0 <= i < |all| ==> '|' !in all[i]
  {
  }

  lemma JoinBars(cells: seq<string>)
    requires |cells| > 0
    ensures Join([""] + cells + [""]) == "|" + Join(cells) + "|"
  {
    hide Join;
    JoinAppend([""] + cells, "");
    JoinFirst("", cells);
  }

  lemma JoinFirst(first: string, cells: seq<string>)
    requires |cells| > 0
    ensures Join([first] + cells) == first + "|" + Join(cells)
  {
    assert ([first] + cells)[1..] == cells;
  }

  /** A cell gives a red reading for falsified, a green one for truthy, and else none. */
  lemma CellColours(cols: seq<string>, x: string)
    ensures var snap := Snapshot(0, SignalsOf(cols)); forall j :: Reads(snap, j, x) ==>
      var status := StatusAt(cols, if x == "ks1_onboarding_rate" then 7 else 9);
      && (x == "ks1_onboarding_rate" || x == "ks2_ai_po_order_rate")
      && status.Some? && (RedAt(snap, j, x) <==> status == Some(0.0)) && (!RedAt(snap, j, x) <==> status == Some(1.0))
  {
    hide StatusAt;
    StatusValues(cols, COL_KS1);
    StatusValues(cols, COL_KS2);
    var a, b := StatusAt(cols, COL_KS1), StatusAt(cols, COL_KS2);
    assert "ks1_onboarding_rate"[2] != "ks2_ai_po_order_rate"[2];
  }

  lemma StatusValues(cols: seq<string>, idx: nat)
    ensures StatusAt(cols, idx).None? || StatusAt(cols, idx) == Some(0.0) || StatusAt(cols, idx) == Some(1.0)
  {
  }

  // ---- which lines are rows ----

  predicate TableLine(raw: string) { Trim(raw) != "" && Trim(raw)[0] == '|' }

  predicate DashesAt(s: string, i: int) { 0 <= i <= |s| - 3 && s[i] == '-' && s[i + 1] == '-' && s[i + 2] == '-' }

  /** A table line that holds three dashes in a row somewhere. */
  predicate Separator(raw: string) {
    TableLine(raw) && exists i :: 0 <= i < |Trim(raw)| && DashesAt(Trim(raw), i)
  }

  /** Before line n, a separator has come since the last line outside tables. */
  predicate Collecting(lines: seq<string>, n: nat)
    requires n <= |lines|
  {
    exists j :: 0 <= j < n && Separator(lines[j]) && forall k :: j < k < n ==> TableLine(lines[k])
  }

  /** The snapshot of one row, if its first cell is a date. */
  function RowOf(raw: string): seq<Snapshot> { DataRow(Table(true, true, []), Trim(raw)).snapshots }

  /** The snapshots of the rows behind a separator of their table. */
  function Rows(lines: seq<string>, n: nat): seq<Snapshot>
    requires n <= |lines|
  {
    if n == 0 then []
    else
      var raw := lines[n - 1];
      Rows(lines, n - 1)
      + if TableLine(raw) && !Separator(raw) && Collecting(lines, n - 1) then RowOf(raw) else []
  }

  lemma {:induction false} HasDashesIs(s: string)
    ensures HasDashes(s) <==> exists i :: 0 <= i < |s| && DashesAt(s, i)
  {
    if |s| >= 3 {
      HasDashesIs(s[1..]);
      assert s[..3] == [s[0], s[1], s[2]];
      assert DashesAt(s, 0) <==> s[..3] == "---";
      forall i | 0 <= i < |s| - 1 ensures DashesAt(s[1..], i) <==> DashesAt(s, i + 1) {
      }
      forall i | 1 <= i < |s| ensures DashesAt(s, i) <==> DashesAt(s[1..], i - 1) {
      }
    }
  }

  lemma ParseLineIs(t: Table, raw: string)
    requires t.headerParsed ==> t.inTable
    ensures var u := ParseLine(t, raw);
      && (u.headerParsed <==> TableLine(raw) && (t.headerParsed || Separator(raw)))
      && (u.headerParsed ==> u.inTable)
      && u.snapshots == t.snapshots + if TableLine(raw) && !Separator(raw) && t.headerParsed then RowOf(raw) else []
  {
    hide Trim, HasDashes, SplitTableRow, ParseDate, SignalsOf;
    HasDashesIs(Trim(raw));
  }

  lemma CollectingStep(lines: seq<string>, n: nat)
    requires n < |lines|
    ensures Collecting(lines, n + 1) <==> TableLine(lines[n]) && (Collecting(lines, n) || Separator(lines[n]))
  {
    hide Trim;
    if Collecting(lines, n) {
      var j :| 0 <= j < n && Separator(lines[j]) && forall k :: j < k < n ==> TableLine(lines[k]);
      assert TableLine(lines[n]) ==> forall k :: j < k < n + 1 ==> TableLine(lines[k]);
    }
  }

  lemma {:induction false} ParsePrefix(lines: seq<string>, n: nat)
    requires n <= |lines|
    ensures var t := ParseFrom(START, lines[..n]);
      (t.headerParsed <==> Collecting(lines, n)) && (t.headerParsed ==> t.inTable) && t.snapshots == Rows(lines, n)
  {
    hide ParseLine, Collecting, TableLine, Separator, RowOf;
    if n == 0 {
      NothingCollected(lines);
    } else {
      ParsePrefix(lines, n - 1);
      var t := ParseFrom(START, lines[..n - 1]);
      assert lines[..n] == lines[..n - 1] + [lines[n - 1]];
      ParseAppend(START, lines[..n - 1], [lines[n - 1]]);
      assert [lines[n - 1]][1..] == [];
      ParseLineIs(t, lines[n - 1]);
      CollectingStep(lines, n - 1);
    }
  }

  lemma NothingCollected(lines: seq<string>)
    ensures !Collecting(lines, 0)
  {
  }

  /** The parser's snapshots are those of exactly the rows behind a separator of their table. */
  lemma ParseIsRows(lines: seq<string>)
    ensures Parse(lines) == Rows(lines, |lines|)
  {
    hide ParseLine, Rows;
    ParsePrefix(lines, |lines|);
    assert lines[..|lines|] == lines;
  }

  // ---- dates ----

  /** Two digits are the text of their number, and no other number below 100 has it. */
  lemma TwoIs(s: string, n: nat)
    requires |s| == 2 && n < 100
    ensures C.Pad(n) == s <==> IsDigit(s[0]) && IsDigit(s[1]) && Two(s) == n
  {
  }

  lemma DaysAgree(y: nat, m: nat)
    requires 1 <= m <= 12
    ensures DaysIn(y, m) == C.MonthLength(y, m)
  {
  }

  predicate DateShape(s: string) {
    |s| == 10 && s[4] == '-' && s[7] == '-' && forall i :: 0 <= i < 10 && i != 4 && i != 7 ==> IsDigit(s[i])
  }

  lemma FourParts(s: string, a: nat, b: nat, m: nat, d: nat)
    requires |s| == 10 && a < 100 && b < 100 && m < 100 && d < 100
    ensures s == C.Pad(a) + C.Pad(b) + "-" + C.Pad(m) + "-" + C.Pad(d) <==>
      DateShape(s) && Two(s[..2]) == a && Two(s[2..4]) == b && Two(s[5..7]) == m && Two(s[8..10]) == d
  {
    hide C.Pad, Two, IsDigit;
    C.PadLength();
    TwoIs(s[..2], a);
    TwoIs(s[2..4], b);
    TwoIs(s[5..7], m);
    TwoIs(s[8..10], d);
    var u := C.Pad(a) + C.Pad(b) + "-" + C.Pad(m) + "-" + C.Pad(d);
    assert u[..2] == C.Pad(a) && u[2..4] == C.Pad(b) && u[5..7] == C.Pad(m) && u[8..10] == C.Pad(d);
    assert u[4] == '-' && u[7] == '-';
    if DateShape(s) && C.Pad(a) == s[..2] && C.Pad(b) == s[2..4] && C.Pad(m) == s[5..7] && C.Pad(d) == s[8..10] {
      assert s == s[..2] + s[2..4] + [s[4]] + s[5..7] + [s[7]] + s[8..10];
    }
  }

  lemma TwoSmall(s: string)
    requires |s| == 2 && IsDigit(s[0]) && IsDigit(s[1])
    ensures Two(s) < 100
  {
  }

  ghost predicate DateText(s: string, t: C.Date) { C.Valid(t) && t.y <= 9999 && s == C.Fmt(t) }

  /** A text is read as a date exactly when it is the text of one of the calendar. */
  lemma DatesAreRead(s: string, t: C.Date)
    ensures DateText(s, t) ==> ParseDate(s) == Some(10000 * t.y + 100 * t.m + t.d)
    ensures ParseDate(s).Some? ==> exists u :: DateText(s, u)
  {
    hide C.MonthLength, C.Pad, DaysIn, Two, IsDigit;
    C.PadLength();
    if DateText(s, t) {
      DaysAgree(t.y, t.m);
      C.MonthShort(t.y, t.m);
      FourParts(s, t.y / 100, t.y % 100, t.m, t.d);
    }
    if ParseDate(s).Some? {
      TwoSmall(s[..2]);
      TwoSmall(s[2..4]);
      TwoSmall(s[5..7]);
      TwoSmall(s[8..10]);
      var a, b, m, d := Two(s[..2]), Two(s[2..4]), Two(s[5..7]), Two(s[8..10]);
      var y := 100 * a + b;
      assert y / 100 == a && y % 100 == b;
      DaysAgree(y, m);
      FourParts(s, a, b, m, d);
      assert DateText(s, C.Date(y, m, d));
    }
  }
}
