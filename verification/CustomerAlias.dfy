/** Address forms of regulars in a message, internal/app/ai/customer_alias.go. Texts are
    sequences of code points. */
module CustomerAlias {

  import opened GoStrings
  import opened Wrappers

  const PREFIXES: seq<char> := ['老', '小', '阿']
  const SUFFIXES: seq<string> :=
    ["老板娘", "老板", "师傅", "老师", "经理", "阿姨", "大姐", "大哥", "总", "姐", "哥", "叔", "婶"]

  /** The two word lists: everyday words, longest first, and the common surnames. */
  datatype Lists = Lists(everyday: seq<string>, surnames: set<char>)

  predicate Solid(w: string) { w != "" && forall i :: 0 <= i < |w| ==> !IsSpace(w[i]) }

  /** No everyday word is empty or contains white space, and white space names nobody. */
  predicate Proper(ls: Lists) {
    (forall k :: 0 <= k < |ls.everyday| ==> Solid(ls.everyday[k])) && forall c :: c in ls.surnames ==> !IsSpace(c)
  }

  // ---- masking ----

  predicate At(t: string, i: int, w: string) { 0 <= i && i + |w| <= |t| && t[i..i + |w|] == w }

  predicate Absent(t: string, w: string) { forall i :: 0 <= i <= |t| ==> !At(t, i, w) }

  function Blank(n: nat): (s: string)
    ensures |s| == n && forall i :: 0 <= i < n ==> s[i] == ' '
  {
    seq(n, _ => ' ')
  }

  /** strings.ReplaceAll of w by blanks: leftmost first, not overlapping. */
  function ReplaceAll(t: string, w: string): string
    requires w != ""
    decreases |t|
  {
    if |t| < |w| then t
    else if t[..|w|] == w then Blank(|w|) + ReplaceAll(t[|w|..], w)
    else [t[0]] + ReplaceAll(t[1..], w)
  }

  function MaskWith(words: seq<string>, t: string): string {
    if words == [] then t
    else
      var u := MaskWith(words[..|words| - 1], t);
      if words[|words| - 1] == "" then u else ReplaceAll(u, words[|words| - 1])
  }

  function Mask(ls: Lists, t: string): string { MaskWith(ls.everyday, t) }

  method MaskEverydayWords(ls: Lists, text: string) returns (masked: string)
    requires Proper(ls)
    ensures masked == Mask(ls, text)
  {
    hide ReplaceAll, IsSpace;
    masked := text;
    var k := 0;
    while k < |ls.everyday|
      invariant 0 <= k <= |ls.everyday| && masked == MaskWith(ls.everyday[..k], text)
    {
      assert ls.everyday[..k + 1][..k] == ls.everyday[..k];
      assert Solid(ls.everyday[k]);
      masked := ReplaceAll(masked, ls.everyday[k]);
      k := k + 1;
    }
    assert ls.everyday[..k] == ls.everyday;
  }

  /** u is t with some code points blanked. */
  predicate Blanked(t: string, u: string) { |u| == |t| && forall i :: 0 <= i < |t| ==> u[i] == t[i] || u[i] == ' ' }

  predicate AllBlank(u: string, j: int, n: nat) {
    0 <= j && j + n <= |u| && forall i :: j <= i < j + n ==> u[i] == ' '
  }

  /** Position i lies in an occurrence of w in t that u has blanked as a whole. */
  predicate Wiped(t: string, u: string, i: int, w: string) {
    exists j :: j <= i < j + |w| && At(t, j, w) && AllBlank(u, j, |w|)
  }

  lemma {:induction false} ReplaceBlanks(t: string, w: string)
    requires w != ""
    ensures Blanked(t, ReplaceAll(t, w))
    decreases |t|
  {
    if |t| >= |w| {
      if t[..|w|] == w {
        ReplaceBlanks(t[|w|..], w);
      } else {
        ReplaceBlanks(t[1..], w);
      }
    }
  }

  /** Only whole occurrences are blanked. */
  lemma {:induction false} ReplaceWipes(t: string, w: string, i: nat)
    requires w != "" && i < |t|
    ensures |ReplaceAll(t, w)| == |t| && (ReplaceAll(t, w)[i] != t[i] ==> Wiped(t, ReplaceAll(t, w), i, w))
    decreases |t|
  {
    hide At, Wiped, AllBlank;
    ReplaceBlanks(t, w);
    var u := ReplaceAll(t, w);
    if |t| >= |w| && t[..|w|] == w {
      assert u[|w|..] == ReplaceAll(t[|w|..], w);
      if i < |w| {
        StartWiped(t, u, i, w);
      } else {
        ReplaceWipes(t[|w|..], w, i - |w|);
        WipedShift(t, u, |w|, i - |w|, w);
      }
    } else if |t| >= |w| && i > 0 {
      assert u[1..] == ReplaceAll(t[1..], w);
      ReplaceWipes(t[1..], w, i - 1);
      WipedShift(t, u, 1, i - 1, w);
    }
  }

  lemma StartWiped(t: string, u: string, i: nat, w: string)
    requires i < |w| <= |t| && t[..|w|] == w && |u| == |t| && forall k :: 0 <= k < |w| ==> u[k] == ' '
    ensures Wiped(t, u, i, w)
  {
    assert At(t, 0, w) && AllBlank(u, 0, |w|);
  }

  lemma AtShift(t: string, n: nat, i: int, w: string)
    requires n <= |t| && i >= 0
    ensures At(t[n..], i, w) <==> At(t, i + n, w)
  {
    if i + n + |w| <= |t| {
      assert t[n..][i..i + |w|] == t[i + n..i + n + |w|];
    }
  }

  lemma WipedShift(t: string, u: string, n: nat, i: int, w: string)
    requires n <= |t| == |u|
    ensures Wiped(t[n..], u[n..], i, w) ==> Wiped(t, u, i + n, w)
  {
    hide At;
    if Wiped(t[n..], u[n..], i, w) {
      var j :| j <= i < j + |w| && At(t[n..], j, w) && AllBlank(u[n..], j, |w|);
      AtBounds(t[n..], j, w);
      AtShift(t, n, j, w);
      forall k | j + n <= k < j + n + |w| ensures u[k] == ' ' {
        assert u[n..][k - n] == u[k];
      }
    }
  }

  lemma AtBounds(t: string, i: int, w: string)
    requires At(t, i, w)
    ensures 0 <= i && i + |w| <= |t|
    ensures forall k :: 0 <= k < |w| ==> t[i + k] == w[k]
  {
    forall k | 0 <= k < |w| ensures t[i + k] == w[k] {
      assert t[i..i + |w|][k] == t[i + k];
    }
  }

  /** Blanking makes no new occurrence of a word without white space. */
  lemma BlankedAt(t: string, u: string, w: string, i: int)
    requires Blanked(t, u) && Solid(w) && At(u, i, w)
    ensures At(t, i, w)
  {
    forall k | 0 <= k < |w| ensures t[i + k] == w[k] {
      assert u[i + k] == u[i..i + |w|][k];
    }
  }

  lemma {:induction false} ReplaceRemoves(t: string, w: string)
    requires Solid(w)
    ensures Absent(ReplaceAll(t, w), w)
    decreases |t|
  {
    hide IsSpace, Solid, At, Absent, Blanked;
    SolidNotEmpty(w);
    ReplaceBlanks(t, w);
    if |t| < |w| {
      TooShort(t, w);
    } else if t[..|w|] == w {
      ReplaceRemoves(t[|w|..], w);
      AfterBlank(ReplaceAll(t[|w|..], w), w);
    } else {
      ReplaceRemoves(t[1..], w);
      AfterOne(t, ReplaceAll(t[1..], w), w);
    }
  }

  lemma SolidNotEmpty(w: string)
    requires Solid(w)
    ensures w != ""
  {
  }

  lemma FirstOf(t: string, i: int, w: string)
    requires At(t, i, w) && w != ""
    ensures 0 <= i < |t| && t[i] == w[0]
  {
    assert t[i..i + |w|][0] == t[i];
  }

  lemma TooShort(t: string, w: string)
    requires |t| < |w|
    ensures Absent(t, w)
  {
  }

  lemma AfterBlank(rest: string, w: string)
    requires Solid(w) && Absent(rest, w)
    ensures Absent(Blank(|w|) + rest, w)
  {
    hide IsSpace, At;
    BlankIsSpace();
    var u := Blank(|w|) + rest;
    assert u[|w|..] == rest;
    forall i | 0 <= i <= |u| ensures !At(u, i, w) {
      assert i < |w| ==> u[i] == ' ';
      if i >= |w| {
        AtShift(u, |w|, i - |w|, w);
      } else if At(u, i, w) {
        FirstOf(u, i, w);
      }
    }
  }

  lemma AfterOne(t: string, rest: string, w: string)
    requires Solid(w) && |w| <= |t| && t[..|w|] != w && Absent(rest, w) && Blanked(t, [t[0]] + rest)
    ensures Absent([t[0]] + rest, w)
  {
    hide IsSpace, Blanked, Solid;
    var u := [t[0]] + rest;
    assert u[1..] == rest;
    forall i | 0 <= i <= |u| ensures !At(u, i, w) {
      if i >= 1 {
        AtShift(u, 1, i - 1, w);
      } else if At(u, 0, w) {
        BlankedAt(t, u, w, 0);
        assert false;
      }
    }
  }

  lemma BlankIsSpace()
    ensures IsSpace(' ')
  {
  }

  lemma {:induction false} ReplaceNothing(t: string, w: string)
    requires w != "" && Absent(t, w)
    ensures ReplaceAll(t, w) == t
    decreases |t|
  {
    if |t| >= |w| {
      assert !At(t, 0, w);
      forall i | 0 <= i <= |t| - 1 ensures !At(t[1..], i, w) {
        assert !At(t, i + 1, w);
      }
      ReplaceNothing(t[1..], w);
    }
  }

  lemma AbsentStays(t: string, u: string, w: string)
    requires Blanked(t, u) && Solid(w) && Absent(t, w)
    ensures Absent(u, w)
  {
    forall i | 0 <= i <= |u| ensures !At(u, i, w) {
      if At(u, i, w) {
        BlankedAt(t, u, w, i);
      }
    }
  }

  lemma {:induction false} MaskWithIs(words: seq<string>, t: string)
    requires forall k :: 0 <= k < |words| ==> Solid(words[k])
    ensures Blanked(t, MaskWith(words, t))
    ensures forall k :: 0 <= k < |words| ==> Absent(MaskWith(words, t), words[k])
    ensures (forall k :: 0 <= k < |words| ==> Absent(t, words[k])) ==> MaskWith(words, t) == t
    ensures forall i :: 0 <= i < |t| && MaskWith(words, t)[i] != t[i] ==>
      exists k :: 0 <= k < |words| && Wiped(t, MaskWith(words, t), i, words[k])
  {
    hide ReplaceAll, IsSpace, Absent, Wiped;
    if words != [] {
      var n := |words| - 1;
      var w, u := words[n], MaskWith(words[..n], t);
      assert Solid(w);
      MaskWithIs(words[..n], t);
      ReplaceBlanks(u, w);
      ReplaceRemoves(u, w);
      var r := ReplaceAll(u, w);
      forall k | 0 <= k < |words| ensures Absent(r, words[k]) {
        if k < n {
          assert words[..n][k] == words[k];
          AbsentStays(u, r, words[k]);
        }
      }
      if forall k :: 0 <= k < |words| ==> Absent(t, words[k]) {
        assert forall k :: 0 <= k < n ==> words[..n][k] == words[k];
        assert u == t;
        ReplaceNothing(u, w);
      }
      forall i | 0 <= i < |t| && r[i] != t[i] ensures exists k :: 0 <= k < |words| && Wiped(t, r, i, words[k]) {
        if u[i] != t[i] {
          var k :| 0 <= k < n && Wiped(t, u, i, words[..n][k]);
          assert words[..n][k] == words[k];
          WipedStays(t, u, r, i, words[k]);
        } else {
          ReplaceWipes(u, w, i);
          WipedBack(t, u, r, i, w);
        }
      }
    }
  }

  lemma WipedBack(t: string, u: string, r: string, i: int, w: string)
    requires Blanked(t, u) && Solid(w) && Wiped(u, r, i, w)
    ensures Wiped(t, r, i, w)
  {
    var j :| j <= i < j + |w| && At(u, j, w) && AllBlank(r, j, |w|);
    BlankedAt(t, u, w, j);
  }

  lemma WipedStays(t: string, u: string, r: string, i: int, w: string)
    requires Blanked(u, r) && Wiped(t, u, i, w)
    ensures Wiped(t, r, i, w)
  {
    var j :| j <= i < j + |w| && At(t, j, w) && AllBlank(u, j, |w|);
    assert AllBlank(r, j, |w|);
  }

  /** Masking keeps the length and every code point it does not blank, blanks everyday words
      of the original as a whole and nothing else, leaves none, and is idempotent. */
  lemma MaskingIsClean(ls: Lists, t: string)
    requires Proper(ls)
    ensures Blanked(t, Mask(ls, t))
    ensures forall i :: 0 <= i < |t| && Mask(ls, t)[i] != t[i] ==>
      exists k :: 0 <= k < |ls.everyday| && Wiped(t, Mask(ls, t), i, ls.everyday[k])
    ensures forall k :: 0 <= k < |ls.everyday| ==> Absent(Mask(ls, t), ls.everyday[k])
    ensures Mask(ls, Mask(ls, t)) == Mask(ls, t)
    ensures Mask(ls, t) == t <==> forall k :: 0 <= k < |ls.everyday| ==> Absent(t, ls.everyday[k])
  {
    hide IsSpace, Absent, Wiped, Blanked, Solid;
    MaskWithIs(ls.everyday, t);
    MaskWithIs(ls.everyday, Mask(ls, t));
  }

  // ---- address forms ----

  datatype Mention = Mention(form: string, surname: char)

  /** A prefix and a surname at i, or a surname just before a suffix at i. */
  predicate PrefixForm(r: string, i: int) { 0 <= i < |r| - 1 && r[i] in PREFIXES }

  predicate SuffixForm(r: string, i: int, s: string) { 0 < i && At(r, i, s) }

  /** The first suffix, in the order of the list from k on, that stands at i. */
  function FirstSuffix(r: string, i: int, k: nat): nat
    requires k <= |SUFFIXES|
    decreases |SUFFIXES| - k
  {
    if k == |SUFFIXES| || SuffixForm(r, i, SUFFIXES[k]) then k else FirstSuffix(r, i, k + 1)
  }

  predicate Seen(out: seq<Mention>, x: char) { exists j :: 0 <= j < |out| && out[j].surname == x }

  function Add(ls: Lists, out: seq<Mention>, x: char, form: string): seq<Mention> {
    if x in ls.surnames && !Seen(out, x) then out + [Mention(form, x)] else out
  }

  function ScanAt(ls: Lists, r: string, i: nat, out: seq<Mention>): seq<Mention>
    requires i < |r|
  {
    var more := if PrefixForm(r, i) then Add(ls, out, r[i + 1], r[i..i + 2]) else out;
    var k := FirstSuffix(r, i, 0);
    if k < |SUFFIXES| && SuffixForm(r, i, SUFFIXES[k]) then Add(ls, more, r[i - 1], r[i - 1..i + |SUFFIXES[k]|]) else more
  }

  function Scan(ls: Lists, r: string, n: nat): seq<Mention>
    requires n <= |r|
  {
    if n == 0 then [] else ScanAt(ls, r, n - 1, Scan(ls, r, n - 1))
  }

  function Mentions(ls: Lists, text: string): seq<Mention> { Scan(ls, Mask(ls, text), |Mask(ls, text)|) }

  /** The closure that records a form once per surname. */
  method AddMention(ls: Lists, out: seq<Mention>, seen: set<char>, x: char, form: string)
    returns (more: seq<Mention>, now: set<char>)
    requires forall y :: y in seen <==> Seen(out, y)
    ensures more == Add(ls, out, x, form) && forall y :: y in now <==> Seen(more, y)
  {
    hide Seen;
    more, now := out, seen;
    if x in ls.surnames && x !in seen {
      AddSeen(out, Mention(form, x));
      now := seen + {x};
      more := out + [Mention(form, x)];
    }
  }

  /** The loop over the suffixes, longest first. */
  method FindSuffix(r: string, i: nat) returns (k: nat)
    ensures k <= |SUFFIXES| && k == FirstSuffix(r, i, 0)
    ensures k < |SUFFIXES| ==> SuffixForm(r, i, SUFFIXES[k])
  {
    hide SuffixForm;
    k := 0;
    while k < |SUFFIXES| && !SuffixForm(r, i, SUFFIXES[k])
      invariant 0 <= k <= |SUFFIXES| && FirstSuffix(r, i, k) == FirstSuffix(r, i, 0)
    {
      k := k + 1;
    }
  }

  method AliasSurnamesInText(ls: Lists, text: string) returns (out: seq<Mention>)
    requires Proper(ls)
    ensures out == Mentions(ls, text)
  {
    hide Proper, Mask, IsSpace, Add, Seen, FirstSuffix, PrefixForm, SuffixForm;
    var r := MaskEverydayWords(ls, text);
    out := [];
    var seen: set<char> := {};
    NothingSeen();
    var i := 0;
    while i < |r|
      invariant 0 <= i <= |r| && out == Scan(ls, r, i) && forall x :: x in seen <==> Seen(out, x)
    {
      if PrefixForm(r, i) {
        PrefixBounds(r, i);
        out, seen := AddMention(ls, out, seen, r[i + 1], r[i..i + 2]);
      }
      var k := FindSuffix(r, i);
      if k < |SUFFIXES| {
        SuffixBounds(r, i, SUFFIXES[k]);
        out, seen := AddMention(ls, out, seen, r[i - 1], r[i - 1..i + |SUFFIXES[k]|]);
      }
      i := i + 1;
    }
  }

  lemma NothingSeen()
    ensures forall x :: !Seen([], x)
  {
  }

  lemma AddSeen(out: seq<Mention>, m: Mention)
    ensures forall x :: Seen(out + [m], x) <==> Seen(out, x) || x == m.surname
  {
    forall x ensures Seen(out + [m], x) <==> Seen(out, x) || x == m.surname {
      if Seen(out, x) {
        var j :| 0 <= j < |out| && out[j].surname == x;
        assert (out + [m])[j] == out[j];
      }
      assert (out + [m])[|out|] == m;
    }
  }

  // ---- what a mention is ----

  /** m is an address form at position i of t: prefix and surname, or surname and suffix. */
  predicate IsForm(t: string, i: int, m: Mention) {
    && At(t, i, m.form)
    && ((exists p :: p in PREFIXES && m.form == [p, m.surname])
        || (exists k :: 0 <= k < |SUFFIXES| && m.form == [m.surname] + SUFFIXES[k]))
  }

  predicate FormSomewhere(t: string, m: Mention) { exists i :: 0 <= i < |t| && IsForm(t, i, m) }

  predicate Fair(ls: Lists, r: string, out: seq<Mention>) {
    && (forall j :: 0 <= j < |out| ==> out[j].surname in ls.surnames && FormSomewhere(r, out[j]))
    && (forall j, k :: 0 <= j < k < |out| ==> out[j].surname != out[k].surname)
  }

  lemma AddFair(ls: Lists, r: string, out: seq<Mention>, x: char, form: string)
    requires Fair(ls, r, out) && FormSomewhere(r, Mention(form, x))
    ensures Fair(ls, r, Add(ls, out, x, form))
    ensures x in ls.surnames ==> Seen(Add(ls, out, x, form), x)
    ensures forall y :: Seen(out, y) ==> Seen(Add(ls, out, x, form), y)
  {
    hide FormSomewhere;
    AddSeen(out, Mention(form, x));
  }

  lemma PrefixIsForm(r: string, i: nat)
    requires PrefixForm(r, i)
    ensures FormSomewhere(r, Mention(r[i..i + 2], r[i + 1]))
  {
    assert r[i..i + 2] == [r[i], r[i + 1]];
    assert IsForm(r, i, Mention(r[i..i + 2], r[i + 1]));
  }

  lemma SuffixIsForm(r: string, i: nat, k: nat)
    requires k < |SUFFIXES| && SuffixForm(r, i, SUFFIXES[k])
    ensures FormSomewhere(r, Mention(r[i - 1..i + |SUFFIXES[k]|], r[i - 1]))
  {
    var s := SUFFIXES[k];
    assert r[i - 1..i + |s|] == [r[i - 1]] + r[i..i + |s|];
    assert IsForm(r, i - 1, Mention(r[i - 1..i + |s|], r[i - 1]));
  }

  lemma {:induction false} FirstSuffixFinds(r: string, i: int, k: nat, q: nat)
    requires k <= q < |SUFFIXES| && SuffixForm(r, i, SUFFIXES[q])
    ensures FirstSuffix(r, i, k) < |SUFFIXES| && SuffixForm(r, i, SUFFIXES[FirstSuffix(r, i, k)])
    decreases |SUFFIXES| - k
  {
    if !SuffixForm(r, i, SUFFIXES[k]) {
      FirstSuffixFinds(r, i, k + 1, q);
    }
  }

  lemma ScanAtFair(ls: Lists, r: string, i: nat, out: seq<Mention>)
    requires i < |r| && Fair(ls, r, out)
    ensures var more := ScanAt(ls, r, i, out);
      && Fair(ls, r, more)
      && (forall y :: Seen(out, y) ==> Seen(more, y))
      && (PrefixForm(r, i) && r[i + 1] in ls.surnames ==> Seen(more, r[i + 1]))
      && (forall k :: 0 <= k < |SUFFIXES| && SuffixForm(r, i, SUFFIXES[k]) && r[i - 1] in ls.surnames ==>
            Seen(more, r[i - 1]))
  {
    hide Fair, Add, Seen, PrefixForm, SuffixForm, FormSomewhere, FirstSuffix;
    var more := out;
    if PrefixForm(r, i) {
      PrefixBounds(r, i);
      PrefixIsForm(r, i);
      AddFair(ls, r, out, r[i + 1], r[i..i + 2]);
      more := Add(ls, out, r[i + 1], r[i..i + 2]);
    }
    var k := FirstSuffix(r, i, 0);
    if k < |SUFFIXES| && SuffixForm(r, i, SUFFIXES[k]) {
      SuffixBounds(r, i, SUFFIXES[k]);
      SuffixIsForm(r, i, k);
      AddFair(ls, r, more, r[i - 1], r[i - 1..i + |SUFFIXES[k]|]);
    }
    forall q | 0 <= q < |SUFFIXES| && SuffixForm(r, i, SUFFIXES[q]) ensures k < |SUFFIXES| && SuffixForm(r, i, SUFFIXES[k]) {
      FirstSuffixFinds(r, i, 0, q);
    }
  }

  lemma PrefixBounds(r: string, i: int)
    requires PrefixForm(r, i)
    ensures 0 <= i < |r| - 1
  {
  }

  lemma SuffixBounds(r: string, i: int, s: string)
    requires SuffixForm(r, i, s)
    ensures 0 < i && i + |s| <= |r|
  {
  }

  lemma {:induction false} ScanIsFair(ls: Lists, r: string, n: nat)
    requires n <= |r|
    ensures Fair(ls, r, Scan(ls, r, n))
    ensures forall i :: 0 <= i < n && PrefixForm(r, i) && r[i + 1] in ls.surnames ==> Seen(Scan(ls, r, n), r[i + 1])
    ensures forall i, k :: 0 <= i < n && 0 <= k < |SUFFIXES| && SuffixForm(r, i, SUFFIXES[k]) && r[i - 1] in ls.surnames ==>
      Seen(Scan(ls, r, n), r[i - 1])
  {
    hide Fair, ScanAt, Seen;
    if n == 0 {
      NothingFair(ls, r);
    } else {
      ScanIsFair(ls, r, n - 1);
      ScanAtFair(ls, r, n - 1, Scan(ls, r, n - 1));
    }
  }

  lemma NothingFair(ls: Lists, r: string)
    ensures Fair(ls, r, [])
  {
  }

  // ---- mentions are in the original text ----

  lemma FormBack(t: string, u: string, m: Mention)
    requires Blanked(t, u) && FormSomewhere(u, m) && !IsSpace(m.surname)
    ensures FormSomewhere(t, m)
  {
    hide IsSpace;
    var i :| 0 <= i < |u| && IsForm(u, i, m);
    FormSolid(m);
    BlankedAt(t, u, m.form, i);
    assert IsForm(t, i, m);
  }

  lemma FormSolid(m: Mention)
    requires !IsSpace(m.surname)
    requires (exists p :: p in PREFIXES && m.form == [p, m.surname])
      || (exists k :: 0 <= k < |SUFFIXES| && m.form == [m.surname] + SUFFIXES[k])
    ensures Solid(m.form)
  {
    hide IsSpace;
    PartsSolid();
    if k :| 0 <= k < |SUFFIXES| && m.form == [m.surname] + SUFFIXES[k] {
      assert Solid(SUFFIXES[k]);
    }
  }

  lemma PartsSolid()
    ensures forall p :: p in PREFIXES ==> !IsSpace(p)
    ensures forall k :: 0 <= k < |SUFFIXES| ==> Solid(SUFFIXES[k])
  {
  }

  /** Every mention is an address form that stands in the original text, clear of everyday
      words, of a common surname; surnames are distinct; and a surname is mentioned exactly
      when some address form of it is left after masking. */
  lemma MentionsAreForms(ls: Lists, text: string)
    requires Proper(ls)
    ensures forall m :: m in Mentions(ls, text) ==>
      m.surname in ls.surnames && FormSomewhere(text, m) && FormSomewhere(Mask(ls, text), m)
    ensures forall j, k :: 0 <= j < k < |Mentions(ls, text)| ==>
      Mentions(ls, text)[j].surname != Mentions(ls, text)[k].surname
    ensures forall m: Mention :: m.surname in ls.surnames && FormSomewhere(Mask(ls, text), m) ==>
      Seen(Mentions(ls, text), m.surname)
  {
    hide IsSpace, FormSomewhere, Scan, Mask, PrefixForm, SuffixForm, Blanked, Seen;
    var r := Mask(ls, text);
    MaskingIsClean(ls, text);
    ScanIsFair(ls, r, |r|);
    forall m | m in Mentions(ls, text) ensures FormSomewhere(text, m) && m.surname in ls.surnames {
      FormBack(text, r, m);
    }
    forall m: Mention | m.surname in ls.surnames && FormSomewhere(r, m) ensures Seen(Mentions(ls, text), m.surname) {
      FormIsScanned(ls, r, m);
    }
  }

  lemma FormIsScanned(ls: Lists, r: string, m: Mention)
    requires m.surname in ls.surnames && FormSomewhere(r, m)
    ensures Seen(Scan(ls, r, |r|), m.surname)
  {
    hide Scan, Seen, At, PrefixForm, SuffixForm;
    ScanIsFair(ls, r, |r|);
    var i :| 0 <= i < |r| && IsForm(r, i, m);
    AtBounds(r, i, m.form);
    if p :| p in PREFIXES && m.form == [p, m.surname] {
      PairIsPrefix(r, i, p, m.surname);
    } else {
      var k :| 0 <= k < |SUFFIXES| && m.form == [m.surname] + SUFFIXES[k];
      TailIsSuffix(r, i, m.surname, k);
    }
  }

  lemma PairIsPrefix(r: string, i: nat, p: char, x: char)
    requires At(r, i, [p, x]) && p in PREFIXES
    ensures PrefixForm(r, i) && r[i + 1] == x
  {
    AtBounds(r, i, [p, x]);
    assert r[i + 0] == p && r[i + 1] == [p, x][1];
  }

  lemma TailIsSuffix(r: string, i: nat, x: char, k: nat)
    requires k < |SUFFIXES| && At(r, i, [x] + SUFFIXES[k])
    ensures i + 1 < |r| && SuffixForm(r, i + 1, SUFFIXES[k]) && r[i] == x
  {
    SuffixNotEmpty(k);
    var s := SUFFIXES[k];
    AtBounds(r, i, [x] + s);
    assert r[i + 0] == ([x] + s)[0];
    assert r[i + 1..i + 1 + |s|] == r[i..i + |[x] + s|][1..];
  }

  lemma SuffixNotEmpty(k: nat)
    requires k < |SUFFIXES|
    ensures |SUFFIXES[k]| > 0
  {
  }

  // ---- mentions come in order ----

  /** Suffix k stands at i and no longer one does. */
  predicate LongestAt(r: string, i: int, k: nat) {
    && k < |SUFFIXES| && At(r, i, SUFFIXES[k])
    && forall q :: 0 <= q < |SUFFIXES| && At(r, i, SUFFIXES[q]) ==> |SUFFIXES[q]| <= |SUFFIXES[k]|
  }

  /** m is written at i: a prefix there and a surname after it, or a surname before the
      longest suffix that stands there. */
  ghost predicate Written(r: string, i: int, m: Mention) {
    || (0 <= i < |r| - 1 && r[i] in PREFIXES && m == Mention([r[i], r[i + 1]], r[i + 1]))
    || (0 < i < |r| && exists k: nat :: LongestAt(r, i, k) && m == Mention([r[i - 1]] + SUFFIXES[k], r[i - 1]))
  }

  ghost predicate Unwritten(r: string, i: nat, x: char) {
    forall h, m :: 0 <= h < i && Written(r, h, m) ==> m.surname != x
  }

  /** m is the first form of its surname, written at i. */
  ghost predicate FirstWritten(ls: Lists, r: string, i: nat, m: Mention) {
    m.surname in ls.surnames && Written(r, i, m) && Unwritten(r, i, m.surname)
  }

  ghost predicate WrittenBefore(ls: Lists, r: string, to: nat, m: Mention) {
    exists i: nat :: i < to && FirstWritten(ls, r, i, m)
  }

  /** The mentions are written before `to`, in order, and none before `from` is missing. */
  ghost predicate Ordered(ls: Lists, r: string, from: nat, to: nat, out: seq<Mention>) {
    && (forall j :: 0 <= j < |out| ==> WrittenBefore(ls, r, to, out[j]))
    && (forall j, k :: 0 <= j < k < |out| ==> InOrder(ls, r, out[j], out[k]))
    && (forall h, m :: 0 <= h < from && Written(r, h, m) && m.surname in ls.surnames ==> Seen(out, m.surname))
  }

  /** a is first written no later than b. */
  ghost predicate InOrder(ls: Lists, r: string, a: Mention, b: Mention) {
    exists h: nat, i: nat :: h <= i && FirstWritten(ls, r, h, a) && FirstWritten(ls, r, i, b)
  }

  lemma AddOrdered(ls: Lists, r: string, i: nat, out: seq<Mention>, m: Mention)
    requires Ordered(ls, r, i, i + 1, out) && Written(r, i, m)
    ensures Ordered(ls, r, i, i + 1, Add(ls, out, m.surname, m.form))
    ensures m.surname in ls.surnames ==> Seen(Add(ls, out, m.surname, m.form), m.surname)
    ensures forall y :: Seen(out, y) ==> Seen(Add(ls, out, m.surname, m.form), y)
  {
    hide Written, Seen;
    AddSeen(out, m);
    if m.surname in ls.surnames && !Seen(out, m.surname) {
      assert m == Mention(m.form, m.surname);
      assert FirstWritten(ls, r, i, m);
      var more := out + [m];
      forall j, k | 0 <= j < k < |more| ensures InOrder(ls, r, more[j], more[k]) {
        if k < |out| {
          assert InOrder(ls, r, out[j], out[k]);
        } else {
          var h: nat :| h < i + 1 && FirstWritten(ls, r, h, out[j]);
        }
      }
    }
  }

  lemma {:induction false} FirstIsLongest(r: string, i: int, k: nat)
    requires k <= |SUFFIXES| && 0 < i
    ensures FirstSuffix(r, i, k) <= |SUFFIXES|
    ensures forall q :: k <= q < |SUFFIXES| && At(r, i, SUFFIXES[q]) ==>
      var f := FirstSuffix(r, i, k); f <= q && At(r, i, SUFFIXES[f])
    ensures FirstSuffix(r, i, k) < |SUFFIXES| ==> At(r, i, SUFFIXES[FirstSuffix(r, i, k)])
    decreases |SUFFIXES| - k
  {
    hide At;
    if k < |SUFFIXES| && !SuffixForm(r, i, SUFFIXES[k]) {
      FirstIsLongest(r, i, k + 1);
    }
  }

  lemma SuffixesShrink()
    ensures forall j, k :: 0 <= j < k < |SUFFIXES| ==> |SUFFIXES[j]| >= |SUFFIXES[k]|
    ensures forall k :: 0 <= k < |SUFFIXES| ==> |SUFFIXES[k]| > 0
  {
  }

  lemma PrefixIsWritten(r: string, i: nat)
    requires PrefixForm(r, i)
    ensures Written(r, i, Mention(r[i..i + 2], r[i + 1]))
  {
    assert r[i..i + 2] == [r[i], r[i + 1]];
  }

  lemma SuffixIsWritten(r: string, i: nat)
    requires i < |r| && FirstSuffix(r, i, 0) < |SUFFIXES| && SuffixForm(r, i, SUFFIXES[FirstSuffix(r, i, 0)])
    ensures var k := FirstSuffix(r, i, 0); Written(r, i, Mention(r[i - 1..i + |SUFFIXES[k]|], r[i - 1]))
  {
    hide FirstSuffix;
    var k := FirstSuffix(r, i, 0);
    FirstIsLongest(r, i, 0);
    SuffixesShrink();
    assert LongestAt(r, i, k);
    assert r[i - 1..i + |SUFFIXES[k]|] == [r[i - 1]] + SUFFIXES[k];
  }

  /** What is written at i has one of the two surnames the scan looks at. */
  lemma WrittenIs(r: string, i: nat, m: Mention)
    requires i < |r| && Written(r, i, m)
    ensures || (PrefixForm(r, i) && m.surname == r[i + 1])
      || (i > 0 && FirstSuffix(r, i, 0) < |SUFFIXES| && SuffixForm(r, i, SUFFIXES[FirstSuffix(r, i, 0)])
          && m.surname == r[i - 1])
  {
    hide FirstSuffix, At;
    if !PrefixForm(r, i) || m.surname != r[i + 1] {
      var k: nat :| LongestAt(r, i, k) && m == Mention([r[i - 1]] + SUFFIXES[k], r[i - 1]);
      FirstIsLongest(r, i, 0);
      assert At(r, i, SUFFIXES[k]);
    }
  }

  lemma OneMore(ls: Lists, r: string, i: nat, out: seq<Mention>)
    requires Ordered(ls, r, i, i, out)
    ensures Ordered(ls, r, i, i + 1, out)
  {
    hide FirstWritten, Written, Seen, InOrder;
  }

  lemma ScanAtOrdered(ls: Lists, r: string, i: nat, out: seq<Mention>)
    requires i < |r| && Ordered(ls, r, i, i, out)
    ensures Ordered(ls, r, i + 1, i + 1, ScanAt(ls, r, i, out))
  {
    hide Add, Seen, PrefixForm, SuffixForm, FirstSuffix, Written, InOrder, FirstWritten, WrittenBefore;
    OneMore(ls, r, i, out);
    var more := out;
    if PrefixForm(r, i) {
      PrefixBounds(r, i);
      PrefixIsWritten(r, i);
      AddOrdered(ls, r, i, out, Mention(r[i..i + 2], r[i + 1]));
      more := Add(ls, out, r[i + 1], r[i..i + 2]);
    }
    var k := FirstSuffix(r, i, 0);
    if k < |SUFFIXES| && SuffixForm(r, i, SUFFIXES[k]) {
      SuffixBounds(r, i, SUFFIXES[k]);
      SuffixIsWritten(r, i);
      AddOrdered(ls, r, i, more, Mention(r[i - 1..i + |SUFFIXES[k]|], r[i - 1]));
    }
    forall m | Written(r, i, m) && m.surname in ls.surnames ensures Seen(ScanAt(ls, r, i, out), m.surname) {
      WrittenIs(r, i, m);
    }
  }

  lemma {:induction false} ScanIsOrdered(ls: Lists, r: string, n: nat)
    requires n <= |r|
    ensures Ordered(ls, r, n, n, Scan(ls, r, n))
  {
    hide ScanAt, Ordered;
    if n == 0 {
      NothingOrdered(ls, r);
    } else {
      ScanIsOrdered(ls, r, n - 1);
      ScanAtOrdered(ls, r, n - 1, Scan(ls, r, n - 1));
    }
  }

  lemma NothingOrdered(ls: Lists, r: string)
    ensures Ordered(ls, r, 0, 0, [])
  {
  }

  /** The mentions come in the order in which their surnames are first written in the masked
      text, each in the form written there, and every surname written there is mentioned. */
  lemma MentionsInOrder(ls: Lists, text: string)
    ensures var ms, r := Mentions(ls, text), Mask(ls, text);
      && (forall j :: 0 <= j < |ms| ==> WrittenBefore(ls, r, |r|, ms[j]))
      && (forall j, k :: 0 <= j < k < |ms| ==> InOrder(ls, r, ms[j], ms[k]))
      && (forall h, m :: 0 <= h < |r| && Written(r, h, m) && m.surname in ls.surnames ==> Seen(ms, m.surname))
  {
    hide Scan, Mask, InOrder, WrittenBefore, Written, Seen;
    ScanIsOrdered(ls, Mask(ls, text), |Mask(ls, text)|);
  }

  // ---- names that are address forms ----

  /** The surname of a name that is exactly an address form. */
  function AliasSurname(ls: Lists, name: string): Option<char> {
    var r := Trim(name);
    if Mask(ls, r) != r then None
    else if r in SUFFIXES then None
    else if |r| == 2 && r[0] in PREFIXES && r[1] in ls.surnames then Some(r[1])
    else if |r| > 1 && r[1..] in SUFFIXES && r[0] in ls.surnames then Some(r[0])
    else None
  }

  /** White space around a text does not change what is masked in it. */
  lemma PaddedUnmasked(ls: Lists, head: string, core: string, tail: string)
    requires Proper(ls) && AllSpace(head) && AllSpace(tail) && Mask(ls, core) == core
    ensures Mask(ls, head + core + tail) == head + core + tail
  {
    hide IsSpace, Mask, Wiped, Blanked, Absent;
    MaskingIsClean(ls, core);
    var t := head + core + tail;
    forall k | 0 <= k < |ls.everyday| ensures Absent(t, ls.everyday[k]) {
      assert Solid(ls.everyday[k]);
      PaddedAbsent(head, core, tail, ls.everyday[k]);
    }
    MaskingIsClean(ls, t);
  }

  /** A word without white space can only stand in the core. */
  lemma OccursInCore(head: string, core: string, tail: string, w: string, i: int)
    requires Solid(w) && AllSpace(head) && AllSpace(tail) && At(head + core + tail, i, w)
    ensures At(core, i - |head|, w)
  {
    hide IsSpace;
    var t := head + core + tail;
    assert t[i] == t[i..i + |w|][0] == w[0];
    assert t[i + |w| - 1] == t[i..i + |w|][|w| - 1] == w[|w| - 1];
    assert forall k :: 0 <= k < |head| ==> t[k] == head[k];
    assert forall k :: |head| + |core| <= k < |t| ==> t[k] == tail[k - |head| - |core|];
    assert |head| <= i && i + |w| <= |head| + |core|;
    assert core[i - |head|..i - |head| + |w|] == t[i..i + |w|];
  }

  lemma PaddedAbsent(head: string, core: string, tail: string, w: string)
    requires Solid(w) && AllSpace(head) && AllSpace(tail) && Absent(core, w)
    ensures Absent(head + core + tail, w)
  {
    hide IsSpace;
    var t := head + core + tail;
    forall i | 0 <= i <= |t| ensures !At(t, i, w) {
      if At(t, i, w) {
        OccursInCore(head, core, tail, w, i);
      }
    }
  }

  /** A name taken as an address form yields the same surname when scanned as text. */
  lemma NameAgreesWithText(ls: Lists, name: string)
    requires Proper(ls) && AliasSurname(ls, name).Some?
    ensures Seen(Mentions(ls, name), AliasSurname(ls, name).value)
    ensures AliasSurname(ls, name).value in ls.surnames
  {
    hide IsSpace, Mask, Scan, Seen, Trim, Proper;
    var x := AliasSurname(ls, name).value;
    var r := Trim(name);
    var head, tail := TrimParts(name);
    PaddedUnmasked(ls, head, r, tail);
    var m := Mention(r, x);
    assert At(name, |head|, r);
    if |r| == 2 && r[0] in PREFIXES && r[1] in ls.surnames {
      assert r == [r[0], x];
    } else {
      var k :| 0 <= k < |SUFFIXES| && SUFFIXES[k] == r[1..];
      assert r == [x] + SUFFIXES[k];
    }
    assert IsForm(name, |head|, m);
    FormIsScanned(ls, name, m);
  }

  /** A common surname behind a prefix or before a suffix, and nothing else. */
  predicate Addressed(ls: Lists, core: string, x: char) {
    && x in ls.surnames
    && ((exists p :: p in PREFIXES && core == [p, x]) || (exists k :: 0 <= k < |SUFFIXES| && core == [x] + SUFFIXES[k]))
  }

  /** name is core between white space. */
  predicate Wraps(name: string, head: string, core: string, tail: string) {
    name == head + core + tail && AllSpace(head) && AllSpace(tail)
  }

  /** name is, but for white space around it, an address form that is no title and holds no
      everyday word. */
  ghost predicate NamedByForm(ls: Lists, name: string, x: char) {
    exists head, core, tail :: Wraps(name, head, core, tail) && Addressed(ls, core, x) && core !in SUFFIXES
      && forall k :: 0 <= k < |ls.everyday| ==> Absent(core, ls.everyday[k])
  }

  /** The forms owners use, for every common surname x. */
  lemma Forms(ls: Lists, x: char)
    requires x in ls.surnames
    ensures Addressed(ls, ['老', x], x) && Addressed(ls, ['小', x], x) && Addressed(ls, ['阿', x], x)
    ensures Addressed(ls, [x] + "老板", x) && Addressed(ls, [x] + "总", x) && Addressed(ls, [x] + "姐", x)
    ensures Addressed(ls, [x] + "哥", x) && Addressed(ls, [x] + "师傅", x) && Addressed(ls, [x] + "老板娘", x)
  {
    assert SUFFIXES[0] == "老板娘" && SUFFIXES[1] == "老板" && SUFFIXES[2] == "师傅";
    assert SUFFIXES[8] == "总" && SUFFIXES[9] == "姐" && SUFFIXES[10] == "哥";
  }

  lemma AliasIsForm(ls: Lists, name: string)
    requires AliasSurname(ls, name).Some?
    ensures Addressed(ls, Trim(name), AliasSurname(ls, name).value)
  {
    hide Mask, Trim;
    var r, x := Trim(name), AliasSurname(ls, name).value;
    if |r| == 2 && r[0] in PREFIXES && r[1] in ls.surnames {
      assert r == [r[0], x];
    } else {
      var k :| 0 <= k < |SUFFIXES| && SUFFIXES[k] == r[1..];
      assert r == [x] + SUFFIXES[k];
    }
  }

  lemma FormIsAlias(ls: Lists, name: string, x: char)
    requires Addressed(ls, Trim(name), x) && Trim(name) !in SUFFIXES && Mask(ls, Trim(name)) == Trim(name)
    ensures AliasSurname(ls, name).Some?
  {
    hide Mask, Trim;
    var r := Trim(name);
    if k :| 0 <= k < |SUFFIXES| && r == [x] + SUFFIXES[k] {
      SuffixNotEmpty(k);
      assert r[1..] == SUFFIXES[k];
    }
  }

  lemma AddressedIsSolid(ls: Lists, core: string, x: char)
    requires Proper(ls) && Addressed(ls, core, x)
    ensures Solid(core)
  {
    hide IsSpace;
    FormSolid(Mention(core, x));
  }

  /** A name is taken for an address form exactly when it is one, and then for its surname. */
  lemma AliasSurnameExactly(ls: Lists, name: string)
    requires Proper(ls)
    ensures AliasSurname(ls, name).Some? <==> exists x :: NamedByForm(ls, name, x)
    ensures AliasSurname(ls, name).Some? ==> NamedByForm(ls, name, AliasSurname(ls, name).value)
  {
    hide IsSpace, Mask, Trim, Addressed, Absent, AllSpace, Proper, AliasSurname;
    MaskingIsClean(ls, Trim(name));
    if AliasSurname(ls, name).Some? {
      var head, tail := TrimParts(name);
      AliasIsForm(ls, name);
      AliasIsClean(ls, name);
      assert Wraps(name, head, Trim(name), tail);
      var x := AliasSurname(ls, name).value;
      assert NamedByForm(ls, name, x);
    }
    if exists x :: NamedByForm(ls, name, x) {
      var x :| NamedByForm(ls, name, x);
      var head, core, tail :| Wraps(name, head, core, tail) && Addressed(ls, core, x) && core !in SUFFIXES
        && forall k :: 0 <= k < |ls.everyday| ==> Absent(core, ls.everyday[k]);
      AddressedIsSolid(ls, core, x);
      assert core != "" && !IsSpace(core[0]) && !IsSpace(core[|core| - 1]);
      TrimIs(head, core, tail);
      FormIsAlias(ls, name, x);
    }
  }

  lemma AliasIsClean(ls: Lists, name: string)
    requires AliasSurname(ls, name).Some?
    ensures Mask(ls, Trim(name)) == Trim(name) && Trim(name) !in SUFFIXES
  {
    hide Mask, Trim;
  }

  // ---- the customer behind a form ----

  const MAX_ALIAS_LOOKUPS := 4

  /** A zero id is a walk-in name without a record. */
  datatype Customer = Customer(id: nat, name: string)

  predicate Named(c: Customer, surname: char) { c.id != 0 && |c.name| > 1 && c.name[0] == surname }

  /** What the repository answers for a surname; None is an error. */
  type Lookup = char -> Option<seq<Customer>>

  /** At most four mentions are looked up. */
  function FirstFew(ms: seq<Mention>): seq<Mention> { if |ms| > 4 then ms[..4] else ms }

  predicate Fails(ms: seq<Mention>, find: Lookup) { exists j :: 0 <= j < |ms| && find(ms[j].surname).None? }

  /** c is found through mention j: a record, not a walk-in, whose name is that surname and
      something more. */
  predicate Found(ms: seq<Mention>, find: Lookup, j: int, c: Customer) {
    && 0 <= j < |ms| && find(ms[j].surname).Some? && c in find(ms[j].surname).value
    && c.id != 0 && |c.name| >= 2 && c.name[0] == ms[j].surname
  }

  /** All customers found have the id. */
  ghost predicate OneCustomer(ms: seq<Mention>, find: Lookup, id: nat) {
    (exists j, c :: Found(ms, find, j, c)) && forall j, c :: Found(ms, find, j, c) ==> c.id == id
  }

  /** The message is attributed to a customer exactly when no lookup fails and all customers
      found have one id; the form returned is of that customer's surname. */
  method ResolveAliasInText(ls: Lists, text: string, find: Lookup) returns (r: Option<(Customer, string)>)
    requires Proper(ls)
    ensures var ms := FirstFew(Mentions(ls, text));
      r.Some? <==> !Fails(ms, find) && exists id :: OneCustomer(ms, find, id)
    ensures var ms := FirstFew(Mentions(ls, text));
      r.Some? ==> exists j :: Found(ms, find, j, r.value.0) && ms[j].form == r.value.1
  {
    hide Proper, Mentions;
    var ms := AliasSurnamesInText(ls, text);
    if |ms| > MAX_ALIAS_LOOKUPS {
      ms := ms[..MAX_ALIAS_LOOKUPS];
    }
    var found: map<nat, (Customer, nat)> := map[];
    var last: nat := 0;
    var j := 0;
    while j < |ms|
      invariant 0 <= j <= |ms| && forall k :: 0 <= k < j ==> find(ms[k].surname).Some?
      invariant forall k, c :: k < j && Found(ms, find, k, c) ==> c.id in found
      invariant forall id :: id in found ==>
        found[id].0.id == id && found[id].1 < j && Found(ms, find, found[id].1, found[id].0)
      invariant found != map[] ==> exists id :: id in found && found[id].1 == last
    {
      var cands := find(ms[j].surname);
      if cands.None? {
        assert Fails(ms, find);
        return None;
      }
      found, last := CollectNamed(ms, find, j, cands.value, found, last);
      j := j + 1;
    }
    if |found| != 1 {
      NotOne(ms, find, found);
      return None;
    }
    var id :| id in found;
    OnlyOne(found, id);
    r := Some((found[id].0, ms[last].form));
    assert Found(ms, find, found[id].1, found[id].0);
    assert OneCustomer(ms, find, id);
  }

  /** The customers with mention j's surname, by id; a later record replaces an earlier one. */
  method CollectNamed(ms: seq<Mention>, find: Lookup, j: nat, cands: seq<Customer>, found: map<nat, (Customer, nat)>,
                      last: nat)
    returns (more: map<nat, (Customer, nat)>, now: nat)
    requires j < |ms| && find(ms[j].surname) == Some(cands)
    requires forall k, c :: k < j && Found(ms, find, k, c) ==> c.id in found
    requires forall id :: id in found ==> found[id].0.id == id && found[id].1 < j && Found(ms, find, found[id].1, found[id].0)
    requires found != map[] ==> exists id :: id in found && found[id].1 == last
    ensures forall k, c :: k <= j && Found(ms, find, k, c) ==> c.id in more
    ensures forall id :: id in more ==>
      more[id].0.id == id && more[id].1 <= j && Found(ms, find, more[id].1, more[id].0)
    ensures more != map[] ==> exists id :: id in more && more[id].1 == now
  {
    more, now := found, last;
    var i := 0;
    while i < |cands|
      invariant 0 <= i <= |cands|
      invariant forall id :: id in found ==> id in more
      invariant forall q :: 0 <= q < i && Named(cands[q], ms[j].surname) ==> cands[q].id in more
      invariant forall id :: id in more ==>
        more[id].0.id == id && more[id].1 <= j && Found(ms, find, more[id].1, more[id].0)
      invariant more != map[] ==> exists id :: id in more && more[id].1 == now
    {
      var c := cands[i];
      if Named(c, ms[j].surname) {
        assert Found(ms, find, j, c);
        more := more[c.id := (c, j)];
        now := j;
        assert more[c.id].1 == now;
      }
      i := i + 1;
    }
  }

  lemma OnlyOne(found: map<nat, (Customer, nat)>, id: nat)
    requires |found| == 1 && id in found
    ensures forall other :: other in found ==> other == id
  {
    var rest := found.Keys - {id};
    assert |rest| == 0;
    forall other | other in found ensures other == id {
      assert other in rest || other == id;
    }
  }

  lemma NotOne(ms: seq<Mention>, find: Lookup, found: map<nat, (Customer, nat)>)
    requires |found| != 1
    requires forall k, c :: Found(ms, find, k, c) ==> c.id in found
    requires forall id :: id in found ==> found[id].0.id == id && Found(ms, find, found[id].1, found[id].0)
    ensures forall id :: !OneCustomer(ms, find, id)
  {
    hide Found;
    forall id: nat | OneCustomer(ms, find, id) ensures found.Keys == {id} {
    }
    assert |found| == |found.Keys|;
    forall id: nat ensures |{id}| == 1 {
    }
  }
}
