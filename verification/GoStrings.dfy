/** White space and trimming of Go's strings package, on code points. */
module GoStrings {

  /** unicode.IsSpace */
  predicate IsSpace(c: char) {
    c == ' ' || '\t' <= c <= '\r' || c == '\U{85}' || c == '\U{A0}' || c == '\U{1680}' || '\U{2000}' <= c <= '\U{200A}'
    || c == '\U{2028}' || c == '\U{2029}' || c == '\U{202F}' || c == '\U{205F}' || c == '\U{3000}'
  }

  function TrimLeft(s: string): string { if s != "" && IsSpace(s[0]) then TrimLeft(s[1..]) else s }

  function TrimRight(s: string): string {
    if s != "" && IsSpace(s[|s| - 1]) then TrimRight(s[..|s| - 1]) else s
  }

  function Trim(s: string): string { TrimRight(TrimLeft(s)) }

  predicate AllSpace(s: string) { forall i :: 0 <= i < |s| ==> IsSpace(s[i]) }

  lemma {:induction false} LeftPart(s: string) returns (head: string)
    ensures s == head + TrimLeft(s) && AllSpace(head)
  {
    hide IsSpace;
    if s != "" && IsSpace(s[0]) {
      var rest := LeftPart(s[1..]);
      head := [s[0]] + rest;
      assert s == [s[0]] + s[1..];
    } else {
      head := "";
    }
  }

  lemma {:induction false} RightPart(s: string) returns (tail: string)
    ensures s == TrimRight(s) + tail && AllSpace(tail)
  {
    hide IsSpace;
    if s != "" && IsSpace(s[|s| - 1]) {
      var rest := RightPart(s[..|s| - 1]);
      tail := rest + [s[|s| - 1]];
      assert s == s[..|s| - 1] + [s[|s| - 1]];
    } else {
      tail := "";
    }
  }

  /** Trimming removes white space at both ends and nothing else. */
  lemma TrimParts(s: string) returns (head: string, tail: string)
    ensures s == head + Trim(s) + tail && AllSpace(head) && AllSpace(tail)
  {
    hide IsSpace;
    head := LeftPart(s);
    tail := RightPart(TrimLeft(s));
  }

  lemma {:induction false} TrimLeftIs(head: string, s: string)
    requires AllSpace(head) && s != "" && !IsSpace(s[0])
    ensures TrimLeft(head + s) == s
  {
    hide IsSpace;
    if head == "" {
      assert head + s == s;
    } else {
      assert (head + s)[1..] == head[1..] + s;
      TrimLeftIs(head[1..], s);
    }
  }

  lemma {:induction false} TrimRightIs(s: string, tail: string)
    requires AllSpace(tail) && s != "" && !IsSpace(s[|s| - 1])
    ensures TrimRight(s + tail) == s
  {
    hide IsSpace;
    if tail == "" {
      assert s + tail == s;
    } else {
      var n := |tail| - 1;
      assert (s + tail)[..|s + tail| - 1] == s + tail[..n];
      TrimRightIs(s, tail[..n]);
    }
  }

  /** A text without white space at its ends is what trimming leaves of it. */
  lemma TrimIs(head: string, core: string, tail: string)
    requires AllSpace(head) && AllSpace(tail) && core != "" && !IsSpace(core[0]) && !IsSpace(core[|core| - 1])
    ensures Trim(head + core + tail) == core
  {
    hide IsSpace, TrimLeft, TrimRight;
    TrimLeftIs(head, core + tail);
    TrimRightIs(core, tail);
    assert head + core + tail == head + (core + tail);
  }
}
