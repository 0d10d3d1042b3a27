/**
 Diagram lines as Markdown code spans. `CodeSpan` fences a line with more backticks than it has in a row; reading it back by
 section 6.1 of CommonMark 0.31.2 gives the line.
 */
module Mermaid {
  import opened Wrappers
  import opened Strings

  /** A backtick string: backticks with no backtick before or behind. */
  ghost predicate IsRun(s: string, i: nat, j: nat) {
    && i < j <= |s| && (forall k :: i <= k < j ==> s[k] == '`')
    && (i > 0 ==> s[i - 1] != '`') && (j < |s| ==> s[j] != '`')
  }

  /** No run starts inside a stretch of backticks. */
  lemma RunStarts(s: string, i: nat, j: nat, a: nat, b: nat)
    requires i <= a && j <= |s| && (forall k :: i <= k < j ==> s[k] == '`') && IsRun(s, a, b)
    ensures a == i || j <= a
  {
  }

  /** A run leaves out whatever is no backtick. */
  lemma RunLeavesOut(s: string, a: nat, b: nat, k: nat)
    requires IsRun(s, a, b) && k < |s| && s[k] != '`'
    ensures k < a || b <= k
  {
  }

  function RunEnd(s: string, i: nat): (j: nat)
    requires i <= |s|
    ensures i <= j <= |s| && (forall k :: i <= k < j ==> s[k] == '`') && (j < |s| ==> s[j] != '`')
    decreases |s| - i
  {
    if i < |s| && s[i] == '`' then RunEnd(s, i + 1) else i
  }

  /** The length of the longest backtick string from position `i` on. */
  function Longest(s: string, i: nat): (n: nat)
    requires i <= |s|
    decreases |s| - i
  {
    if i == |s| then 0
    else if s[i] == '`' then
      var j := RunEnd(s, i);
      var rest := Longest(s, j);
      if rest < j - i then j - i else rest
    else Longest(s, i + 1)
  }

  lemma {:induction false} LongestIsLongest(s: string, i: nat, a: nat, b: nat)
    requires i <= a && IsRun(s, a, b)
    ensures b - a <= Longest(s, i)
    decreases a - i
  {
    if i < a {
      if s[i] == '`' {
        RunStarts(s, i, RunEnd(s, i), a, b);
        LongestIsLongest(s, RunEnd(s, i), a, b);
      } else {
        LongestIsLongest(s, i + 1, a, b);
      }
    } else {
      RunEndIs(s, a, b);
    }
  }

  /** If it is not 0, there is a backtick string as long. */
  lemma {:induction false} LongestIsThere(s: string, i: nat) returns (a: nat, b: nat)
    requires i <= |s| && Longest(s, i) > 0 && (0 < i < |s| ==> s[i - 1] != '`' || s[i] != '`')
    ensures IsRun(s, a, b) && b - a == Longest(s, i)
    decreases |s| - i
  {
    if s[i] == '`' {
      var j := RunEnd(s, i);
      if Longest(s, j) < j - i {
        a, b := i, j;
      } else {
        a, b := LongestIsThere(s, j);
      }
    } else {
      a, b := LongestIsThere(s, i + 1);
    }
  }

  lemma RunEndIs(s: string, a: nat, b: nat)
    requires a <= b <= |s| && (forall k :: a <= k < b ==> s[k] == '`') && (b < |s| ==> s[b] != '`')
    ensures RunEnd(s, a) == b
  {
  }

  function Ticks(n: nat): (r: string)
    ensures |r| == n && forall k :: 0 <= k < n ==> r[k] == '`'
  {
    if n == 0 then "" else Ticks(n - 1) + ['`']
  }

  /** What the span is to say: the line, or a no-break space where there is nothing to see. */
  function Content(line: string): string {
    if Trim(line) != "" then line else "\U{a0}"
  }

  /** `codeSpan`. */
  function CodeSpan(line: string): string {
    var content := Content(line);
    var fence := Ticks(Longest(content, 0) + 1);
    fence + " " + content + " " + fence
  }

  // ---------------------------------------------------------------------------------------------
  // Section 6.1 of CommonMark 0.31.2
  // ---------------------------------------------------------------------------------------------

  /** The first backtick string of length `n` from `i` on. */
  function FindRun(s: string, i: nat, n: nat): Option<nat>
    requires i <= |s|
    decreases |s| - i
  {
    if i == |s| then None
    else if s[i] == '`' then
      var j := RunEnd(s, i);
      if j - i == n then Some(i) else FindRun(s, j, n)
    else FindRun(s, i + 1, n)
  }

  predicate IsLineEnding(c: char) {
    c == '\n' || c == '\r'
  }

  /** Line endings become spaces. */
  function LineEndingsToSpaces(s: string): string {
    if s == "" then ""
    else if s[0] == '\r' && |s| > 1 && s[1] == '\n' then " " + LineEndingsToSpaces(s[2..])
    else [if IsLineEnding(s[0]) then ' ' else s[0]] + LineEndingsToSpaces(s[1..])
  }

  predicate AllSpaces(s: string) {
    forall k :: 0 <= k < |s| ==> s[k] == ' '
  }

  /** One space is taken off both ends, unless there is nothing but spaces. */
  function StripOne(s: string): string {
    if |s| >= 2 && s[0] == ' ' && s[|s| - 1] == ' ' && !AllSpaces(s) then s[1..|s| - 1] else s
  }

  datatype Span = Span(content: string, rest: string)

  /** The code span that a text starts with, if it does. */
  function ReadCodeSpan(s: string): Option<Span> {
    var n := RunEnd(s, 0);
    if n == 0 then None else
      var close := FindRun(s, n, n);
      if close.None? || close.value + n > |s| || close.value < n then None
      else Some(Span(StripOne(LineEndingsToSpaces(s[n..close.value])), s[close.value + n..]))
  }

  ghost predicate RunOf(s: string, a: nat, n: nat) {
    IsRun(s, a, a + n)
  }

  /** `FindRun` is the first backtick string of that length. */
  lemma {:induction false} FindRunIsFirst(s: string, i: nat, n: nat)
    requires i <= |s| && n > 0 && (0 < i < |s| ==> s[i - 1] != '`' || s[i] != '`')
    ensures var r := FindRun(s, i, n);
      && (r.Some? ==> i <= r.value && RunOf(s, r.value, n))
      && forall a: nat :: i <= a && (r.Some? ==> a < r.value) ==> !RunOf(s, a, n)
    decreases |s| - i
  {
    if i < |s| {
      if s[i] == '`' {
        var j := RunEnd(s, i);
        assert IsRun(s, i, j);
        forall a: nat | i <= a && RunOf(s, a, n)
          ensures (a == i && j == i + n) || j <= a
        {
          RunStarts(s, i, j, a, a + n);
          if a == i {
            RunEndIs(s, i, i + n);
          }
        }
        if j - i != n {
          FindRunIsFirst(s, j, n);
        }
      } else {
        FindRunIsFirst(s, i + 1, n);
      }
    }
  }

  lemma {:induction false} NoLineEndings(s: string)
    requires forall k :: 0 <= k < |s| ==> !IsLineEnding(s[k])
    ensures LineEndingsToSpaces(s) == s
    decreases |s|
  {
    if s != "" {
      NoLineEndings(s[1..]);
    }
  }

  lemma ContentIsNotSpaces(line: string)
    ensures Content(line) != "" && !AllSpaces(Content(line))
    ensures (forall k :: 0 <= k < |line| ==> !IsLineEnding(line[k])) ==>
      forall k :: 0 <= k < |Content(line)| ==> !IsLineEnding(Content(line)[k])
  {
    if Trim(line) != "" {
      var k :| 0 <= k < |line| && !IsSpace(line[k]);
      assert line[k] != ' ';
    } else {
      assert Content(line)[0] == '\U{a0}';
    }
  }

  /** A fence of `n`, a space, the content, a space, the fence, and then no backtick. */
  ghost predicate Fenced(s: string, n: nat, content: string) {
    var c := n + |content| + 2;
    && n > 0 && c + n <= |s|
    && (forall k :: 0 <= k < n ==> s[k] == '`') && s[n] == ' '
    && (forall k :: n < k < c - 1 ==> s[k] == content[k - n - 1]) && (forall k :: 0 <= k < |content| ==> s[n + 1 + k] == content[k])
    && s[c - 1] == ' ' && (forall k :: c <= k < c + n ==> s[k] == '`')
    && (c + n < |s| ==> s[c + n] != '`')
  }

  lemma FencedIs(n: nat, content: string, rest: string)
    requires n > 0 && (rest == "" || rest[0] != '`')
    ensures Fenced(Ticks(n) + (" " + content + " ") + Ticks(n) + rest, n, content)
  {
    var fence := Ticks(n);
    var s := fence + (" " + content + " ") + fence + rest;
    var c := n + |content| + 2;
    assert forall k :: 0 <= k < n ==> s[k] == fence[k];
    assert forall k :: n < k < c - 1 ==> s[k] == content[k - n - 1];
    assert forall k :: c <= k < c + n ==> s[k] == fence[k - c];
    assert c + n < |s| ==> s[c + n] == rest[0];
  }

  /** In the span, the first backtick string as long as the fence is the closing one. */
  lemma CloseIsFound(s: string, n: nat, content: string)
    requires Fenced(s, n, content) && n > Longest(content, 0)
    ensures RunEnd(s, 0) == n && FindRun(s, n, n) == Some(n + |content| + 2)
  {
    var c := n + |content| + 2;
    RunEndIs(s, 0, n);
    FindRunIsFirst(s, n, n);
    assert RunOf(s, c, n);
    forall a: nat | n <= a < c
      ensures !RunOf(s, a, n)
    {
      NoRunInContent(s, content, n, a);
    }
  }

  lemma NoRunInContent(s: string, content: string, n: nat, a: nat)
    requires Fenced(s, n, content) && n > Longest(content, 0) && n <= a < n + |content| + 2
    ensures !RunOf(s, a, n)
  {
    if RunOf(s, a, n) {
      RunIsInContent(s, content, n, a);
      LongestIsLongest(content, 0, a - n - 1, a - 1);
    }
  }

  lemma RunIsInContent(s: string, content: string, n: nat, a: nat)
    requires Fenced(s, n, content) && n <= a < n + |content| + 2 && RunOf(s, a, n)
    ensures a > n && IsRun(content, a - n - 1, a - 1)
  {
    var c := n + |content| + 2;
    RunLeavesOut(s, a, a + n, n);
    RunLeavesOut(s, a, a + n, c - 1);
    assert forall k :: a - n - 1 <= k < a - 1 ==> s[n + 1 + k] == content[k];
    assert a - n - 1 > 0 ==> s[a - 1] == content[a - n - 2];
    assert a - 1 < |content| ==> s[n + 1 + (a - 1)] == content[a - 1];
  }

  /**
   Main result. Wherever the span stands, unless a backtick follows, reading it gives back the line, and what follows is
   left; a blank line comes back as a no-break space.
   */
  lemma CodeSpanRoundTrip(line: string, rest: string)
    requires (forall k :: 0 <= k < |line| ==> !IsLineEnding(line[k])) && (rest == "" || rest[0] != '`')
    ensures ReadCodeSpan(CodeSpan(line) + rest) == Some(Span(if Blank(line) then "\U{a0}" else line, rest))
  {
    hide *;
    var content := Content(line);
    ContentIsNotSpaces(line);
    CodeSpanIs(line);
    SpanIsRead(Longest(content, 0) + 1, content, rest);
    PaddedIsStripped(content);
  }

  lemma PaddedIsStripped(content: string)
    requires !AllSpaces(content) && forall k :: 0 <= k < |content| ==> !IsLineEnding(content[k])
    ensures StripOne(LineEndingsToSpaces(" " + content + " ")) == content
  {
    var inner := " " + content + " ";
    forall k | 0 <= k < |inner|
      ensures !IsLineEnding(inner[k])
    {
      assert inner[k] == ' ' || inner[k] == content[k - 1];
    }
    hide AllSpaces, LineEndingsToSpaces, StripOne, IsLineEnding;
    NoLineEndings(inner);
    StripPadded(content);
  }

  lemma CodeSpanIs(line: string)
    ensures var content := Content(line); var n := Longest(content, 0) + 1;
      CodeSpan(line) == Ticks(n) + (" " + content + " ") + Ticks(n) && content == if Blank(line) then "\U{a0}" else line
  {
    hide Ticks, Longest, Trim;
    var content := Content(line);
    var fence := Ticks(Longest(content, 0) + 1);
    assert fence + " " + content + " " + fence == fence + (" " + content + " ") + fence;
  }

  /** The fence is one backtick, or one more than some backtick string of the content has. */
  lemma FenceIsShort(line: string) returns (n: nat, a: nat, b: nat)
    ensures var content := if Blank(line) then "\U{a0}" else line;
      && CodeSpan(line) == Ticks(n) + (" " + content + " ") + Ticks(n)
      && (n == 1 || (IsRun(content, a, b) && n == b - a + 1))
  {
    CodeSpanIs(line);
    var content := Content(line);
    n, a, b := Longest(content, 0) + 1, 0, 0;
    if n > 1 {
      a, b := LongestIsThere(content, 0);
    }
  }

  lemma SpanIsRead(n: nat, content: string, rest: string)
    requires n > Longest(content, 0) && (rest == "" || rest[0] != '`')
    ensures var inner := " " + content + " ";
      ReadCodeSpan(Ticks(n) + inner + Ticks(n) + rest) == Some(Span(StripOne(LineEndingsToSpaces(inner)), rest))
  {
    hide *;
    var fence, inner := Ticks(n), " " + content + " ";
    var s := fence + inner + fence + rest;
    FencedIs(n, content, rest);
    CloseIsFound(s, n, content);
    Cut(fence, inner, fence, rest);
    assert |inner| == |content| + 2;
    ReadIs(s, n, n + |inner|);
  }

  lemma ReadIs(s: string, n: nat, c: nat)
    requires n > 0 && RunEnd(s, 0) == n && FindRun(s, n, n) == Some(c) && n <= c && c + n <= |s|
    ensures ReadCodeSpan(s) == Some(Span(StripOne(LineEndingsToSpaces(s[n..c])), s[c + n..]))
  {
    hide RunEnd, FindRun, StripOne, LineEndingsToSpaces;
  }

  lemma Cut(a: string, b: string, c: string, d: string)
    ensures var s := a + b + c + d; s[|a|..|a| + |b|] == b && s[|a| + |b| + |c|..] == d
  {
  }

  lemma StripPadded(content: string)
    requires !AllSpaces(content)
    ensures StripOne(" " + content + " ") == content
  {
    var inner := " " + content + " ";
    var k :| 0 <= k < |content| && content[k] != ' ';
    assert inner[k + 1] == content[k];
    assert inner[1..|inner| - 1] == content;
  }
}
