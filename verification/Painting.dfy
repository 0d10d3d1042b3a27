/**
 Painting the columns of a selection. A line that may hold escape sequences is scanned, the text between them is cut into
 graphemes, and reverse video is switched on and off around those in the columns, and on again after any style sequence.
 The text that is seen stays the same.
 */
module Painting {
  import opened Wrappers
  import opened Strings

  /** What an escape sequence does to reverse video. */
  datatype Effect = Keep | Set | Clear

  /** A line as the terminal reads it. `On` and `Off` are what painting adds; only style sequences have an effect. */
  datatype Token = Grapheme(text: string, width: nat) | Escape(text: string, style: bool, effect: Effect) | On | Off

  predicate IsInput(t: Token) {
    t.Grapheme? || (t.Escape? && (!t.style ==> t.effect == Keep))
  }

  /** The line without what painting added. */
  function Stripped(out: seq<Token>): seq<Token> {
    if out == [] then [] else
      Stripped(out[..|out| - 1]) + if out[|out| - 1].On? || out[|out| - 1].Off? then [] else [out[|out| - 1]]
  }

  /** The columns taken by the graphemes. */
  function Column(out: seq<Token>): nat {
    if out == [] then 0 else Column(out[..|out| - 1]) + if out[|out| - 1].Grapheme? then out[|out| - 1].width else 0
  }

  /** Whether reverse video is on behind the tokens. */
  function Reversed(out: seq<Token>): bool {
    out != [] &&
    match out[|out| - 1]
    case Grapheme(_, _) => Reversed(out[..|out| - 1])
    case Escape(_, _, effect) => effect == Set || (effect == Keep && Reversed(out[..|out| - 1]))
    case On => true
    case Off => false
  }

  predicate NeverSets(out: seq<Token>) {
    forall t :: t in out && t.Escape? ==> t.effect != Set
  }

  /** Every grapheme that starts in the columns is reversed; those before look as they did, and those outside are not reversed by painting. */
  ghost predicate Painted(out: seq<Token>, from: int, to: int) {
    forall k :: 0 <= k < |out| && out[k].Grapheme? ==> Shown(out[..k], from, to)
  }

  ghost predicate Shown(before: seq<Token>, from: int, to: int) {
    var column := Column(before);
    && (from <= column < to ==> Reversed(before))
    && (column < from ==> Reversed(before) == Reversed(Stripped(before)))
    && (!(from <= column < to) && NeverSets(before) ==> !Reversed(before))
  }

  /** What holds of the output so far. */
  ghost predicate Painting(out: seq<Token>, from: int, to: int, column: nat, open: bool) {
    && Painted(out, from, to) && Column(out) == column
    && (open ==> Reversed(out) && from <= column < to)
    && (!open && NeverSets(out) ==> !Reversed(out))
    && (column < from ==> Reversed(out) == Reversed(Stripped(out)))
  }

  lemma Appended(out: seq<Token>, t: Token)
    ensures Column(out + [t]) == Column(out) + if t.Grapheme? then t.width else 0
    ensures Stripped(out + [t]) == if t.On? || t.Off? then Stripped(out) else Stripped(out) + [t]
    ensures Reversed(out + [t]) == match t
      case Grapheme(_, _) => Reversed(out)
      case Escape(_, _, effect) => effect == Set || (effect == Keep && Reversed(out))
      case On => true
      case Off => false
  {
    assert (out + [t])[..|out|] == out;
  }

  lemma NeverSetsAppended(out: seq<Token>, t: Token)
    ensures NeverSets(out + [t]) <==> NeverSets(out) && (t.Escape? ==> t.effect != Set)
  {
    assert t in out + [t] && forall u :: u in out ==> u in out + [t];
  }

  lemma PaintedAppended(out: seq<Token>, t: Token, from: int, to: int)
    requires Painted(out, from, to) && (t.Grapheme? ==> Shown(out, from, to))
    ensures Painted(out + [t], from, to)
  {
    hide Shown;
    var more := out + [t];
    forall k | 0 <= k < |more| && more[k].Grapheme?
      ensures Shown(more[..k], from, to)
    {
      if k < |out| {
        assert more[..k] == out[..k];
      } else {
        assert more[..k] == out;
      }
    }
  }

  lemma PutOn(out: seq<Token>, from: int, to: int, column: nat, open: bool)
    requires Painting(out, from, to, column, open) && from <= column < to
    ensures Painting(out + [On], from, to, column, true)
  {
    hide Painted, Reversed, Stripped, Column, NeverSets;
    Appended(out, On);
    PaintedAppended(out, On, from, to);
  }

  lemma PutOff(out: seq<Token>, from: int, to: int, column: nat)
    requires Painted(out, from, to) && Column(out) == column && from <= column
    ensures Painting(out + [Off], from, to, column, false)
  {
    hide Painted, Reversed, Stripped, Column, NeverSets;
    Appended(out, Off);
    PaintedAppended(out, Off, from, to);
  }

  lemma PutGrapheme(out: seq<Token>, g: Token, from: int, to: int, column: nat, open: bool)
    requires Painting(out, from, to, column, open) && g.Grapheme? && (from <= column < to ==> open)
    ensures var column' := column + g.width;
      if open && column' >= to then Painting(out + [g] + [Off], from, to, column', false) else Painting(out + [g], from, to, column', open)
  {
    hide Painted, Reversed, Stripped, Column, NeverSets;
    var column' := column + g.width;
    Appended(out, g);
    NeverSetsAppended(out, g);
    PaintedAppended(out, g, from, to);
    if open && column' >= to {
      PutOff(out + [g], from, to, column');
    } else if column' < from {
      Appended(Stripped(out), g);
    }
  }

  lemma PutEscape(out: seq<Token>, e: Token, from: int, to: int, column: nat, open: bool)
    requires Painting(out, from, to, column, open) && e.Escape? && IsInput(e)
    ensures if open && e.style then Painting(out + [e] + [On], from, to, column, true) else Painting(out + [e], from, to, column, open)
  {
    hide Painted, Reversed, Stripped, Column, NeverSets;
    Appended(out, e);
    NeverSetsAppended(out, e);
    PaintedAppended(out, e, from, to);
    if column < from {
      Appended(Stripped(out), e);
    }
    if open && e.style {
      PaintedAppended(out + [e], On, from, to);
      Appended(out + [e], On);
    }
  }

  /** The closure variables of `paintColumns`. */
  class Painter {
    const from: int
    const to: int
    var out: seq<Token>
    var column: nat
    var open: bool

    constructor (from: int, to: int)
      ensures this.from == from && this.to == to && Valid() && out == []
    {
      this.from, this.to := from, to;
      out, column, open := [], 0, false;
    }

    ghost predicate Valid()
      reads this
    {
      Painting(out, from, to, column, open)
    }

    /** The closure `flush`: a stretch of plain text. */
    method Flush(plain: seq<Token>)
      requires Valid() && forall t :: t in plain ==> t.Grapheme?
      modifies this
      ensures Valid() && Stripped(out) == Stripped(old(out)) + plain
    {
      for i := 0 to |plain|
        invariant Valid() && Stripped(out) == Stripped(old(out)) + plain[..i]
      {
        assert plain[i] in plain;
        assert plain[..i + 1] == plain[..i] + [plain[i]];
        FlushOne(plain[i]);
      }
      assert plain[..|plain|] == plain;
    }

    method FlushOne(segment: Token)
      requires Valid() && segment.Grapheme?
      modifies this
      ensures Valid() && Stripped(out) == Stripped(old(out)) + [segment]
    {
      hide Painting, Stripped;
      if !open && column >= from && column < to {
        Appended(out, On);
        PutOn(out, from, to, column, open);
        out := out + [On];
        open := true;
      }
      OpenIsInside(out, from, to, column, open);
      PutGrapheme(out, segment, from, to, column, open);
      Appended(out, segment);
      Appended(out + [segment], Off);
      out := out + [segment];
      column := column + segment.width;
      if open && column >= to {
        out := out + [Off];
        open := false;
      }
    }

    method PassEscape(escape: Token)
      requires Valid() && escape.Escape? && IsInput(escape)
      modifies this
      ensures Valid() && Stripped(out) == Stripped(old(out)) + [escape]
    {
      hide Painting, Stripped;
      PutEscape(out, escape, from, to, column, open);
      Appended(out, escape);
      Appended(out + [escape], On);
      out := out + [escape];
      if open && escape.style {
        out := out + [On];
      }
    }

    /** What follows the line is not reversed. */
    method Close()
      requires Valid()
      modifies this
      ensures Stripped(out) == Stripped(old(out)) && Painted(out, from, to) && (NeverSets(out) ==> !Reversed(out))
    {
      hide Painting, Painted, Stripped, Reversed, NeverSets;
      OpenIsInside(out, from, to, column, open);
      if open {
        Appended(out, Off);
        PutOff(out, from, to, column);
        out := out + [Off];
        OpenIsInside(out, from, to, column, false);
      }
    }
  }

  lemma OpenIsInside(out: seq<Token>, from: int, to: int, column: nat, open: bool)
    requires Painting(out, from, to, column, open)
    ensures open ==> from <= column < to
    ensures Painted(out, from, to) && Column(out) == column && (!open && NeverSets(out) ==> !Reversed(out))
  {
    hide Painted, Reversed, Stripped, Column, NeverSets;
  }

  // ---------------------------------------------------------------------------------------------
  // Escape sequences
  // ---------------------------------------------------------------------------------------------

  const ESC: char := '\U{1b}'
  const BEL: char := '\U{07}'

  predicate IsParameter(c: char) {
    IsDigit(c) || c == ';' || c == '?'
  }

  predicate IsFinal(c: char) {
    'A' <= c <= 'Z' || 'a' <= c <= 'z'
  }

  /** /\x1b\[[0-9;?]*[A-Za-z]/ */
  predicate IsControl(t: string) {
    && |t| > 2 && t[0] == ESC && t[1] == '['
    && (forall k :: 2 <= k < |t| - 1 ==> IsParameter(t[k]))
    && IsFinal(t[|t| - 1])
  }

  /** /\x1b[\]_][^\x07\x1b]*(?:\x07|\x1b\\)/, ending with the string terminator of `end` characters. */
  predicate IsCommand(t: string, end: nat) {
    && |t| >= 2 + end && t[0] == ESC && (t[1] == ']' || t[1] == '_')
    && (forall k :: 2 <= k < |t| - end ==> t[k] != ESC && t[k] != BEL)
    && ((end == 1 && t[|t| - 1] == BEL) || (end == 2 && t[|t| - 2] == ESC && t[|t| - 1] == '\\'))
  }

  predicate IsEscape(t: string) {
    IsControl(t) || IsCommand(t, 1) || IsCommand(t, 2)
  }

  /** /^\x1b\[[0-9;]*m$/ */
  predicate IsStyle(t: string) {
    IsControl(t) && t[|t| - 1] == 'm' && forall k :: 2 <= k < |t| - 1 ==> t[k] != '?'
  }

  function ParametersEnd(s: string, from: nat): (r: nat)
    requires from <= |s|
    ensures from <= r <= |s| && (forall k :: from <= k < r ==> IsParameter(s[k])) && (r < |s| ==> !IsParameter(s[r]))
    decreases |s| - from
  {
    if from < |s| && IsParameter(s[from]) then ParametersEnd(s, from + 1) else from
  }

  function CommandEnd(s: string, from: nat): (r: nat)
    requires from <= |s|
    ensures from <= r <= |s| && (forall k :: from <= k < r ==> s[k] != ESC && s[k] != BEL) && (r < |s| ==> s[r] == ESC || s[r] == BEL)
    decreases |s| - from
  {
    if from < |s| && s[from] != ESC && s[from] != BEL then CommandEnd(s, from + 1) else from
  }

  /** The length of the escape sequence that the text starts with; 0 if there is none. */
  function EscapeLength(s: string): (n: nat)
    ensures n <= |s|
  {
    if |s| < 2 || s[0] != ESC then 0
    else if s[1] == '[' then
      var p := ParametersEnd(s, 2);
      if p < |s| && IsFinal(s[p]) then p + 1 else 0
    else if s[1] == ']' || s[1] == '_' then
      var e := CommandEnd(s, 2);
      if e < |s| && s[e] == BEL then e + 1
      else if e + 1 < |s| && s[e] == ESC && s[e + 1] == '\\' then e + 2
      else 0
    else 0
  }

  /** What is found is an escape sequence. */
  lemma FoundIsEscape(s: string)
    requires EscapeLength(s) > 0
    ensures IsEscape(s[..EscapeLength(s)])
  {
  }

  /** An escape sequence is found whatever follows it. */
  lemma EscapeIsFound(t: string, rest: string)
    requires IsEscape(t)
    ensures EscapeLength(t + rest) == |t| > 0
  {
    var s := t + rest;
    assert forall k :: 0 <= k < |t| ==> s[k] == t[k];
    if IsControl(t) {
      ParametersEndIs(s, 2, |t| - 1);
    } else if IsCommand(t, 1) {
      CommandEndIs(s, 2, |t| - 1);
    } else {
      CommandEndIs(s, 2, |t| - 2);
    }
  }

  lemma ParametersEndIs(s: string, from: nat, end: nat)
    requires from <= end < |s| && (forall k :: from <= k < end ==> IsParameter(s[k])) && !IsParameter(s[end])
    ensures ParametersEnd(s, from) == end
  {
  }

  lemma CommandEndIs(s: string, from: nat, end: nat)
    requires from <= end < |s| && (forall k :: from <= k < end ==> s[k] != ESC && s[k] != BEL) && (s[end] == ESC || s[end] == BEL)
    ensures CommandEnd(s, from) == end
  {
  }

  ghost predicate Only(s: string, allowed: string) {
    forall k :: 0 <= k < |s| ==> s[k] in allowed
  }

  ghost predicate No(s: string, a: char, b: char) {
    forall k :: 0 <= k < |s| ==> s[k] != a && s[k] != b
  }

  /** The escape sequences written out: a control sequence, or a command up to a bell or a string terminator. */
  lemma EscapesAre(t: string)
    ensures IsControl(t) <==>
      exists p, c :: t == "\U{1b}[" + p + [c] && Only(p, "0123456789;?") && (c in CAPITALS || c in SMALL)
    ensures IsStyle(t) <==> exists p :: t == "\U{1b}[" + p + "m" && Only(p, "0123456789;")
    ensures IsCommand(t, 1) <==>
      exists p :: (t == "\U{1b}]" + p + "\U{7}" || t == "\U{1b}_" + p + "\U{7}") && No(p, '\U{1b}', '\U{7}')
    ensures IsCommand(t, 2) <==>
      exists p :: (t == "\U{1b}]" + p + "\U{1b}\\" || t == "\U{1b}_" + p + "\U{1b}\\") && No(p, '\U{1b}', '\U{7}')
  {
    hide *;
    ControlIs(t);
    StyleIs(t);
    CommandIs(t, 1, "\U{7}");
    CommandIs(t, 2, "\U{1b}\\");
  }

  lemma FinalIs(c: char)
    ensures IsFinal(c) <==> c in CAPITALS || c in SMALL
  {
    CapitalsAre(c);
    SmallAre(c);
    hide CAPITALS, SMALL;
  }

  lemma CharsAre()
    ensures forall c: char :: IsFinal(c) <==> c in CAPITALS || c in SMALL
    ensures forall c: char :: IsParameter(c) <==> c in "0123456789;?"
  {
    forall c: char
      ensures IsFinal(c) <==> c in CAPITALS || c in SMALL
      ensures IsParameter(c) <==> c in "0123456789;?"
    {
      FinalIs(c);
      ParameterIs(c);
      hide *;
    }
  }

  lemma ParameterIs(c: char)
    ensures IsParameter(c) <==> c in "0123456789;?"
    ensures IsParameter(c) && c != '?' <==> c in "0123456789;"
  {
  }

  lemma ControlIs(t: string)
    ensures IsControl(t) <==>
      exists p, c :: t == "\U{1b}[" + p + [c] && Only(p, "0123456789;?") && (c in CAPITALS || c in SMALL)
  {
    hide IsFinal, IsParameter, CAPITALS, SMALL;
    CharsAre();
    if IsControl(t) {
      var p, c := t[2..|t| - 1], t[|t| - 1];
      assert t == "\U{1b}[" + p + [c];
    }
  }

  lemma StyleIs(t: string)
    ensures IsStyle(t) <==> exists p :: t == "\U{1b}[" + p + "m" && Only(p, "0123456789;")
  {
    hide IsParameter;
    forall c: char
      ensures IsParameter(c) && c != '?' <==> c in "0123456789;"
    {
      ParameterIs(c);
    }
    if IsStyle(t) {
      var p := t[2..|t| - 1];
      assert t == "\U{1b}[" + p + "m";
    }
  }

  lemma CommandIs(t: string, end: nat, closing: string)
    requires (end == 1 && closing == "\U{7}") || (end == 2 && closing == "\U{1b}\\")
    ensures IsCommand(t, end) <==>
      exists p :: (t == "\U{1b}]" + p + closing || t == "\U{1b}_" + p + closing) && No(p, '\U{1b}', '\U{7}')
  {
    if IsCommand(t, end) {
      var p := t[2..|t| - end];
      assert t == [t[0], t[1]] + p + closing;
      assert t == "\U{1b}]" + p + closing || t == "\U{1b}_" + p + closing;
    }
  }

  /** Inside an escape sequence there is no other one of the form that painting adds. */
  lemma NoControlInside(t: string, k: nat)
    requires IsEscape(t) && 0 < k < |t|
    ensures !(t[k] == ESC && (k + 1 == |t| || t[k + 1] == '['))
  {
  }

  // ---------------------------------------------------------------------------------------------
  // Cutting a line
  // ---------------------------------------------------------------------------------------------

  /** How text is cut into graphemes, and what a style sequence does to reverse video, are given. */
  datatype Terminal = Terminal(graphemes: string -> seq<Token>, effect: string -> Effect)

  function Text(tokens: seq<Token>): string {
    if tokens == [] then "" else TextOf(tokens[0]) + Text(tokens[1..])
  }

  function TextOf(t: Token): string {
    match t
    case Grapheme(text, _) => text
    case Escape(text, _, _) => text
    case On => [ESC] + "[7m"
    case Off => [ESC] + "[27m"
  }

  /** The graphemes of a text are that text. */
  ghost predicate Segments(terminal: Terminal) {
    forall plain :: Text(terminal.graphemes(plain)) == plain && forall t :: t in terminal.graphemes(plain) ==> t.Grapheme?
  }

  function EscapeOf(terminal: Terminal, text: string): Token {
    Escape(text, IsStyle(text), if IsStyle(text) then terminal.effect(text) else Keep)
  }

  /** The line from `i` on, behind text that has not been cut yet. */
  function Cut(terminal: Terminal, line: string, i: nat, plain: string): seq<Token>
    requires i <= |line|
    decreases |line| - i
  {
    if i == |line| then terminal.graphemes(plain) else
      var n := EscapeLength(line[i..]);
      if n == 0 then Cut(terminal, line, i + 1, plain + [line[i]])
      else terminal.graphemes(plain) + [EscapeOf(terminal, line[i..i + n])] + Cut(terminal, line, i + n, "")
  }

  /** What is left to see without the escape sequences. */
  function Visible(s: string): string
    decreases |s|
  {
    if s == "" then ""
    else if EscapeLength(s) > 0 then Visible(s[EscapeLength(s)..])
    else [s[0]] + Visible(s[1..])
  }

  /** Read as text, the tokens are told apart again: no escape sequence starts inside a grapheme. */
  ghost predicate Clean(tokens: seq<Token>)
    decreases |tokens|
  {
    tokens == [] ||
    var rest := tokens[1..];
    && Clean(rest)
    && if tokens[0].Grapheme? then NoEscapeIn(tokens[0].text, Text(rest)) else IsEscape(TextOf(tokens[0]))
  }

  ghost predicate NoEscapeIn(text: string, rest: string) {
    forall k :: 0 <= k < |text| ==> EscapeLength(text[k..] + rest) == 0
  }

  /** The graphemes of the tokens. */
  function Seen(tokens: seq<Token>): string {
    if tokens == [] then "" else (if tokens[0].Grapheme? then tokens[0].text else "") + Seen(tokens[1..])
  }

  lemma {:induction false} VisibleText(text: string, rest: string)
    requires NoEscapeIn(text, rest)
    ensures Visible(text + rest) == text + Visible(rest)
    decreases |text|
  {
    hide EscapeLength;
    if text == "" {
      assert text + rest == rest;
    } else {
      assert EscapeLength(text + rest) == 0 by {
        assert text[0..] == text;
      }
      assert text == [text[0]] + text[1..];
      hide NoEscapeIn;
      NoEscapeInParts([text[0]], text[1..], rest);
      VisibleText(text[1..], rest);
      assert (text + rest)[1..] == text[1..] + rest;
    }
  }

  /** What is seen of the text of clean tokens is their graphemes. */
  lemma {:induction false} CleanIsSeen(tokens: seq<Token>)
    requires Clean(tokens)
    ensures Visible(Text(tokens)) == Seen(tokens)
    decreases |tokens|
  {
    if tokens != [] {
      var rest := tokens[1..];
      CleanIsSeen(rest);
      if tokens[0].Grapheme? {
        VisibleText(tokens[0].text, Text(rest));
      } else {
        var t := TextOf(tokens[0]);
        EscapeIsFound(t, Text(rest));
        assert (t + Text(rest))[|t|..] == Text(rest);
      }
    }
  }

  // ---------------------------------------------------------------------------------------------
  // What painting adds disturbs nothing
  // ---------------------------------------------------------------------------------------------

  lemma {:induction false} TextConcat(a: seq<Token>, b: seq<Token>)
    ensures Text(a + b) == Text(a) + Text(b)
    decreases |a|
  {
    if a == [] {
      assert a + b == b;
    } else {
      assert (a + b)[1..] == a[1..] + b;
      TextConcat(a[1..], b);
    }
  }

  predicate Added(t: Token) {
    t.On? || t.Off?
  }

  lemma {:induction false} StrippedFirst(tokens: seq<Token>)
    requires tokens != []
    ensures Stripped(tokens) == (if Added(tokens[0]) then [] else [tokens[0]]) + Stripped(tokens[1..])
    decreases |tokens|
  {
    var n := |tokens| - 1;
    if n > 0 {
      StrippedFirst(tokens[..n]);
      assert tokens[..n][1..] == tokens[1..][..n - 1];
      assert tokens[..n][0] == tokens[0] && tokens[1..][n - 1] == tokens[n];
    } else {
      assert tokens[..0] == [] && tokens[1..] == [];
    }
  }

  /** The tokens before the first one that was added. */
  function Untouched(tokens: seq<Token>): (r: seq<Token>)
    ensures r <= tokens && (|r| < |tokens| ==> Added(tokens[|r|]))
  {
    if tokens == [] || Added(tokens[0]) then [] else [tokens[0]] + Untouched(tokens[1..])
  }

  lemma {:induction false} UntouchedStays(tokens: seq<Token>)
    ensures Untouched(tokens) <= Stripped(tokens)
    decreases |tokens|
  {
    if tokens != [] {
      StrippedFirst(tokens);
      UntouchedStays(tokens[1..]);
    }
  }

  lemma TextOfPrefix(a: seq<Token>, b: seq<Token>)
    requires a <= b
    ensures Text(b) == Text(a) + Text(b[|a|..])
  {
    assert b == a + b[|a|..];
    TextConcat(a, b[|a|..]);
  }

  lemma AddedStarts(tokens: seq<Token>)
    requires tokens != [] && Added(tokens[0])
    ensures |Text(tokens)| >= 2 && Text(tokens)[0] == ESC && Text(tokens)[1] == '['
  {
    assert Text(tokens) == TextOf(tokens[0]) + Text(tokens[1..]);
  }

  /** An escape sequence in the painted text was there before. */
  lemma NoNewEscape(a: string, tokens: seq<Token>)
    requires a != "" && EscapeLength(a + Text(Stripped(tokens))) == 0
    ensures EscapeLength(a + Text(tokens)) == 0
  {
    hide *;
    var s, before := a + Text(tokens), a + Text(Stripped(tokens));
    var n := EscapeLength(s);
    if n > 0 {
      FoundIsEscape(s);
      var u := Untouched(tokens);
      UntouchedStays(tokens);
      TextOfPrefix(u, tokens);
      TextOfPrefix(u, Stripped(tokens));
      var head, tail := a + Text(u), Text(tokens[|u|..]);
      assert s == head + tail;
      if |u| < |tokens| {
        AddedStarts(tokens[|u|..]);
      } else {
        assert tokens[|u|..] == [];
        NoText();
      }
      InsideUntouched(head, tail, n);
      assert before == head + Text(Stripped(tokens)[|u|..]);
      assert before == s[..n] + before[n..];
      EscapeIsFound(s[..n], before[n..]);
    }
  }

  lemma NoText()
    ensures Text([]) == ""
  {
  }

  lemma InsideUntouched(head: string, tail: string, n: nat)
    requires 0 < n <= |head + tail| && IsEscape((head + tail)[..n]) && head != ""
    requires tail == "" || (|tail| >= 2 && tail[0] == ESC && tail[1] == '[')
    ensures n <= |head|
  {
    var t, q := (head + tail)[..n], |head|;
    if q < n {
      assert t[q] == tail[0] && (q + 1 < n ==> t[q + 1] == tail[1]);
      NoControlInside(t, q);
    }
  }

  /** Painted tokens are told apart if those of the line are. */
  lemma {:induction false} PaintedIsClean(tokens: seq<Token>)
    requires Clean(Stripped(tokens))
    ensures Clean(tokens) && Seen(tokens) == Seen(Stripped(tokens))
    decreases |tokens|
  {
    if tokens != [] {
      var t, rest := tokens[0], tokens[1..];
      StrippedFirst(tokens);
      if Added(t) {
        assert [] + Stripped(rest) == Stripped(rest);
        AddedIsEscape();
      } else {
        assert ([t] + Stripped(rest))[1..] == Stripped(rest);
      }
      PaintedIsClean(rest);
      if t.Grapheme? {
        forall k | 0 <= k < |t.text|
          ensures EscapeLength(t.text[k..] + Text(rest)) == 0
        {
          NoNewEscape(t.text[k..], rest);
        }
      }
    }
  }

  lemma AddedIsEscape()
    ensures IsEscape(TextOf(On)) && IsEscape(TextOf(Off))
  {
    assert IsControl(TextOf(On));
    assert IsControl(TextOf(Off));
  }

  /** What holds of a text holds of its end, and of its beginning with the rest behind. */
  lemma NoEscapeInParts(a: string, b: string, rest: string)
    requires NoEscapeIn(a + b, rest)
    ensures NoEscapeIn(b, rest) && NoEscapeIn(a, b + rest)
  {
    hide EscapeLength;
    forall k | 0 <= k < |b|
      ensures EscapeLength(b[k..] + rest) == 0
    {
      assert (a + b)[|a| + k..] == b[k..];
    }
    forall k | 0 <= k < |a|
      ensures EscapeLength(a[k..] + (b + rest)) == 0
    {
      assert (a + b)[k..] + rest == a[k..] + (b + rest);
    }
  }

  lemma {:induction false} GraphemesAreClean(graphemes: seq<Token>, rest: seq<Token>)
    requires Clean(rest) && (forall t :: t in graphemes ==> t.Grapheme?) && NoEscapeIn(Text(graphemes), Text(rest))
    ensures Clean(graphemes + rest)
    decreases |graphemes|
  {
    if graphemes == [] {
      assert graphemes + rest == rest;
    } else {
      var g, more := graphemes[0], graphemes[1..];
      assert (graphemes + rest)[1..] == more + rest && (graphemes + rest)[0] == g;
      hide NoEscapeIn;
      NoEscapeInParts(g.text, Text(more), Text(rest));
      TextConcat(more, rest);
      GraphemesAreClean(more, rest);
    }
  }

  /** The tokens of a line are the line, and told apart. */
  lemma {:induction false} CutIsClean(terminal: Terminal, line: string, i: nat, plain: string)
    requires Segments(terminal) && |plain| <= i <= |line| && line[i - |plain|..i] == plain
    requires forall k :: i - |plain| <= k < i ==> EscapeLength(line[k..]) == 0
    ensures var tokens := Cut(terminal, line, i, plain); Text(tokens) == line[i - |plain|..] && Clean(tokens)
    decreases |line| - i
  {
    hide EscapeLength, Segments, NoEscapeIn, IsEscape, Clean, Text, EscapeOf;
    var start, n := i - |plain|, EscapeLength(line[i..]);
    if i == |line| {
      PlainIsClean(line, start, i, plain, "");
      CleanEnd(terminal, plain);
    } else if n == 0 {
      assert line[start..i + 1] == plain + [line[i]];
      CutIsClean(terminal, line, i + 1, plain + [line[i]]);
    } else {
      EscapeAt(line, i);
      CutIsClean(terminal, line, i + n, "");
      PlainIsClean(line, start, i, plain, line[i..]);
      CleanStep(terminal, plain, line[i..i + n], Cut(terminal, line, i + n, ""), line[i + n..]);
      assert plain + line[i..] == line[start..];
    }
  }

  lemma EscapeAt(line: string, i: nat)
    requires i < |line| && EscapeLength(line[i..]) > 0
    ensures var n := EscapeLength(line[i..]);
      IsEscape(line[i..i + n]) && line[i..i + n] + line[i + n..] == line[i..]
  {
    FoundIsEscape(line[i..]);
    hide EscapeLength, IsEscape;
    var n := EscapeLength(line[i..]);
    assert line[i..][..n] == line[i..i + n];
  }

  lemma CleanEnd(terminal: Terminal, plain: string)
    requires Segments(terminal) && NoEscapeIn(plain, "")
    ensures Text(terminal.graphemes(plain)) == plain && Clean(terminal.graphemes(plain))
  {
    var none: seq<Token> := [];
    GraphemesAre(terminal, plain);
    assert Text(none) == "" && Clean(none);
    hide NoEscapeIn, Clean;
    GraphemesAreClean(terminal.graphemes(plain), none);
    assert terminal.graphemes(plain) + none == terminal.graphemes(plain);
  }

  lemma CleanStep(terminal: Terminal, plain: string, escape: string, rest: seq<Token>, text: string)
    requires Segments(terminal) && IsEscape(escape) && Clean(rest) && Text(rest) == text && NoEscapeIn(plain, escape + text)
    ensures var tokens := terminal.graphemes(plain) + [EscapeOf(terminal, escape)] + rest;
      Text(tokens) == plain + (escape + text) && Clean(tokens)
  {
    var behind := [EscapeOf(terminal, escape)] + rest;
    assert behind[1..] == rest && Text(behind) == escape + text && Clean(behind);
    GraphemesAre(terminal, plain);
    hide NoEscapeIn, Clean, Text, EscapeOf;
    GraphemesAreClean(terminal.graphemes(plain), behind);
    TextConcat(terminal.graphemes(plain), behind);
    assert terminal.graphemes(plain) + [EscapeOf(terminal, escape)] + rest == terminal.graphemes(plain) + behind;
  }

  lemma PlainIsClean(line: string, start: nat, i: nat, plain: string, rest: string)
    requires start <= i <= |line| && line[start..i] == plain && rest == line[i..]
    requires forall k :: start <= k < i ==> EscapeLength(line[k..]) == 0
    ensures NoEscapeIn(plain, rest)
  {
    hide EscapeLength;
    forall k | 0 <= k < |plain|
      ensures EscapeLength(plain[k..] + rest) == 0
    {
      assert plain[k..] + rest == line[start + k..];
    }
  }

  // ---------------------------------------------------------------------------------------------
  // The result read back as text
  // ---------------------------------------------------------------------------------------------

  /** Reverse video behind an escape sequence. */
  function Turned(terminal: Terminal, escape: string, reversed: bool): bool {
    if !IsStyle(escape) then reversed
    else match terminal.effect(escape)
      case Keep => reversed
      case Set => true
      case Clear => false
  }

  /** The characters that are seen, each with whether it is in reverse video. */
  function Look(terminal: Terminal, s: string, reversed: bool): seq<(char, bool)>
    decreases |s|
  {
    if s == "" then [] else
      var n := EscapeLength(s);
      if n > 0 then Look(terminal, s[n..], Turned(terminal, s[..n], reversed))
      else [(s[0], reversed)] + Look(terminal, s[1..], reversed)
  }

  /** Whether reverse video is on behind the text. */
  function LeftOn(terminal: Terminal, s: string, reversed: bool): bool
    decreases |s|
  {
    if s == "" then reversed else
      var n := EscapeLength(s);
      if n > 0 then LeftOn(terminal, s[n..], Turned(terminal, s[..n], reversed)) else LeftOn(terminal, s[1..], reversed)
  }

  /** SGR 7 switches reverse video on and SGR 27 off. */
  predicate Standard(terminal: Terminal) {
    terminal.effect("\U{1b}[7m") == Set && terminal.effect("\U{1b}[27m") == Clear
  }

  /** Escape tokens are what cutting makes of them. */
  ghost predicate FromText(terminal: Terminal, tokens: seq<Token>) {
    forall t :: t in tokens && t.Escape? ==> t == EscapeOf(terminal, t.text)
  }

  function Marked(text: string, reversed: bool): seq<(char, bool)> {
    seq(|text|, i requires 0 <= i < |text| => (text[i], reversed))
  }

  function After(t: Token, reversed: bool): bool {
    match t
    case Grapheme(_, _) => reversed
    case Escape(_, _, effect) => effect == Set || (effect == Keep && reversed)
    case On => true
    case Off => false
  }

  /** The graphemes of the tokens, character by character, and whether they are in reverse video. */
  function Looks(tokens: seq<Token>, reversed: bool): seq<(char, bool)> {
    if tokens == [] then []
    else (if tokens[0].Grapheme? then Marked(tokens[0].text, reversed) else []) + Looks(tokens[1..], After(tokens[0], reversed))
  }

  function EndsOn(tokens: seq<Token>, reversed: bool): bool {
    if tokens == [] then reversed else EndsOn(tokens[1..], After(tokens[0], reversed))
  }

  lemma {:induction false} LookAtText(terminal: Terminal, text: string, rest: string, reversed: bool)
    requires NoEscapeIn(text, rest)
    ensures Look(terminal, text + rest, reversed) == Marked(text, reversed) + Look(terminal, rest, reversed)
    ensures LeftOn(terminal, text + rest, reversed) == LeftOn(terminal, rest, reversed)
    decreases |text|
  {
    hide EscapeLength, Turned;
    if text == "" {
      assert text + rest == rest;
      assert Marked(text, reversed) == [];
    } else {
      assert EscapeLength(text + rest) == 0 by {
        assert text[0..] == text;
      }
      assert text == [text[0]] + text[1..];
      hide NoEscapeIn;
      NoEscapeInParts([text[0]], text[1..], rest);
      LookAtText(terminal, text[1..], rest, reversed);
      assert (text + rest)[1..] == text[1..] + rest;
      MarkedFirst(text, reversed, Look(terminal, rest, reversed));
    }
  }

  lemma MarkedFirst(text: string, reversed: bool, rest: seq<(char, bool)>)
    requires text != ""
    ensures [(text[0], reversed)] + (Marked(text[1..], reversed) + rest) == Marked(text, reversed) + rest
  {
  }

  lemma TurnedIsAfter(terminal: Terminal, t: Token, reversed: bool)
    requires Standard(terminal) && !t.Grapheme? && (t.Escape? ==> t == EscapeOf(terminal, t.text))
    ensures Turned(terminal, TextOf(t), reversed) == After(t, reversed)
  {
    assert IsStyle(TextOf(On)) && IsStyle(TextOf(Off));
    assert TextOf(On) == "\U{1b}[7m" && TextOf(Off) == "\U{1b}[27m";
  }

  lemma LookAtEscape(terminal: Terminal, escape: string, rest: string, reversed: bool)
    requires IsEscape(escape)
    ensures Look(terminal, escape + rest, reversed) == Look(terminal, rest, Turned(terminal, escape, reversed))
    ensures LeftOn(terminal, escape + rest, reversed) == LeftOn(terminal, rest, Turned(terminal, escape, reversed))
  {
    EscapeIsFound(escape, rest);
    hide EscapeLength, IsEscape, Turned;
    assert (escape + rest)[|escape|..] == rest && (escape + rest)[..|escape|] == escape;
  }

  /** Read as text, clean tokens look as they say. */
  lemma {:induction false} CleanLooks(terminal: Terminal, tokens: seq<Token>, reversed: bool)
    requires Clean(tokens) && FromText(terminal, tokens) && Standard(terminal)
    ensures Look(terminal, Text(tokens), reversed) == Looks(tokens, reversed)
    ensures LeftOn(terminal, Text(tokens), reversed) == EndsOn(tokens, reversed)
    decreases |tokens|
  {
    hide EscapeLength, IsEscape, NoEscapeIn, Turned, Standard, EscapeOf, Marked, Look, LeftOn, After;
    if tokens == [] {
      LookAtNothing(terminal, reversed);
    } else {
      var t, rest := tokens[0], tokens[1..];
      assert FromText(terminal, rest);
      CleanLooks(terminal, rest, After(t, reversed));
      if t.Grapheme? {
        LookAtText(terminal, t.text, Text(rest), reversed);
        AfterGrapheme(t, reversed);
      } else {
        LookAtEscape(terminal, TextOf(t), Text(rest), reversed);
        TurnedIsAfter(terminal, t, reversed);
        NothingInFront(Looks(rest, After(t, reversed)));
      }
    }
  }

  lemma LookAtNothing(terminal: Terminal, reversed: bool)
    ensures Look(terminal, "", reversed) == [] && LeftOn(terminal, "", reversed) == reversed
  {
  }

  lemma AfterGrapheme(t: Token, reversed: bool)
    requires t.Grapheme?
    ensures After(t, reversed) == reversed
  {
  }

  lemma Joined3<T>(a: seq<T>, b: seq<T>, c: seq<T>)
    ensures a + (b + c) == a + b + c
  {
  }

  lemma NothingInFront<T>(rest: seq<T>)
    ensures [] + rest == rest
  {
  }

  lemma {:induction false} LooksConcat(a: seq<Token>, b: seq<Token>, reversed: bool)
    ensures Looks(a + b, reversed) == Looks(a, reversed) + Looks(b, EndsOn(a, reversed))
    ensures EndsOn(a + b, reversed) == EndsOn(b, EndsOn(a, reversed))
    decreases |a|
  {
    hide After, Marked;
    if a == [] {
      assert a + b == b;
    } else {
      assert (a + b)[1..] == a[1..] + b && (a + b)[0] == a[0];
      LooksConcat(a[1..], b, After(a[0], reversed));
      var first := if a[0].Grapheme? then Marked(a[0].text, reversed) else [];
      Joined3(first, Looks(a[1..], After(a[0], reversed)), Looks(b, EndsOn(a, reversed)));
    }
  }

  /** Reading from the front and from the back agree. */
  lemma {:induction false} EndsReversed(out: seq<Token>)
    ensures EndsOn(out, false) == Reversed(out) && |Looks(out, false)| == |Seen(out)|
    decreases |out|
  {
    if out != [] {
      var n := |out| - 1;
      EndsReversed(out[..n]);
      assert out == out[..n] + [out[n]] && [out[n]][1..] == [];
      LooksConcat(out[..n], [out[n]], false);
      SeenConcat(out[..n], [out[n]]);
      assert EndsOn([out[n]], EndsOn(out[..n], false)) == After(out[n], EndsOn(out[..n], false));
    }
  }

  lemma {:induction false} SeenConcat(a: seq<Token>, b: seq<Token>)
    ensures Seen(a + b) == Seen(a) + Seen(b)
    decreases |a|
  {
    if a == [] {
      assert a + b == b;
    } else {
      assert (a + b)[1..] == a[1..] + b && (a + b)[0] == a[0];
      SeenConcat(a[1..], b);
    }
  }

  /** Where a grapheme is among the characters that are seen, and how it looks there. */
  lemma LooksAt(out: seq<Token>, k: nat)
    requires k < |out| && out[k].Grapheme?
    ensures var p, look := |Seen(out[..k])|, Looks(out, false);
      p + |out[k].text| <= |look| && look[p..p + |out[k].text|] == Marked(out[k].text, Reversed(out[..k]))
  {
    var before, behind := out[..k], out[k + 1..];
    assert out == before + ([out[k]] + behind);
    assert ([out[k]] + behind)[1..] == behind;
    LooksConcat(before, [out[k]] + behind, false);
    EndsReversed(before);
  }

  /** What is added changes neither the columns nor what is seen. */
  lemma {:induction false} StrippedSame(out: seq<Token>)
    ensures Column(Stripped(out)) == Column(out) && Seen(Stripped(out)) == Seen(out) && (NeverSets(Stripped(out)) <==> NeverSets(out))
    decreases |out|
  {
    if out != [] {
      var n := |out| - 1;
      var before, t := out[..n], out[n];
      StrippedSame(before);
      assert out == before + [t];
      Appended(before, t);
      Appended(Stripped(before), t);
      SeenConcat(before, [t]);
      SeenConcat(Stripped(before), [t]);
      assert Seen([t]) == if t.Grapheme? then t.text else "";
      NeverSetsAppended(before, t);
      NeverSetsAppended(Stripped(before), t);
    }
  }

  /** Every token of the line is in the output, with the same tokens of the line before it. */
  lemma {:induction false} PlaceOf(out: seq<Token>, k: nat) returns (j: nat)
    requires k < |Stripped(out)|
    ensures j < |out| && out[j] == Stripped(out)[k] && Stripped(out[..j]) == Stripped(out)[..k]
    decreases |out|
  {
    var n := |out| - 1;
    if k < |Stripped(out[..n])| {
      j := PlaceOf(out[..n], k);
      assert out[..n][..j] == out[..j];
      assert Stripped(out)[..k] == Stripped(out[..n])[..k];
    } else {
      j := n;
    }
  }

  /**
   How the painted text looks to a reader who knows only escape sequences. `tokens` is the line cut up. A grapheme that
   starts in the columns is in reverse video; one before them looks as in the line; and one outside of them is not in
   reverse video unless the line itself has set it, and neither is what follows.
   */
  ghost predicate LooksPainted(terminal: Terminal, line: string, result: string, from: int, to: int) {
    var tokens, look, plain := Cut(terminal, line, 0, ""), Look(terminal, result, false), Look(terminal, line, false);
    && |look| == |plain| == |Seen(tokens)|
    && (forall k :: 0 <= k < |tokens| && tokens[k].Grapheme? ==>
          GraphemePainted(look, plain, |Seen(tokens[..k])|, tokens[k].text, Column(tokens[..k]), NeverSets(tokens[..k]), from, to))
    && (NeverSets(tokens) ==> !LeftOn(terminal, result, false))
  }

  /** The grapheme `text` of `column`, whose first character is the one at `p` among those that are seen. */
  ghost predicate GraphemePainted(look: seq<(char, bool)>, plain: seq<(char, bool)>, p: nat, text: string, column: nat,
                                  neverSet: bool, from: int, to: int)
  {
    && p + |text| <= |look| && p + |text| <= |plain|
    && forall i :: 0 <= i < |text| ==>
      && look[p + i].0 == text[i]
      && (from <= column < to ==> look[p + i].1)
      && (column < from ==> look[p + i].1 == plain[p + i].1)
      && (!(from <= column < to) && neverSet ==> !look[p + i].1)
  }

  lemma GraphemeLooks(out: seq<Token>, k: nat, from: int, to: int)
    requires Painted(out, from, to) && k < |Stripped(out)| && Stripped(out)[k].Grapheme?
    ensures var tokens := Stripped(out);
      GraphemePainted(Looks(out, false), Looks(tokens, false), |Seen(tokens[..k])|, tokens[k].text,
                      Column(tokens[..k]), NeverSets(tokens[..k]), from, to)
  {
    hide *;
    var tokens := Stripped(out);
    var j := PlaceOf(out, k);
    LooksAt(out, j);
    LooksAt(tokens, k);
    ShownAt(out, j, from, to);
    GraphemePaintedIs(Looks(out, false), Looks(tokens, false), |Seen(tokens[..k])|, tokens[k].text, Column(tokens[..k]),
                      NeverSets(tokens[..k]), from, to, Reversed(out[..j]), Reversed(tokens[..k]));
  }

  /** What painting says of a token, told by the tokens of the line before it. */
  lemma ShownAt(out: seq<Token>, j: nat, from: int, to: int)
    requires Painted(out, from, to) && j < |out| && out[j].Grapheme?
    ensures var before, column := Stripped(out[..j]), Column(Stripped(out[..j]));
      && Seen(before) == Seen(out[..j])
      && (from <= column < to ==> Reversed(out[..j]))
      && (column < from ==> Reversed(out[..j]) == Reversed(before))
      && (!(from <= column < to) && NeverSets(before) ==> !Reversed(out[..j]))
  {
    assert Shown(out[..j], from, to);
    hide Stripped, Column, Seen, NeverSets, Reversed, Painted;
    StrippedSame(out[..j]);
  }

  lemma GraphemePaintedIs(look: seq<(char, bool)>, plain: seq<(char, bool)>, p: nat, text: string, column: nat,
                          neverSet: bool, from: int, to: int, reversed: bool, before: bool)
    requires p + |text| <= |look| && look[p..p + |text|] == Marked(text, reversed)
    requires p + |text| <= |plain| && plain[p..p + |text|] == Marked(text, before)
    requires (from <= column < to ==> reversed) && (column < from ==> reversed == before)
    requires !(from <= column < to) && neverSet ==> !reversed
    ensures GraphemePainted(look, plain, p, text, column, neverSet, from, to)
  {
    forall i | 0 <= i < |text|
      ensures look[p + i] == (text[i], reversed) && plain[p + i] == (text[i], before)
    {
      assert look[p..p + |text|][i] == Marked(text, reversed)[i] && plain[p..p + |text|][i] == Marked(text, before)[i];
    }
  }

  lemma {:induction false} CutFromText(terminal: Terminal, line: string, i: nat, plain: string)
    requires Segments(terminal) && i <= |line|
    ensures FromText(terminal, Cut(terminal, line, i, plain))
    decreases |line| - i
  {
    hide EscapeLength, Segments, FromText, EscapeOf;
    GraphemesFromText(terminal, plain);
    if i < |line| {
      var n := EscapeLength(line[i..]);
      if n == 0 {
        CutFromText(terminal, line, i + 1, plain + [line[i]]);
      } else {
        CutFromText(terminal, line, i + n, "");
        FromTextJoined(terminal, terminal.graphemes(plain), line[i..i + n], Cut(terminal, line, i + n, ""));
      }
    }
  }

  lemma GraphemesFromText(terminal: Terminal, plain: string)
    requires Segments(terminal)
    ensures FromText(terminal, terminal.graphemes(plain))
  {
    GraphemesAre(terminal, plain);
  }

  lemma FromTextJoined(terminal: Terminal, graphemes: seq<Token>, escape: string, rest: seq<Token>)
    requires FromText(terminal, graphemes) && FromText(terminal, rest)
    ensures FromText(terminal, graphemes + [EscapeOf(terminal, escape)] + rest)
  {
    hide IsStyle;
  }

  lemma {:induction false} StrippedFromText(terminal: Terminal, out: seq<Token>)
    requires FromText(terminal, Stripped(out))
    ensures FromText(terminal, out)
    decreases |out|
  {
    if out != [] {
      var n := |out| - 1;
      var t := out[n];
      assert out == out[..n] + [t];
      hide EscapeOf;
      assert FromText(terminal, Stripped(out[..n])) && (t.Escape? ==> t in Stripped(out));
      StrippedFromText(terminal, out[..n]);
    }
  }

  lemma LooksAsPainted(terminal: Terminal, line: string, out: seq<Token>, from: int, to: int)
    requires Segments(terminal) && Standard(terminal) && Stripped(out) == Cut(terminal, line, 0, "")
    requires Painted(out, from, to) && (NeverSets(out) ==> !Reversed(out))
    ensures LooksPainted(terminal, line, Text(out), from, to)
  {
    hide *;
    var tokens := Stripped(out);
    LineIsClean(terminal, line);
    PaintedIsClean(out);
    CutFromText(terminal, line, 0, "");
    StrippedFromText(terminal, out);
    CleanLooks(terminal, out, false);
    CleanLooks(terminal, tokens, false);
    EndsReversed(out);
    EndsReversed(tokens);
    StrippedSame(out);
    forall k | 0 <= k < |tokens| && tokens[k].Grapheme?
      ensures GraphemePainted(Looks(out, false), Looks(tokens, false), |Seen(tokens[..k])|, tokens[k].text,
                              Column(tokens[..k]), NeverSets(tokens[..k]), from, to)
    {
      GraphemeLooks(out, k, from, to);
    }
    LooksPaintedIs(terminal, line, Text(out), from, to, Looks(out, false), Looks(tokens, false));
  }

  lemma LooksPaintedIs(terminal: Terminal, line: string, result: string, from: int, to: int,
                       look: seq<(char, bool)>, plain: seq<(char, bool)>)
    requires look == Look(terminal, result, false) && plain == Look(terminal, line, false)
    requires |look| == |plain| == |Seen(Cut(terminal, line, 0, ""))|
    requires var tokens := Cut(terminal, line, 0, "");
      forall k :: 0 <= k < |tokens| && tokens[k].Grapheme? ==>
        GraphemePainted(look, plain, |Seen(tokens[..k])|, tokens[k].text, Column(tokens[..k]), NeverSets(tokens[..k]), from, to)
    requires NeverSets(Cut(terminal, line, 0, "")) ==> !LeftOn(terminal, result, false)
    ensures LooksPainted(terminal, line, result, from, to)
  {
    hide GraphemePainted, Cut, Look, LeftOn, Seen, Column, NeverSets;
  }

  // ---------------------------------------------------------------------------------------------
  // The scan
  // ---------------------------------------------------------------------------------------------

  /**
   `paintColumns`, with the tokens it puts out. Main result: the tokens without what was added are the line; what is seen
   of the result, its escape sequences taken away, is what is seen of the line; every grapheme that starts in the columns
   is in reverse video, whatever style sequences are in between; and what is outside is not reversed by it, nor is what
   follows the line. This is said of the tokens, and again of the text that is returned, read back by a terminal to which
   SGR 7 and 27 mean what they do.
   */
  method PaintColumns(terminal: Terminal, line: string, from: int, to: int) returns (result: string, ghost out: seq<Token>)
    requires Segments(terminal)
    ensures result == Text(out) && Stripped(out) == Cut(terminal, line, 0, "") && Text(Stripped(out)) == line
    ensures Visible(result) == Visible(line)
    ensures Painted(out, from, to)
    ensures NeverSets(out) ==> !Reversed(out)
    ensures Standard(terminal) ==> LooksPainted(terminal, line, result, from, to)
  {
    hide *;
    var painter := new Painter(from, to);
    var plain := "";
    var index := 0;
    AllIsLeft(terminal, line, painter.out);
    while index < |line|
      invariant fresh(painter) && painter.Valid() && painter.from == from && painter.to == to
      invariant index <= |line| && LeftToCut(terminal, line, index, plain, Stripped(painter.out))
    {
      var n := EscapeLength(line[index..]);
      Passed(terminal, line, index, plain, Stripped(painter.out));
      if n == 0 {
        plain := plain + [line[index]];
        index := index + 1;
        continue;
      }
      var segments, escape := terminal.graphemes(plain), EscapeOf(terminal, line[index..index + n]);
      GraphemesAre(terminal, plain);
      EscapeIsInput(terminal, line[index..index + n]);
      painter.Flush(segments);
      plain := "";
      painter.PassEscape(escape);
      index := index + n;
    }
    CutEnd(terminal, line, plain, Stripped(painter.out));
    GraphemesAre(terminal, plain);
    painter.Flush(terminal.graphemes(plain));
    painter.Close();
    out := painter.out;
    result := Text(painter.out);
    SeenAsBefore(terminal, line, out);
    if Standard(terminal) {
      LooksAsPainted(terminal, line, out, from, to);
    }
  }

  lemma SeenAsBefore(terminal: Terminal, line: string, out: seq<Token>)
    requires Segments(terminal) && Stripped(out) == Cut(terminal, line, 0, "")
    ensures Text(Stripped(out)) == line && Visible(Text(out)) == Visible(line)
  {
    hide *;
    LineIsClean(terminal, line);
    PaintedIsClean(out);
    CleanIsSeen(out);
    CleanIsSeen(Stripped(out));
  }

  lemma LineIsClean(terminal: Terminal, line: string)
    requires Segments(terminal)
    ensures Text(Cut(terminal, line, 0, "")) == line && Clean(Cut(terminal, line, 0, ""))
  {
    hide *;
    var none := "";
    assert line[0..0] == none && line[0..] == line;
    CutIsClean(terminal, line, 0, none);
  }

  /** What was put out and what is still to be cut are the tokens of the line. */
  ghost predicate LeftToCut(terminal: Terminal, line: string, i: nat, plain: string, before: seq<Token>)
    requires i <= |line|
  {
    before + Cut(terminal, line, i, plain) == Cut(terminal, line, 0, "")
  }

  lemma AllIsLeft(terminal: Terminal, line: string, out: seq<Token>)
    requires out == []
    ensures LeftToCut(terminal, line, 0, "", Stripped(out))
  {
  }

  /** One turn of the scan. */
  lemma Passed(terminal: Terminal, line: string, i: nat, plain: string, before: seq<Token>)
    requires i < |line| && LeftToCut(terminal, line, i, plain, before)
    ensures var n := EscapeLength(line[i..]);
      if n == 0 then LeftToCut(terminal, line, i + 1, plain + [line[i]], before)
      else LeftToCut(terminal, line, i + n, "", before + terminal.graphemes(plain) + [EscapeOf(terminal, line[i..i + n])])
  {
    hide EscapeLength, EscapeOf;
    var n := EscapeLength(line[i..]);
    if n > 0 {
      Regroup(before, terminal.graphemes(plain), [EscapeOf(terminal, line[i..i + n])], Cut(terminal, line, i + n, ""));
    }
  }

  lemma CutEnd(terminal: Terminal, line: string, plain: string, before: seq<Token>)
    requires LeftToCut(terminal, line, |line|, plain, before)
    ensures before + terminal.graphemes(plain) == Cut(terminal, line, 0, "")
  {
  }

  lemma Regroup(before: seq<Token>, graphemes: seq<Token>, escape: seq<Token>, rest: seq<Token>)
    ensures before + (graphemes + escape + rest) == before + graphemes + escape + rest
  {
  }

  lemma GraphemesAre(terminal: Terminal, plain: string)
    requires Segments(terminal)
    ensures (forall t :: t in terminal.graphemes(plain) ==> t.Grapheme?) && Text(terminal.graphemes(plain)) == plain
  {
    assert Text(terminal.graphemes(plain)) == plain;
  }

  lemma EscapeIsInput(terminal: Terminal, text: string)
    ensures EscapeOf(terminal, text).Escape? && IsInput(EscapeOf(terminal, text))
  {
  }
}
