/**
 Keeping text that comes from elsewhere out of the block tags of the prompt. Every such tag, with any white space, slash or
 letter case, is written with `&lt;` and `&gt;` instead of its brackets; the text of the Connections keeps its own outer tag.
 */
module Prompt {
  import opened Wrappers
  import opened Strings

  /** The letters that the flag `i` puts on a par are those of ASCII. */
  function Lower(c: char): char {
    if 'A' <= c <= 'Z' then (c as int + 32) as char else c
  }

  /** Letters of either case and underscores. */
  predicate IsLetter(c: char) {
    'a' <= Lower(c) <= 'z' || c == '_'
  }

  /** Capital letters are on a par with small ones, and every other character with itself. */
  lemma LowerIs(k: nat, c: char)
    requires k < 26
    ensures Lower(CAPITALS[k]) == SMALL[k]
    ensures c !in CAPITALS ==> Lower(c) == c
  {
    CapitalsAre(c);
  }

  const NAMES := ["cloudthinker", "memory_index", "user_notes", "connections_context"]

  /** The name stands at `from`, in any letter case. */
  predicate NameStands(s: string, from: nat, name: string) {
    from + |name| <= |s| && forall k :: 0 <= k < |name| ==> Lower(s[from + k]) == name[k]
  }

  predicate IsName(s: string, from: nat, to: nat) {
    exists n :: 0 <= n < |NAMES| && NameStands(s, from, NAMES[n]) && to == from + |NAMES[n]|
  }

  predicate Spaces(s: string, from: nat, to: nat) {
    from <= to <= |s| && forall k :: from <= k < to ==> IsSpace(s[k])
  }

  /**
   A tag from `i` to `e`: a bracket, white space up to `a`, perhaps a slash, white space from `b` to `c`, a name up to `d`,
   white space and a bracket.
   */
  predicate IsTagWith(s: string, i: nat, a: nat, b: nat, c: nat, d: nat, e: nat) {
    && i < |s| && s[i] == '<'
    && Spaces(s, i + 1, a)
    && (b == a || (b == a + 1 && a < |s| && s[a] == '/'))
    && Spaces(s, b, c)
    && IsName(s, c, d)
    && d < e <= |s| && Spaces(s, d, e - 1) && s[e - 1] == '>'
  }

  ghost predicate IsTag(s: string, i: nat, e: nat) {
    exists a: nat, b: nat, c: nat, d: nat :: IsTagWith(s, i, a, b, c, d, e)
  }

  ghost predicate HasTag(s: string) {
    exists i: nat, e: nat :: IsTag(s, i, e)
  }

  /** The word, in any letter case. */
  ghost predicate Spells(name: string, word: string) {
    |name| == |word| && forall k :: 0 <= k < |name| ==> Lower(name[k]) == word[k]
  }

  ghost predicate NamesOne(name: string) {
    || Spells(name, "cloudthinker") || Spells(name, "memory_index")
    || Spells(name, "user_notes") || Spells(name, "connections_context")
  }

  ghost predicate Written(tag: string) {
    exists before, slash, between, name, behind :: WrittenWith(tag, before, slash, between, name, behind)
  }

  ghost predicate WrittenWith(tag: string, before: string, slash: string, between: string, name: string, behind: string) {
    && tag == "<" + before + slash + between + name + behind + ">"
    && Blank(before) && (slash == "" || slash == "/") && Blank(between) && NamesOne(name) && Blank(behind)
  }

  /** The tags written out. */
  lemma TagsAre(s: string, i: nat, e: nat)
    requires i <= e <= |s|
    ensures IsTag(s, i, e) <==> Written(s[i..e])
  {
    hide IsTagWith, WrittenWith;
    if IsTag(s, i, e) {
      var a: nat, b: nat, c: nat, d: nat :| IsTagWith(s, i, a, b, c, d, e);
      TagIsWritten(s, i, a, b, c, d, e);
    }
    if Written(s[i..e]) {
      var before, slash, between, name, behind :| WrittenWith(s[i..e], before, slash, between, name, behind);
      WrittenIsTag(s, i, e, before, slash, between, name, behind);
    }
  }

  lemma NamesAre(s: string, from: nat, end: nat)
    requires from <= end <= |s|
    ensures IsName(s, from, end) <==> NamesOne(s[from..end])
  {
    assert |NAMES| == 4 && NAMES[0] == "cloudthinker" && NAMES[1] == "memory_index";
    assert NAMES[2] == "user_notes" && NAMES[3] == "connections_context";
    var name := s[from..end];
    hide NAMES;
    forall n | 0 <= n < 4
      ensures NameStands(s, from, NAMES[n]) && end == from + |NAMES[n]| <==> Spells(name, NAMES[n])
    {
      assert forall k :: 0 <= k < |name| ==> name[k] == s[from + k];
    }
    hide Spells, NameStands;
    assert NamesOne(name) <==> exists n :: 0 <= n < 4 && Spells(name, NAMES[n]);
  }

  lemma NameStandsThere(s: string, from: nat, end: nat)
    requires IsName(s, from, end)
    ensures from <= end <= |s|
  {
  }

  lemma TagIsWritten(s: string, i: nat, a: nat, b: nat, c: nat, d: nat, e: nat)
    requires e <= |s| && IsTagWith(s, i, a, b, c, d, e)
    ensures i <= e && Written(s[i..e])
  {
    NameStandsThere(s, c, d);
    NamesAre(s, c, d);
    hide IsName, NamesOne, Written, IsSpace;
    assert s[i..e] == "<" + s[i + 1..a] + s[a..b] + s[b..c] + s[c..d] + s[d..e - 1] + ">";
    assert WrittenWith(s[i..e], s[i + 1..a], s[a..b], s[b..c], s[c..d], s[d..e - 1]);
    TagFound(s[i..e], s[i + 1..a], s[a..b], s[b..c], s[c..d], s[d..e - 1]);
  }

  lemma TagFound(tag: string, before: string, slash: string, between: string, name: string, behind: string)
    requires WrittenWith(tag, before, slash, between, name, behind)
    ensures Written(tag)
  {
    hide WrittenWith;
  }

  lemma WrittenIsTag(s: string, i: nat, e: nat, before: string, slash: string, between: string, name: string, behind: string)
    requires i <= e <= |s| && WrittenWith(s[i..e], before, slash, between, name, behind)
    ensures IsTag(s, i, e)
  {
    hide IsName, NamesOne, IsSpace;
    var a := i + 1 + |before|;
    var b := a + |slash|;
    var c := b + |between|;
    var d := c + |name|;
    TagParts(s[i..e], before, slash, between, name, behind);
    SliceOfSlice(s, i, e, 1, a - i);
    SliceOfSlice(s, i, e, a - i, b - i);
    SliceOfSlice(s, i, e, b - i, c - i);
    SliceOfSlice(s, i, e, c - i, d - i);
    SliceOfSlice(s, i, e, d - i, e - i - 1);
    NamesAre(s, c, d);
    assert IsTagWith(s, i, a, b, c, d, e);
  }

  lemma SliceOfSlice(s: string, i: nat, e: nat, from: nat, end: nat)
    requires i <= e <= |s| && from <= end <= e - i
    ensures s[i..e][from..end] == s[i + from..i + end]
  {
    var part, whole := s[i..e][from..end], s[i + from..i + end];
    assert |part| == |whole| && forall k :: 0 <= k < |part| ==> part[k] == s[i + from + k] == whole[k];
  }

  lemma TagParts(t: string, before: string, slash: string, between: string, name: string, behind: string)
    requires t == "<" + before + slash + between + name + behind + ">"
    ensures var a := 1 + |before|; var b := a + |slash|; var c := b + |between|; var d := c + |name|;
      && |t| == d + |behind| + 1 && t[0] == '<' && t[|t| - 1] == '>'
      && t[1..a] == before && t[a..b] == slash && t[b..c] == between && t[c..d] == name && t[d..|t| - 1] == behind
  {
  }

  // ---------------------------------------------------------------------------------------------
  // The expression /<\s*(\/?)\s*(cloudthinker|memory_index|user_notes|connections_context)\s*>/i
  // ---------------------------------------------------------------------------------------------

  function SkipSpace(s: string, from: nat): (r: nat)
    requires from <= |s|
    ensures Spaces(s, from, r) && (r < |s| ==> !IsSpace(s[r]))
    decreases |s| - from
  {
    if from < |s| && IsSpace(s[from]) then SkipSpace(s, from + 1) else from
  }

  /** The end of the name that stands at `from`, or `from` itself if there is none. */
  function NameEnd(s: string, from: nat): (r: nat)
    requires from <= |s|
    ensures from <= r <= |s|
  {
    if NameStands(s, from, NAMES[0]) then from + |NAMES[0]|
    else if NameStands(s, from, NAMES[1]) then from + |NAMES[1]|
    else if NameStands(s, from, NAMES[2]) then from + |NAMES[2]|
    else if NameStands(s, from, NAMES[3]) then from + |NAMES[3]|
    else from
  }

  /** The two groups of a match, and where it ends. */
  datatype Match = Match(end: nat, close: string, name: string)

  function MatchAt(s: string, i: nat): Option<Match> {
    if i >= |s| || s[i] != '<' then None else
      var a := SkipSpace(s, i + 1);
      var b := if a < |s| && s[a] == '/' then a + 1 else a;
      var c := SkipSpace(s, b);
      var d := NameEnd(s, c);
      var e := SkipSpace(s, d);
      if d > c && e < |s| && s[e] == '>' then Some(Match(e + 1, s[a..b], s[c..d])) else None
  }

  lemma NamesAreLetters(n: nat, k: nat)
    requires n < |NAMES| && k < |NAMES[n]|
    ensures IsLetter(NAMES[n][k]) && Lower(NAMES[n][k]) == NAMES[n][k]
  {
    if n == 0 {
      assert NAMES[0] == "cloudthinker";
    } else if n == 1 {
      assert NAMES[1] == "memory_index";
    } else if n == 2 {
      assert NAMES[2] == "user_notes";
    } else {
      assert NAMES[3] == "connections_context";
    }
  }

  lemma LettersArePlain(c: char)
    requires IsLetter(c)
    ensures !IsSpace(c) && c != '/' && c != '<' && c != '>' && c != '&'
  {
  }

  /** A name is made of letters. */
  lemma NameChars(s: string, from: nat, to: nat)
    requires IsName(s, from, to)
    ensures from < to <= |s| && forall k :: from <= k < to ==> IsLetter(s[k])
  {
    var n :| 0 <= n < |NAMES| && NameStands(s, from, NAMES[n]) && to == from + |NAMES[n]|;
    forall k | from <= k < to
      ensures IsLetter(s[k])
    {
      NamesAreLetters(n, k - from);
      assert Lower(s[from + (k - from)]) == NAMES[n][k - from];
    }
  }

  /** No name is the beginning of another one. */
  lemma NameIsDecided(s: string, from: nat, n: nat, m: nat)
    requires n < |NAMES| && m < |NAMES| && NameStands(s, from, NAMES[n]) && NameStands(s, from, NAMES[m])
    ensures n == m
  {
    assert Lower(s[from + 0]) == NAMES[n][0] == NAMES[m][0];
    assert Lower(s[from + 1]) == NAMES[n][1] == NAMES[m][1];
  }

  lemma NameEndIs(s: string, from: nat, to: nat)
    requires from <= |s| && IsName(s, from, to)
    ensures NameEnd(s, from) == to > from
  {
    var n :| 0 <= n < |NAMES| && NameStands(s, from, NAMES[n]) && to == from + |NAMES[n]|;
    hide NameStands;
    forall m: nat | m < |NAMES| && NameStands(s, from, NAMES[m])
      ensures m == n
    {
      NameIsDecided(s, from, n, m);
    }
  }

  lemma NameEndIsName(s: string, from: nat)
    requires from <= |s| && NameEnd(s, from) > from
    ensures IsName(s, from, NameEnd(s, from))
  {
    hide NameStands;
    var n := if NameStands(s, from, NAMES[0]) then 0 else if NameStands(s, from, NAMES[1]) then 1 else if NameStands(s, from, NAMES[2]) then 2 else 3;
    assert NameStands(s, from, NAMES[n]) && NameEnd(s, from) == from + |NAMES[n]|;
  }

  lemma SkipSpaceIs(s: string, from: nat, end: nat)
    requires Spaces(s, from, end) && (end < |s| ==> !IsSpace(s[end]))
    ensures SkipSpace(s, from) == end
  {
  }

  /** The brackets of a tag are its ends, and it has no ampersand. */
  lemma TagChars(s: string, i: nat, e: nat)
    requires IsTag(s, i, e)
    ensures i + 2 < e <= |s| && s[i] == '<' && s[e - 1] == '>'
    ensures forall k :: i < k < e - 1 ==> s[k] != '<' && s[k] != '>'
    ensures forall k :: i <= k < e ==> s[k] != '&'
  {
    var a: nat, b: nat, c: nat, d: nat :| IsTagWith(s, i, a, b, c, d, e);
    NameChars(s, c, d);
    hide IsName;
    forall k | i < k < e - 1
      ensures s[k] != '<' && s[k] != '>' && s[k] != '&'
    {
      if c <= k < d {
        LettersArePlain(s[k]);
      }
    }
  }

  /** What the expression finds is a tag. */
  lemma MatchIsTag(s: string, i: nat)
    requires MatchAt(s, i).Some?
    ensures var m := MatchAt(s, i).value;
      && i < m.end <= |s| && IsTag(s, i, m.end)
      && (forall c :: c in m.close ==> c == '/') && (forall c :: c in m.name ==> IsLetter(c))
  {
    hide NameEnd, SkipSpace, IsName, IsSpace;
    var a := SkipSpace(s, i + 1);
    var b := if a < |s| && s[a] == '/' then a + 1 else a;
    var c := SkipSpace(s, b);
    var d := NameEnd(s, c);
    var e := SkipSpace(s, d);
    NameEndIsName(s, c);
    NameChars(s, c, d);
    assert IsTagWith(s, i, a, b, c, d, e + 1);
    assert forall k :: 0 <= k < d - c ==> s[c..d][k] == s[c + k];
  }

  lemma MatchIs(s: string, i: nat, a: nat, b: nat, c: nat, d: nat, e: nat)
    requires i < |s| && s[i] == '<' && a == SkipSpace(s, i + 1) && b == (if a < |s| && s[a] == '/' then a + 1 else a)
    requires c == SkipSpace(s, b) && d == NameEnd(s, c) && d > c && e == SkipSpace(s, d) && e < |s| && s[e] == '>'
    ensures MatchAt(s, i) == Some(Match(e + 1, s[a..b], s[c..d]))
  {
    hide NameEnd, SkipSpace;
  }

  /** The expression finds every tag. */
  lemma MatchFindsTag(s: string, i: nat, a: nat, b: nat, c: nat, d: nat, e: nat)
    requires IsTagWith(s, i, a, b, c, d, e)
    ensures a <= b <= c <= d < |s| && MatchAt(s, i) == Some(Match(e, s[a..b], s[c..d]))
  {
    NameChars(s, c, d);
    hide IsName, IsLetter, IsSpace, MatchAt;
    if b == a {
      SpacesJoin(s, i + 1, a, c);
      MatchFindsCut(s, i, c, c, c, d, e);
      assert s[c..c] == s[a..b];
    } else {
      MatchFindsCut(s, i, a, b, c, d, e);
    }
  }

  /** The same where the first white space is as long as can be. */
  lemma MatchFindsCut(s: string, i: nat, a: nat, b: nat, c: nat, d: nat, e: nat)
    requires IsTagWith(s, i, a, b, c, d, e) && (b == a ==> a == c)
    ensures a <= b <= c <= d < |s| && MatchAt(s, i) == Some(Match(e, s[a..b], s[c..d]))
  {
    NameChars(s, c, d);
    NameEndIs(s, c, d);
    LettersArePlain(s[c]);
    BracketIsNoSpace();
    SlashIsNoSpace();
    hide NameEnd, SkipSpace, IsName, IsLetter, IsSpace, MatchAt;
    SkipSpaceIs(s, i + 1, a);
    SkipSpaceIs(s, b, c);
    SkipSpaceIs(s, d, e - 1);
    MatchIs(s, i, a, b, c, d, e - 1);
  }

  lemma SpacesJoin(s: string, from: nat, mid: nat, to: nat)
    requires Spaces(s, from, mid) && Spaces(s, mid, to)
    ensures Spaces(s, from, to) && Spaces(s, to, to)
  {
  }

  lemma SlashIsNoSpace()
    ensures !IsSpace('/')
  {
  }

  lemma BracketIsNoSpace()
    ensures !IsSpace('>') && !IsSpace('<')
  {
  }

  // ---------------------------------------------------------------------------------------------
  // Replacing
  // ---------------------------------------------------------------------------------------------

  function Replacement(m: Match): string {
    "&lt;" + m.close + m.name + "&gt;"
  }

  /** `replace` with the flag `g`, from position `i` on. */
  function ReplaceFrom(s: string, i: nat): string
    requires i <= |s|
    decreases |s| - i
  {
    if i == |s| then ""
    else if MatchAt(s, i).Some? then
      MatchIsTag(s, i);
      Replacement(MatchAt(s, i).value) + ReplaceFrom(s, MatchAt(s, i).value.end)
    else [s[i]] + ReplaceFrom(s, i + 1)
  }

  /** `neutralizeBlockTags`. */
  function NeutralizeBlockTags(text: string): string {
    ReplaceFrom(text, 0)
  }

  /** As far as there is no ampersand, the output is the input. */
  lemma {:induction false} UpToAmpersand(s: string, i: nat, n: nat)
    requires i <= |s| && n <= |ReplaceFrom(s, i)| && '&' !in ReplaceFrom(s, i)[..n]
    ensures i + n <= |s| && ReplaceFrom(s, i)[..n] == s[i..i + n]
    decreases n
  {
    hide MatchAt;
    if n > 0 {
      var out := ReplaceFrom(s, i);
      assert out[0] == out[..n][0];
      assert MatchAt(s, i).None?;
      var rest := ReplaceFrom(s, i + 1);
      assert out == [s[i]] + rest;
      assert out[..n] == [s[i]] + rest[..n - 1];
      UpToAmpersand(s, i + 1, n - 1);
      assert s[i..i + n] == [s[i]] + s[i + 1..i + 1 + (n - 1)];
    }
  }

  /** The characters from `i` to `e` stand in another text at `i'`. */
  ghost predicate Stands(s: string, i: nat, e: nat, s': string, i': nat) {
    && i <= e <= |s| && i' + (e - i) <= |s'|
    && (forall k :: i <= k < e ==> s'[k - i + i'] == s[k])
    && (forall k :: i' <= k < i' + (e - i) ==> s'[k] == s[k - i' + i])
  }

  lemma SlicesStand(s: string, i: nat, e: nat, s': string, i': nat)
    requires i <= e <= |s| && i' + (e - i) <= |s'| && s[i..e] == s'[i'..i' + (e - i)]
    ensures Stands(s, i, e, s', i')
  {
    assert forall k :: i <= k < e ==> s[k] == s[i..e][k - i] && s'[k - i + i'] == s'[i'..i' + (e - i)][k - i];
    assert forall k :: i' <= k < i' + (e - i) ==> s'[k] == s'[i'..i' + (e - i)][k - i'] && s[k - i' + i] == s[i..e][k - i'];
  }

  /** A tag is a tag wherever its characters stand. */
  lemma TagElsewhere(s: string, i: nat, e: nat, s': string, i': nat)
    requires IsTag(s, i, e) && Stands(s, i, e, s', i')
    ensures IsTag(s', i', i' + (e - i))
  {
    var a: nat, b: nat, c: nat, d: nat :| IsTagWith(s, i, a, b, c, d, e);
    NameChars(s, c, d);
    NameElsewhere(s, i, e, s', i', c, d);
    hide IsName, IsSpace;
    assert Spaces(s', i' + 1, a - i + i');
    assert Spaces(s', b - i + i', c - i + i');
    assert Spaces(s', d - i + i', i' + (e - i) - 1);
    assert IsTagWith(s', i', a - i + i', b - i + i', c - i + i', d - i + i', i' + (e - i));
  }

  lemma NameElsewhere(s: string, i: nat, e: nat, s': string, i': nat, c: nat, d: nat)
    requires Stands(s, i, e, s', i') && i <= c && IsName(s, c, d) && d <= e
    ensures IsName(s', c - i + i', d - i + i')
  {
    var n :| 0 <= n < |NAMES| && NameStands(s, c, NAMES[n]) && d == c + |NAMES[n]|;
    forall k | 0 <= k < |NAMES[n]|
      ensures Lower(s'[c - i + i' + k]) == NAMES[n][k]
    {
      assert s'[(c + k) - i + i'] == s[c + k];
      assert Lower(s[c + k]) == NAMES[n][k];
    }
    assert NameStands(s', c - i + i', NAMES[n]);
  }

  lemma TagIsReplaced(s: string, i: nat, e: nat)
    requires IsTag(s, i, e)
    ensures i <= |s| && ReplaceFrom(s, i) != "" && ReplaceFrom(s, i)[0] == '&'
  {
    TagChars(s, i, e);
    var a: nat, b: nat, c: nat, d: nat :| IsTagWith(s, i, a, b, c, d, e);
    MatchFindsTag(s, i, a, b, c, d, e);
    hide MatchAt, IsTagWith;
  }

  lemma NoTagFirst(s: string, i: nat, e: nat)
    requires i <= |s|
    ensures !IsTag(ReplaceFrom(s, i), 0, e)
  {
    hide IsTag, ReplaceFrom, Stands;
    var out := ReplaceFrom(s, i);
    if IsTag(out, 0, e) {
      TagChars(out, 0, e);
      UpToAmpersand(s, i, e);
      assert out[0..e] == out[..e];
      SlicesStand(out, 0, e, s, i);
      TagElsewhere(out, 0, e, s, i);
      TagIsReplaced(s, i, i + e);
    }
  }

  lemma ReplacementHasNoBrackets(m: Match)
    requires (forall c :: c in m.close ==> c == '/') && forall c :: c in m.name ==> IsLetter(c)
    ensures '<' !in Replacement(m)
  {
    assert forall c :: c in Replacement(m) ==> c in "&lt;" || c in m.close || c in m.name || c in "&gt;";
    LettersArePlainAll();
  }

  lemma LettersArePlainAll()
    ensures !IsLetter('<')
  {
  }

  lemma {:induction false} NoTagFurther(s: string, i: nat, p: nat, e: nat)
    requires i <= |s|
    ensures !IsTag(ReplaceFrom(s, i), p, e)
    decreases |s| - i
  {
    hide MatchAt, IsTag, Replacement;
    if p == 0 {
      NoTagFirst(s, i, e);
    } else if i < |s| {
      var head := if MatchAt(s, i).Some? then Replacement(MatchAt(s, i).value) else [s[i]];
      var next := if MatchAt(s, i).Some? then MatchAt(s, i).value.end else i + 1;
      if MatchAt(s, i).Some? {
        MatchIsTag(s, i);
        ReplacementHasNoBrackets(MatchAt(s, i).value);
      }
      var rest := ReplaceFrom(s, next);
      assert ReplaceFrom(s, i) == head + rest;
      hide ReplaceFrom;
      forall q: nat, f: nat
        ensures !IsTag(rest, q, f)
      {
        NoTagFurther(s, next, q, f);
      }
      NoTagBehind(head, rest, p, e);
    } else if IsTag("", p, e) {
      TagChars("", p, e);
    }
  }

  /** A tag behind what has no opening bracket, but for the very first character, is a tag of the rest. */
  lemma NoTagBehind(head: string, rest: string, p: nat, e: nat)
    requires p > 0 && ('<' !in head || |head| == 1) && forall q: nat, f: nat :: !IsTag(rest, q, f)
    ensures !IsTag(head + rest, p, e)
  {
    hide IsTag, Stands;
    var out := head + rest;
    if IsTag(out, p, e) {
      TagChars(out, p, e);
      assert p >= |head|;
      assert out[p..e] == rest[p - |head|..p - |head| + (e - p)];
      SlicesStand(out, p, e, rest, p - |head|);
      TagElsewhere(out, p, e, rest, p - |head|);
    }
  }

  /** Main result. What comes out has no block tag. */
  lemma NeutralizedHasNoTag(text: string)
    ensures !HasTag(NeutralizeBlockTags(text))
  {
    hide IsTag;
    forall i: nat, e: nat
      ensures !IsTag(NeutralizeBlockTags(text), i, e)
    {
      NoTagFurther(text, 0, i, e);
    }
  }

  lemma {:induction false} ReplaceNothing(s: string, i: nat)
    requires i <= |s| && !HasTag(s)
    ensures ReplaceFrom(s, i) == s[i..]
    decreases |s| - i
  {
    hide IsTag, MatchAt;
    if i < |s| {
      if MatchAt(s, i).Some? {
        MatchIsTag(s, i);
      } else {
        ReplaceNothing(s, i + 1);
        assert s[i..] == [s[i]] + s[i + 1..];
      }
    }
  }

  /** Main result. Text stays as it is exactly if it has no tag, and so a second time changes nothing. */
  lemma NeutralizingTwiceIsOnce(text: string)
    ensures !HasTag(text) <==> NeutralizeBlockTags(text) == text
    ensures NeutralizeBlockTags(NeutralizeBlockTags(text)) == NeutralizeBlockTags(text)
  {
    hide HasTag;
    NeutralizedHasNoTag(text);
    if !HasTag(text) {
      ReplaceNothing(text, 0);
    }
    ReplaceNothing(NeutralizeBlockTags(text), 0);
  }

  lemma {:induction false} FirstTagReplaced(s: string, i: nat, p: nat, a: nat, b: nat, c: nat, d: nat, e: nat)
    requires i <= p && IsTagWith(s, p, a, b, c, d, e) && forall k: nat, end: nat :: i <= k < p ==> !IsTag(s, k, end)
    ensures a <= b <= c <= d <= e <= |s|
    ensures ReplaceFrom(s, i) == s[i..p] + Replacement(Match(e, s[a..b], s[c..d])) + ReplaceFrom(s, e)
    decreases p - i
  {
    hide IsTag, IsName, MatchAt, Spaces, Replacement;
    MatchFindsTag(s, p, a, b, c, d, e);
    var r := Replacement(Match(e, s[a..b], s[c..d]));
    if i == p {
      assert s[i..p] == "" && "" + r == r;
    } else {
      if MatchAt(s, i).Some? {
        MatchIsTag(s, i);
      }
      FirstTagReplaced(s, i + 1, p, a, b, c, d, e);
      assert s[i..p] == [s[i]] + s[i + 1..p];
      assert [s[i]] + (s[i + 1..p] + r + ReplaceFrom(s, e)) == s[i..p] + r + ReplaceFrom(s, e);
    }
  }

  /** Main result. The first tag from `i` on keeps its slash and its name between `&lt;` and `&gt;`, and the text before it stays. */
  lemma FirstTagIsKept(s: string, i: nat, p: nat, a: nat, b: nat, c: nat, d: nat, e: nat)
    requires i <= p && IsTagWith(s, p, a, b, c, d, e) && forall k: nat, end: nat :: i <= k < p ==> !IsTag(s, k, end)
    ensures a <= b <= c <= d <= e <= |s|
    ensures ReplaceFrom(s, i) == s[i..p] + ("&lt;" + s[a..b] + s[c..d] + "&gt;") + ReplaceFrom(s, e)
  {
    hide IsTag, IsTagWith, ReplaceFrom;
    FirstTagReplaced(s, i, p, a, b, c, d, e);
  }

  // ---------------------------------------------------------------------------------------------
  // The Connections
  // ---------------------------------------------------------------------------------------------

  const OPEN := "<connections_context>"
  const CLOSE := "</connections_context>"

  /** The expression /^(\s*<connections_context>)([\s\S]*)(<\/connections_context>\s*)$/, by its parts. */
  ghost predicate Wrapped(xml: string, w1: string, body: string, w2: string) {
    xml == w1 + "<connections_context>" + body + "</connections_context>" + w2 && Blank(w1) && Blank(w2)
  }

  /** Where the white space at the end starts. */
  function SpaceStart(s: string, from: nat, end: nat): (r: nat)
    requires from <= end <= |s|
    ensures from <= r && Spaces(s, r, end) && (from < r ==> !IsSpace(s[r - 1]))
    decreases end - from
  {
    if from < end && IsSpace(s[end - 1]) then SpaceStart(s, from, end - 1) else end
  }

  /** Where the text without the white space around it starts and ends. */
  function Start(xml: string): (r: nat)
    ensures r <= |xml|
  {
    SkipSpace(xml, 0)
  }

  function End(xml: string): (r: nat)
    ensures Start(xml) <= r <= |xml|
  {
    SpaceStart(xml, Start(xml), |xml|)
  }

  predicate IsWrapped(xml: string) {
    var start, end := Start(xml), End(xml);
    && end - start >= |OPEN| + |CLOSE|
    && xml[start..start + |OPEN|] == OPEN && xml[end - |CLOSE|..end] == CLOSE
  }

  /** `guardedConnectionsXml`. */
  function GuardedConnectionsXml(xml: string): string {
    if !IsWrapped(xml) then NeutralizeBlockTags(xml) else
      var start, end := Start(xml), End(xml);
      xml[..start + |OPEN|] + NeutralizeBlockTags(xml[start + |OPEN|..end - |CLOSE|]) + xml[end - |CLOSE|..]
  }

  lemma SpaceStartIs(s: string, from: nat, start: nat, to: nat)
    requires from < start && Spaces(s, start, to) && !IsSpace(s[start - 1])
    ensures SpaceStart(s, from, to) == start
  {
  }

  lemma BoundsAre(xml: string, w1: string, core: string, w2: string)
    requires xml == w1 + core + w2 && Blank(w1) && Blank(w2) && core != "" && !IsSpace(core[0]) && !IsSpace(core[|core| - 1])
    ensures Start(xml) == |w1| && End(xml) == |w1| + |core|
  {
    hide IsSpace;
    var e := |w1| + |core|;
    assert xml[|w1|] == core[0] && xml[e - 1] == core[|core| - 1];
    assert forall k :: 0 <= k < |w1| ==> xml[k] == w1[k];
    assert forall k :: e <= k < |xml| ==> xml[k] == w2[k - e];
    SkipSpaceIs(xml, 0, |w1|);
    SpaceStartIs(xml, |w1|, e, |xml|);
  }

  /** The parts are found whenever there are any, and there is only one way to cut. */
  lemma WrappedIsFound(xml: string, w1: string, body: string, w2: string)
    requires Wrapped(xml, w1, body, w2)
    ensures IsWrapped(xml) && Start(xml) == |w1| && End(xml) == |xml| - |w2|
    ensures GuardedConnectionsXml(xml) == w1 + "<connections_context>" + NeutralizeBlockTags(body) + "</connections_context>" + w2
  {
    hide IsSpace, NeutralizeBlockTags, Start, End;
    var core := OPEN + body + CLOSE;
    BracketIsNoSpace();
    Parts(w1, OPEN, body, CLOSE, w2);
    BoundsAre(xml, w1, core, w2);
    Parts(w1, OPEN, NeutralizeBlockTags(body), CLOSE, w2);
  }

  /** Where the parts of a text are. */
  lemma Parts(w1: string, o: string, body: string, c: string, w2: string)
    requires o != "" && c != ""
    ensures var s, core := w1 + o + body + c + w2, o + body + c; var i, j := |w1| + |o|, |w1| + |o| + |body|;
      && s == w1 + core + w2 && core[0] == o[0] && core[|core| - 1] == c[|c| - 1]
      && s[|w1|..i] == o && s[i..j] == body && s[j..j + |c|] == c && s[..|w1|] == w1 && s[..i] == w1 + o && s[j..] == c + w2
      && s == w1 + o + body + (c + w2)
  {
  }

  lemma FromParts(s: string, a: nat, b: nat, c: nat, d: nat)
    requires a <= b <= c <= d <= |s|
    ensures s == s[..a] + s[a..b] + s[b..c] + s[c..d] + s[d..]
  {
  }

  lemma WrappedIfFound(xml: string)
    requires IsWrapped(xml)
    ensures var start, end := Start(xml), End(xml); Wrapped(xml, xml[..start], xml[start + |OPEN|..end - |CLOSE|], xml[end..])
  {
    BoundsAreSpaces(xml);
    hide IsSpace, Start, End;
    var start, end := Start(xml), End(xml);
    FromParts(xml, start, start + |OPEN|, end - |CLOSE|, end);
    BlankSlice(xml, 0, start);
    BlankSlice(xml, end, |xml|);
    assert xml[0..start] == xml[..start] && xml[end..|xml|] == xml[end..];
  }

  lemma BoundsAreSpaces(xml: string)
    ensures Spaces(xml, 0, Start(xml)) && Spaces(xml, End(xml), |xml|)
  {
  }

  lemma BlankSlice(s: string, from: nat, end: nat)
    requires Spaces(s, from, end)
    ensures Blank(s[from..end])
  {
  }

  /**
   Main result. Of the Connections text only its own outer tags are left, if it has them: any tag in the result is the
   one before the body or the one behind it.
   */
  lemma OnlyOuterTagsAreLeft(xml: string, i: nat, e: nat)
    requires IsTag(GuardedConnectionsXml(xml), i, e)
    ensures IsWrapped(xml)
    ensures var out, first, last := GuardedConnectionsXml(xml), Start(xml), |GuardedConnectionsXml(xml)| - (|xml| - End(xml));
      && i < e <= |out|
      && ((i == first && out[i..e] == "<connections_context>") || (e == last && out[i..e] == "</connections_context>"))
  {
    hide IsTag, NeutralizeBlockTags, Start, End;
    if !IsWrapped(xml) {
      NeutralizedHasNoTag(xml);
    } else {
      var start, end := Start(xml), End(xml);
      var w1, body, w2 := xml[..start], xml[start + |OPEN|..end - |CLOSE|], xml[end..];
      WrappedIfFound(xml);
      WrappedIsFound(xml, w1, body, w2);
      NeutralizedHasNoTag(body);
      OnlyOuterTags(w1, NeutralizeBlockTags(body), w2, i, e);
    }
  }

  lemma OnlyOuterTags(w1: string, body: string, w2: string, i: nat, e: nat)
    requires Blank(w1) && Blank(w2) && !HasTag(body) && IsTag(w1 + OPEN + body + CLOSE + w2, i, e)
    ensures var s, first, last := w1 + OPEN + body + CLOSE + w2, |w1|, |w1| + |OPEN| + |body|;
      && i < e <= |s|
      && ((i == first && e == first + |OPEN| && s[i..e] == OPEN) || (i == last && e == last + |CLOSE| && s[i..e] == CLOSE))
  {
    hide IsTag, Stands, IsSpace;
    var s := w1 + OPEN + body + CLOSE + w2;
    var b, c := |w1| + |OPEN|, |w1| + |OPEN| + |body|;
    TagChars(s, i, e);
    BracketPlaces(w1, body, w2, i);
    assert s[|w1|..b] == OPEN && s[c..c + |CLOSE|] == CLOSE;
    if i == |w1| {
      FirstBracketEnds(s, i, e, OPEN);
    } else if i == c {
      FirstBracketEnds(s, i, e, CLOSE);
    } else {
      assert s[c] == CLOSE[0] == '<';
      assert s[i..e] == body[i - b..i - b + (e - i)];
      SlicesStand(s, i, e, body, i - b);
      TagElsewhere(s, i, e, body, i - b);
    }
  }

  /** Where there can be an opening bracket: white space has none, and the outer tags have theirs in front. */
  lemma BracketPlaces(w1: string, body: string, w2: string, i: nat)
    requires Blank(w1) && Blank(w2)
    ensures var s, b, c := w1 + OPEN + body + CLOSE + w2, |w1| + |OPEN|, |w1| + |OPEN| + |body|;
      i < |s| && s[i] == '<' ==> i == |w1| || b <= i <= c
  {
    BracketIsNoSpace();
    hide IsSpace;
    var s, b, c := w1 + OPEN + body + CLOSE + w2, |w1| + |OPEN|, |w1| + |OPEN| + |body|;
    if i < |w1| {
      assert s[i] == w1[i];
    } else if |w1| < i < b {
      assert s[i] == OPEN[i - |w1|];
    } else if c < i < c + |CLOSE| {
      assert s[i] == CLOSE[i - c];
    } else if c + |CLOSE| <= i < |s| {
      assert s[i] == w2[i - c - |CLOSE|];
    }
  }

  /** Behind `i`, the first closing bracket comes just before `e`. */
  predicate EndsFirst(s: string, i: nat, e: nat) {
    i + 1 < e <= |s| && s[e - 1] == '>' && forall k :: i < k < e - 1 ==> s[k] != '>'
  }

  lemma EndsFirstOnce(s: string, i: nat, e: nat, f: nat)
    requires EndsFirst(s, i, e) && EndsFirst(s, i, f)
    ensures e == f
  {
  }

  /** A tag ends at its first closing bracket. */
  lemma FirstBracketEnds(s: string, i: nat, e: nat, u: string)
    requires IsTag(s, i, e) && (u == OPEN || u == CLOSE) && i + |u| <= |s| && s[i..i + |u|] == u
    ensures e == i + |u|
  {
    TagChars(s, i, e);
    hide IsTag;
    assert u[|u| - 1] == '>' && forall k :: 0 < k < |u| - 1 ==> u[k] != '>';
    assert forall k :: i <= k < i + |u| ==> s[k] == u[k - i];
    assert EndsFirst(s, i, i + |u|) && EndsFirst(s, i, e);
    EndsFirstOnce(s, i, e, i + |u|);
  }
}
