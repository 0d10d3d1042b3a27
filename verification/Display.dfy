/**
 The terminal side of the startup benchmark: a filter that sits between a program and a screen, answers
 the terminal queries found in the program's output and shows everything else.

 A chunk may end in the middle of a query, so the longest suffix that could still become one is held back.
 The main results say that the cut points do not matter (`StreamingEqualsBatch`), that nothing is lost or
 reordered (`NothingLost`), and that the table of queries has the property all of this rests on
 (`QueriesAreFactorFree`).
 */
module Display {
  import Strings

  datatype Query = Query(text: string, reply: string)

  /** What leaves the filter: one character for the screen, or the answer to one query. */
  datatype Event = Glyph(ch: char) | Answered(query: Query)

  datatype Output = Output(events: seq<Event>, held: string)

  const ESC: char := '\U{1b}'
  const BEL: char := '\U{07}'

  const QUERIES: seq<Query> := [
    Query("\U{1b}[?996n", "\U{1b}[?997;1n"),
    Query("\U{1b}[6n", "\U{1b}[1;1R"),
    Query("\U{1b}[?6n", "\U{1b}[?1;1R"),
    Query("\U{1b}[c", "\U{1b}[?1;2c"),
    Query("\U{1b}[0c", "\U{1b}[?1;2c"),
    Query("\U{1b}[>c", "\U{1b}[>0;276;0c"),
    Query("\U{1b}[>0c", "\U{1b}[>0;276;0c"),
    Query("\U{1b}[?u", "\U{1b}[?0u"),
    Query("\U{1b}[?2026$p", "\U{1b}[?2026;2$y"),
    Query("\U{1b}[14t", "\U{1b}[4;640;960t"),
    Query("\U{1b}[16t", "\U{1b}[6;16;8t"),
    Query("\U{1b}[18t", "\U{1b}[8;40;120t"),
    Query("\U{1b}]10;?\U{07}", "\U{1b}]10;rgb:eeee/eeee/eeee\U{1b}\\"),
    Query("\U{1b}]11;?\U{07}", "\U{1b}]11;rgb:0000/0000/0000\U{1b}\\"),
    Query("\U{1b}]10;?\U{1b}\\", "\U{1b}]10;rgb:eeee/eeee/eeee\U{1b}\\"),
    Query("\U{1b}]11;?\U{1b}\\", "\U{1b}]11;rgb:0000/0000/0000\U{1b}\\")
  ]

  /** `q` occurs in `s` at position `i`. */
  predicate At(s: string, i: int, q: string) {
    0 <= i && i + |q| <= |s| && s[i..i + |q|] == q
  }

  /** No query is empty, and none occurs inside another. */
  ghost predicate FactorFree(qs: seq<Query>) {
    && (forall k :: 0 <= k < |qs| ==> qs[k].text != "")
    && (forall k, m, i :: 0 <= k < |qs| && 0 <= m < |qs| && At(qs[m].text, i, qs[k].text) ==> k == m)
  }

  /** Query `k` occurs at `i`, and every other occurrence of any query starts later. */
  ghost predicate First(qs: seq<Query>, s: string, i: int, k: int) {
    && 0 <= k < |qs| && At(s, i, qs[k].text)
    && forall j, m :: 0 <= m < |qs| && At(s, j, qs[m].text) ==> i < j || (i == j && k == m)
  }

  ghost predicate Matches(qs: seq<Query>, s: string) {
    exists i, k :: 0 <= k < |qs| && At(s, i, qs[k].text)
  }

  /** The last `n` characters of `s` are a proper, nonempty prefix of `q`. */
  predicate PartialOf(q: string, s: string, n: int) {
    0 < n <= |s| && n < |q| && s[|s| - n..] == q[..n]
  }

  ghost predicate Partial(qs: seq<Query>, s: string, n: int) {
    exists k :: 0 <= k < |qs| && PartialOf(qs[k].text, s, n)
  }

  /** `n` is the length of the suffix to hold back: the longest partial query, or nothing. */
  ghost predicate Holds(qs: seq<Query>, s: string, n: int) {
    && 0 <= n <= |s|
    && (n == 0 || Partial(qs, s, n))
    && forall m :: Partial(qs, s, m) ==> m <= n
  }

  function Glyphs(s: string): (events: seq<Event>)
    ensures |events| == |s|
  {
    if s == "" then [] else [Glyph(s[0])] + Glyphs(s[1..])
  }

  lemma {:induction false} GlyphsConcat(s: string, t: string)
    ensures Glyphs(s + t) == Glyphs(s) + Glyphs(t)
  {
    if s == "" {
      assert s + t == t;
    } else {
      assert (s + t)[1..] == s[1..] + t;
      GlyphsConcat(s[1..], t);
    }
  }

  // ---------------------------------------------------------------------------------------------
  // The reference reading of a whole text
  // ---------------------------------------------------------------------------------------------

  lemma {:induction false} FirstExists(qs: seq<Query>, s: string, i: int, k: int)
    requires FactorFree(qs) && 0 <= k < |qs| && At(s, i, qs[k].text)
    ensures exists i', k' :: First(qs, s, i', k')
    decreases i
  {
    if j, m :| 0 <= m < |qs| && At(s, j, qs[m].text) && !(i < j || (i == j && k == m)) {
      if j == i {
        AlignedSame(qs, s, i, k, m);
        assert false;
      }
      FirstExists(qs, s, j, m);
    } else {
      assert First(qs, s, i, k);
    }
  }

  /** Two queries that occur at the same position are the same query. */
  lemma AlignedSame(qs: seq<Query>, s: string, i: int, k: int, m: int)
    requires FactorFree(qs) && 0 <= k < |qs| && 0 <= m < |qs|
    requires At(s, i, qs[k].text) && At(s, i, qs[m].text)
    ensures k == m
  {
    var a, b := qs[k].text, qs[m].text;
    if |a| <= |b| {
      AtInside(s, i, b, i, a);
    } else {
      AtInside(s, i, a, i, b);
    }
  }

  /** An occurrence of `q` within the span of an occurrence of `p` is an occurrence in `p`. */
  lemma AtInside(s: string, j: int, p: string, i: int, q: string)
    requires At(s, j, p) && At(s, i, q) && j <= i && i + |q| <= j + |p|
    ensures At(p, i - j, q)
  {
    forall x | 0 <= x < |q|
      ensures p[i - j..i - j + |q|][x] == q[x]
    {
      assert p[i - j + x] == s[j..j + |p|][i - j + x] == s[i + x] == s[i..i + |q|][x];
    }
  }

  lemma {:induction false} HoldsExists(qs: seq<Query>, s: string, n: nat)
    requires n <= |s| && forall m :: Partial(qs, s, m) ==> m <= n
    ensures exists h :: Holds(qs, s, h)
  {
    if n == 0 || Partial(qs, s, n) {
      assert Holds(qs, s, n);
    } else {
      HoldsExists(qs, s, n - 1);
    }
  }

  /** The first occurrence of a query in `s`: its position and the query's number, or (-1, -1). */
  ghost function FirstOf(qs: seq<Query>, s: string): (r: (int, int))
    requires FactorFree(qs)
    ensures r.0 < 0 ==> !Matches(qs, s)
    ensures 0 <= r.0 ==> First(qs, s, r.0, r.1) && qs[r.1].text != ""
  {
    if Matches(qs, s) then
      var i, k :| 0 <= k < |qs| && At(s, i, qs[k].text);
      FirstExists(qs, s, i, k);
      var i, k :| First(qs, s, i, k);
      (i, k)
    else (-1, -1)
  }

  ghost function HoldOf(qs: seq<Query>, s: string): (n: int)
    ensures 0 <= n <= |s| && Holds(qs, s, n)
  {
    HoldsExists(qs, s, |s|);
    var n :| Holds(qs, s, n);
    n
  }

  /** The text read as a whole: answer the first query, go on behind it; with none left, hold back a suffix. */
  ghost function Decode(qs: seq<Query>, s: string): Output
    requires FactorFree(qs)
    decreases |s|
  {
    var (i, k) := FirstOf(qs, s);
    if 0 <= i then
      var rest := Decode(qs, s[i + |qs[k].text|..]);
      Output(Glyphs(s[..i]) + [Answered(qs[k])] + rest.events, rest.held)
    else
      var n := HoldOf(qs, s);
      Output(Glyphs(s[..|s| - n]), s[|s| - n..])
  }

  lemma FirstUnique(qs: seq<Query>, s: string, i: int, k: int)
    requires FactorFree(qs) && First(qs, s, i, k)
    ensures FirstOf(qs, s) == (i, k)
  {
    var (i', k') := FirstOf(qs, s);
    assert At(s, i, qs[k].text);
    assert At(s, i', qs[k'].text);
  }

  lemma HoldUnique(qs: seq<Query>, s: string, n: int)
    requires Holds(qs, s, n)
    ensures HoldOf(qs, s) == n
  {
    var m := HoldOf(qs, s);
    assert m != 0 ==> Partial(qs, s, m);
    assert n != 0 ==> Partial(qs, s, n);
  }

  // ---------------------------------------------------------------------------------------------
  // Cutting the text anywhere changes nothing
  // ---------------------------------------------------------------------------------------------

  /** An occurrence is unaffected by what stands before it. */
  lemma AtShift(u: string, w: string, j: int, q: string)
    requires |u| <= j
    ensures At(u + w, j, q) <==> At(w, j - |u|, q)
  {
    if j + |q| <= |u| + |w| {
      assert (u + w)[j..j + |q|] == w[j - |u|..j - |u| + |q|];
    }
  }

  /** An occurrence inside `s` is unaffected by what stands behind `s`. */
  lemma AtPrefix(s: string, t: string, j: int, q: string)
    ensures j + |q| <= |s| ==> (At(s + t, j, q) <==> At(s, j, q))
  {
    if 0 <= j && j + |q| <= |s| {
      assert (s + t)[j..j + |q|] == s[j..j + |q|];
    }
  }

  /** The first match of `s` stays the first match when more text arrives. */
  lemma FirstStays(qs: seq<Query>, s: string, t: string, i: int, k: int)
    requires FactorFree(qs) && First(qs, s, i, k)
    ensures First(qs, s + t, i, k)
  {
    var q := qs[k].text;
    assert (s + t)[i..i + |q|] == s[i..i + |q|];
    forall j, m | 0 <= m < |qs| && At(s + t, j, qs[m].text)
      ensures i < j || (i == j && k == m)
    {
      var p := qs[m].text;
      AtPrefix(s, t, j, p);
      if |s| < j + |p| && j <= i {
        // the occurrence of `p` runs past the end of `s`, so it covers the occurrence of `q`
        AtInside(s + t, j, p, i, q);
      }
    }
  }

  /** Without a match in `s`, an occurrence in a longer text cannot start before the part held back. */
  lemma CrossingIsHeld(qs: seq<Query>, s: string, t: string, n: int, j: int, m: int)
    requires !Matches(qs, s) && Holds(qs, s, n)
    requires 0 <= m < |qs| && At(s + t, j, qs[m].text) && qs[m].text != ""
    ensures |s| - n <= j
  {
    var p := qs[m].text;
    AtPrefix(s, t, j, p);
    if j < |s| {
      var l := |s| - j;
      assert p[..l] == (s + t)[j..j + |p|][..l] == (s + t)[j..j + l] == s[j..] == s[|s| - l..];
      assert PartialOf(p, s, l);
      assert Partial(qs, s, l);
    }
  }

  lemma NoMatchShift(qs: seq<Query>, s: string, t: string, n: int)
    requires FactorFree(qs) && !Matches(qs, s) && Holds(qs, s, n) && !Matches(qs, s[|s| - n..] + t)
    ensures !Matches(qs, s + t)
  {
    var u, h := s[..|s| - n], s[|s| - n..];
    assert s + t == u + (h + t);
    if i, k :| 0 <= k < |qs| && At(s + t, i, qs[k].text) {
      CrossingIsHeld(qs, s, t, n, i, k);
      AtShift(u, h + t, i, qs[k].text);
    }
  }

  lemma FirstShift(qs: seq<Query>, s: string, t: string, n: int, i: int, k: int)
    requires FactorFree(qs) && !Matches(qs, s) && Holds(qs, s, n) && First(qs, s[|s| - n..] + t, i, k)
    ensures First(qs, s + t, |s| - n + i, k)
  {
    var u, h := s[..|s| - n], s[|s| - n..];
    assert s + t == u + (h + t);
    AtShift(u, h + t, |u| + i, qs[k].text);
    forall j, m | 0 <= m < |qs| && At(s + t, j, qs[m].text)
      ensures |u| + i < j || (|u| + i == j && k == m)
    {
      CrossingIsHeld(qs, s, t, n, j, m);
      AtShift(u, h + t, j, qs[m].text);
    }
  }

  /** The end of `u + w` is the end of `w`. */
  lemma EndOfConcat(u: string, w: string, m: int)
    requires 0 <= m <= |w|
    ensures (u + w)[|u + w| - m..] == w[|w| - m..]
    ensures (u + w)[..|u + w| - m] == u + w[..|w| - m]
  {
  }

  /** A partial query at the end of `s + t` that starts inside `s` was one at the end of `s`. */
  lemma PartialBack(qs: seq<Query>, s: string, t: string, m: int)
    requires Partial(qs, s + t, m) && |t| < m
    ensures Partial(qs, s, m - |t|)
  {
    var k :| 0 <= k < |qs| && PartialOf(qs[k].text, s + t, m);
    var l := m - |t|;
    assert s[|s| - l..] == (s + t)[|s + t| - m..][..l] == qs[k].text[..l];
    assert PartialOf(qs[k].text, s, l);
  }

  lemma PartialShift(qs: seq<Query>, u: string, w: string, m: int)
    requires 0 <= m <= |w|
    ensures Partial(qs, u + w, m) == Partial(qs, w, m)
  {
    EndOfConcat(u, w, m);
    forall k | 0 <= k < |qs|
      ensures PartialOf(qs[k].text, u + w, m) == PartialOf(qs[k].text, w, m)
    {
    }
  }

  /** The suffix held back is the same whether or not the text already shown is still in view. */
  lemma HoldsShift(qs: seq<Query>, s: string, t: string, n: int, keep: int)
    requires !Matches(qs, s) && Holds(qs, s, n) && Holds(qs, s[|s| - n..] + t, keep)
    ensures Holds(qs, s + t, keep)
  {
    var u, w := s[..|s| - n], s[|s| - n..] + t;
    assert s + t == u + w;
    PartialShift(qs, u, w, keep);
    forall m | Partial(qs, s + t, m)
      ensures m <= keep
    {
      if m <= |w| {
        PartialShift(qs, u, w, m);
      } else {
        PartialBack(qs, s, t, m);
      }
    }
  }

  /** Reading `s`, then `t` with the text held back from `s` in front, is reading `s + t`. */
  lemma {:induction false} CutAnywhere(qs: seq<Query>, s: string, t: string)
    requires FactorFree(qs)
    ensures var first := Decode(qs, s);
      var second := Decode(qs, first.held + t);
      Decode(qs, s + t) == Output(first.events + second.events, second.held)
    decreases |s|
  {
    hide FactorFree, Holds, Matches;
    var (i, k) := FirstOf(qs, s);
    if 0 <= i {
      hide Decode;
      CutAnywhere(qs, s[i + |qs[k].text|..], t);
      CutBehindMatch(qs, s, t, i, k);
    } else {
      CutAfterText(qs, s, t, HoldOf(qs, s));
    }
  }

  /** The answer to the first query of `s` comes first, wherever `s` goes on. */
  lemma CutBehindMatch(qs: seq<Query>, s: string, t: string, i: int, k: int)
    requires FactorFree(qs) && FirstOf(qs, s) == (i, k) && 0 <= i && First(qs, s, i, k)
    requires var rest := s[i + |qs[k].text|..];
      var first := Decode(qs, rest);
      var second := Decode(qs, first.held + t);
      Decode(qs, rest + t) == Output(first.events + second.events, second.held)
    ensures var first := Decode(qs, s);
      var second := Decode(qs, first.held + t);
      Decode(qs, s + t) == Output(first.events + second.events, second.held)
  {
    hide FactorFree, Decode, First, Glyphs;
    DecodeMatch(qs, s, i, k);
    FirstStays(qs, s, t, i, k);
    DecodeMatch(qs, s + t, i, k);
    var e := i + |qs[k].text|;
    assert (s + t)[e..] == s[e..] + t;
    assert (s + t)[..i] == s[..i];
    var first := Decode(qs, s[e..]);
    var second := Decode(qs, first.held + t);
    ConcatAssociative(Glyphs(s[..i]), [Answered(qs[k])], first.events, second.events);
  }

  lemma CutAfterText(qs: seq<Query>, s: string, t: string, n: int)
    requires FactorFree(qs) && !Matches(qs, s) && Holds(qs, s, n)
    ensures var second := Decode(qs, s[|s| - n..] + t);
      Decode(qs, s + t) == Output(Glyphs(s[..|s| - n]) + second.events, second.held)
  {
    var u, w := s[..|s| - n], s[|s| - n..] + t;
    assert s + t == u + w;
    hide FactorFree, Holds, Matches, First;
    var (i, k) := FirstOf(qs, w);
    if 0 <= i {
      FirstShift(qs, s, t, n, i, k);
      MatchBehindText(qs, u, w, i, k);
    } else {
      var keep := HoldOf(qs, w);
      NoMatchShift(qs, s, t, n);
      HoldsShift(qs, s, t, n, keep);
      NoMatchBehindText(qs, u, w, keep);
    }
  }

  lemma MatchBehindText(qs: seq<Query>, u: string, w: string, i: int, k: int)
    requires FactorFree(qs) && First(qs, w, i, k) && First(qs, u + w, |u| + i, k)
    ensures Decode(qs, u + w) == Output(Glyphs(u) + Decode(qs, w).events, Decode(qs, w).held)
  {
    hide *;
    DecodeMatch(qs, w, i, k);
    DecodeMatch(qs, u + w, |u| + i, k);
    var q := qs[k];
    EndOfConcat(u, w, |w| - i);
    EndOfConcat(u, w, |w| - i - |q.text|);
    var rest := Decode(qs, w[i + |q.text|..]);
    var shown := w[..i];
    calc {
      Decode(qs, u + w).events;
      Glyphs(u + shown) + [Answered(q)] + rest.events;
      { GlyphsConcat(u, shown); }
      Glyphs(u) + Glyphs(shown) + [Answered(q)] + rest.events;
      { ConcatAssociative(Glyphs(u), Glyphs(shown), [Answered(q)], rest.events); }
      Glyphs(u) + (Glyphs(shown) + [Answered(q)] + rest.events);
    }
  }

  lemma DecodeMatch(qs: seq<Query>, s: string, i: int, k: int)
    requires FactorFree(qs) && First(qs, s, i, k)
    ensures 0 <= k < |qs| && 0 <= i && i + |qs[k].text| <= |s|
    ensures var rest := Decode(qs, s[i + |qs[k].text|..]);
      Decode(qs, s) == Output(Glyphs(s[..i]) + [Answered(qs[k])] + rest.events, rest.held)
  {
    FirstUnique(qs, s, i, k);
  }

  lemma ConcatAssociative<T>(a: seq<T>, b: seq<T>, c: seq<T>, d: seq<T>)
    ensures a + b + c + d == a + (b + c + d) && a + b + (c + d) == a + b + c + d
  {
  }

  lemma NoMatchBehindText(qs: seq<Query>, u: string, w: string, keep: int)
    requires FactorFree(qs) && !Matches(qs, w) && Holds(qs, w, keep) && !Matches(qs, u + w) && Holds(qs, u + w, keep)
    ensures Decode(qs, u + w) == Output(Glyphs(u) + Decode(qs, w).events, Decode(qs, w).held)
  {
    hide FactorFree;
    HoldUnique(qs, w, keep);
    HoldUnique(qs, u + w, keep);
    EndOfConcat(u, w, keep);
    GlyphsConcat(u, w[..|w| - keep]);
    assert FirstOf(qs, w).0 < 0 && FirstOf(qs, u + w).0 < 0;
  }

  /** The filter fed chunk by chunk, starting with `held` still pending. */
  ghost function FeedAll(qs: seq<Query>, held: string, chunks: seq<string>): Output
    requires FactorFree(qs)
    decreases |chunks|
  {
    if chunks == [] then Output([], held)
    else
      var first := Decode(qs, held + chunks[0]);
      var rest := FeedAll(qs, first.held, chunks[1..]);
      Output(first.events + rest.events, rest.held)
  }

  /** What a filter may have pending between two chunks: text it would hold back whole. */
  ghost predicate Pending(qs: seq<Query>, held: string)
    requires FactorFree(qs)
  {
    Decode(qs, held) == Output([], held)
  }

  /** Main result: however a text is cut, feeding the pieces gives the events and the held text of the whole. */
  lemma {:induction false} StreamingEqualsBatch(qs: seq<Query>, held: string, chunks: seq<string>)
    requires FactorFree(qs) && Pending(qs, held)
    ensures FeedAll(qs, held, chunks) == Decode(qs, held + Strings.Concat(chunks))
    decreases |chunks|
  {
    hide FactorFree, Decode;
    if chunks == [] {
      assert held + Strings.Concat(chunks) == held;
    } else {
      var first := Decode(qs, held + chunks[0]);
      DecodeHeldPending(qs, held + chunks[0]);
      StreamingEqualsBatch(qs, first.held, chunks[1..]);
      CutAnywhere(qs, held + chunks[0], Strings.Concat(chunks[1..]));
      assert held + Strings.Concat(chunks) == (held + chunks[0]) + Strings.Concat(chunks[1..]);
    }
  }

  /** The text held back by a reading is itself held back whole. */
  lemma {:induction false} DecodeHeldPending(qs: seq<Query>, s: string)
    requires FactorFree(qs)
    ensures Pending(qs, Decode(qs, s).held)
    decreases |s|
  {
    CutAnywhere(qs, s, "");
    var held := Decode(qs, s).held;
    assert s + "" == s && held + "" == held;
  }

  /** The input that an event stands for. */
  function Source(events: seq<Event>): string {
    if events == [] then ""
    else (match events[0] case Glyph(c) => [c] case Answered(q) => q.text) + Source(events[1..])
  }

  lemma {:induction false} SourceConcat(a: seq<Event>, b: seq<Event>)
    ensures Source(a + b) == Source(a) + Source(b)
  {
    if a == [] {
      assert a + b == b;
    } else {
      assert (a + b)[1..] == a[1..] + b;
      SourceConcat(a[1..], b);
    }
  }

  lemma {:induction false} SourceGlyphs(s: string)
    ensures Source(Glyphs(s)) == s
  {
    if s != "" {
      SourceGlyphs(s[1..]);
    }
  }

  lemma SourceOfMatch(shown: string, q: Query, events: seq<Event>)
    ensures Source(Glyphs(shown) + [Answered(q)] + events) == shown + q.text + Source(events)
  {
    SourceGlyphs(shown);
    SourceConcat(Glyphs(shown), [Answered(q)]);
    SourceConcat(Glyphs(shown) + [Answered(q)], events);
    assert Source([Answered(q)]) == q.text;
  }

  lemma NoMatchInEnd(qs: seq<Query>, u: string, h: string)
    requires !Matches(qs, u + h)
    ensures !Matches(qs, h)
  {
    if i, k :| 0 <= k < |qs| && At(h, i, qs[k].text) {
      AtShift(u, h, |u| + i, qs[k].text);
    }
  }

  lemma CutOut(s: string, i: int, q: string)
    requires At(s, i, q)
    ensures s == s[..i] + q + s[i + |q|..]
  {
  }

  lemma RegroupRest(a: string, b: string, c: string)
    ensures a + b + c == a + (b + c)
  {
  }

  /** Nothing is lost or reordered: queries, shown text and held text together are the input. */
  lemma {:induction false} NothingLost(qs: seq<Query>, s: string)
    requires FactorFree(qs)
    ensures Source(Decode(qs, s).events) + Decode(qs, s).held == s
    decreases |s|
  {
    hide FactorFree, Matches, Holds;
    var (i, k) := FirstOf(qs, s);
    if 0 <= i {
      var shown, q, rest := s[..i], qs[k], s[i + |qs[k].text|..];
      NothingLost(qs, rest);
      SourceOfMatch(shown, q, Decode(qs, rest).events);
      CutOut(s, i, q.text);
      RegroupRest(shown + q.text, Source(Decode(qs, rest).events), Decode(qs, rest).held);
    } else {
      var n := HoldOf(qs, s);
      SourceGlyphs(s[..|s| - n]);
      assert s == s[..|s| - n] + s[|s| - n..];
    }
  }

  /** No query is left in the text held back. */
  lemma {:induction false} HeldHasNoQuery(qs: seq<Query>, s: string)
    requires FactorFree(qs)
    ensures !Matches(qs, Decode(qs, s).held)
    decreases |s|
  {
    var (i, k) := FirstOf(qs, s);
    if 0 <= i {
      hide FactorFree, Matches;
      HeldHasNoQuery(qs, s[i + |qs[k].text|..]);
    } else {
      var n := HoldOf(qs, s);
      assert s == s[..|s| - n] + s[|s| - n..];
      NoMatchInEnd(qs, s[..|s| - n], s[|s| - n..]);
    }
  }

  // ---------------------------------------------------------------------------------------------
  // The table
  // ---------------------------------------------------------------------------------------------

  predicate Final(c: char) {
    c in ['n', 'c', 'u', 'p', 't', BEL, '\\']
  }

  /** From index `i` on: no final character before the last one, and an escape only as part of a final "ESC \\". */
  predicate BodyFrom(q: string, i: nat)
    decreases |q| - i
  {
    i < |q| &&
    if i + 1 == |q| then Final(q[i])
    else !Final(q[i]) && (q[i] == ESC ==> q[i + 1] == '\\') && BodyFrom(q, i + 1)
  }

  lemma {:induction false} BodyFromAt(q: string, i: nat, j: nat)
    requires BodyFrom(q, i) && i <= j < |q|
    ensures Final(q[j]) <==> j + 1 == |q|
    ensures q[j] == ESC ==> j + 1 < |q| && q[j + 1] == '\\'
    decreases j - i
  {
    if i < j {
      BodyFromAt(q, i + 1, j);
    }
  }

  /** The common shape of the queries: an introducer, a body without final characters, one final character. */
  predicate Shape(q: string) {
    2 < |q| && q[0] == ESC && (q[1] == '[' || q[1] == ']') && BodyFrom(q, 1)
  }

  lemma ShapesNest(a: string, b: string, i: int)
    requires Shape(a) && Shape(b) && At(b, i, a)
    ensures a == b
  {
    assert forall j :: 0 <= j < |a| ==> a[j] == b[i..i + |a|][j] == b[i + j];
    assert b[i] == a[0] && b[i + 1] == a[1] && b[i + |a| - 1] == a[|a| - 1];
    if 0 < i {
      BodyFromAt(b, 1, i);
      assert false;
    }
    BodyFromAt(a, 1, |a| - 1);
    BodyFromAt(b, 1, |a| - 1);
    assert b == b[0..|b|];
  }

  lemma PositionQueriesHaveShape(k: int)
    requires 0 <= k < 4
    ensures Shape(QUERIES[k].text)
  {
    hide QUERIES, Shape;
    PositionTexts();
    PositionShapes();
  }

  lemma PositionTexts()
    ensures |QUERIES| == 16
    ensures QUERIES[0].text == "\U{1b}[?996n"
    ensures QUERIES[1].text == "\U{1b}[6n"
    ensures QUERIES[2].text == "\U{1b}[?6n"
    ensures QUERIES[3].text == "\U{1b}[c"
  {
  }

  lemma PositionShapes()
    ensures Shape("\U{1b}[?996n")
    ensures Shape("\U{1b}[6n")
    ensures Shape("\U{1b}[?6n")
    ensures Shape("\U{1b}[c")
  {
  }

  lemma DeviceQueriesHaveShape(k: int)
    requires 4 <= k < 8
    ensures Shape(QUERIES[k].text)
  {
    hide QUERIES, Shape;
    DeviceTexts();
    DeviceShapes();
  }

  lemma DeviceTexts()
    ensures |QUERIES| == 16
    ensures QUERIES[4].text == "\U{1b}[0c"
    ensures QUERIES[5].text == "\U{1b}[>c"
    ensures QUERIES[6].text == "\U{1b}[>0c"
    ensures QUERIES[7].text == "\U{1b}[?u"
  {
  }

  lemma DeviceShapes()
    ensures Shape("\U{1b}[0c")
    ensures Shape("\U{1b}[>c")
    ensures Shape("\U{1b}[>0c")
    ensures Shape("\U{1b}[?u")
  {
  }

  lemma ModeQueriesHaveShape(k: int)
    requires 8 <= k < 12
    ensures Shape(QUERIES[k].text)
  {
    hide QUERIES, Shape;
    ModeTexts();
    ModeShapes();
  }

  lemma ModeTexts()
    ensures |QUERIES| == 16
    ensures QUERIES[8].text == "\U{1b}[?2026$p"
    ensures QUERIES[9].text == "\U{1b}[14t"
    ensures QUERIES[10].text == "\U{1b}[16t"
    ensures QUERIES[11].text == "\U{1b}[18t"
  {
  }

  lemma ModeShapes()
    ensures Shape("\U{1b}[?2026$p")
    ensures Shape("\U{1b}[14t")
    ensures Shape("\U{1b}[16t")
    ensures Shape("\U{1b}[18t")
  {
  }

  lemma ColorQueriesHaveShape(k: int)
    requires 12 <= k < 16
    ensures Shape(QUERIES[k].text)
  {
    hide QUERIES, Shape;
    ColorTexts();
    ColorShapes();
  }

  lemma ColorTexts()
    ensures |QUERIES| == 16
    ensures QUERIES[12].text == "\U{1b}]10;?\U{07}"
    ensures QUERIES[13].text == "\U{1b}]11;?\U{07}"
    ensures QUERIES[14].text == "\U{1b}]10;?\U{1b}\\"
    ensures QUERIES[15].text == "\U{1b}]11;?\U{1b}\\"
  {
  }

  lemma ColorShapes()
    ensures Shape("\U{1b}]10;?\U{07}")
    ensures Shape("\U{1b}]11;?\U{07}")
    ensures Shape("\U{1b}]10;?\U{1b}\\")
    ensures Shape("\U{1b}]11;?\U{1b}\\")
  {
  }

  lemma QueriesHaveShape(k: int)
    requires 0 <= k < |QUERIES|
    ensures Shape(QUERIES[k].text)
  {
    if k < 4 {
      PositionQueriesHaveShape(k);
    } else if k < 8 {
      DeviceQueriesHaveShape(k);
    } else if k < 12 {
      ModeQueriesHaveShape(k);
    } else {
      ColorQueriesHaveShape(k);
    }
  }

  lemma QueriesDiffer(k: int, m: int)
    requires 0 <= k < m < |QUERIES|
    ensures QUERIES[k].text != QUERIES[m].text
  {
    var a, b := QUERIES[k].text, QUERIES[m].text;
    if |a| == |b| {
      if |a| == 4 {
        assert (a[2], a[3]) != (b[2], b[3]) || (a[2] == b[2] && a[3] == b[3]);
      }
    }
  }

  /** The queries for the text colour and the background, with either end, are in the table with their answers. */
  lemma ColorQueriesAreIn(code: string, color: string, end: string)
    requires (code, color) == ("10", "eeee/eeee/eeee") || (code, color) == ("11", "0000/0000/0000")
    requires end == "\U{07}" || end == "\U{1b}\\"
    ensures Query("\U{1b}]" + code + ";?" + end, "\U{1b}]" + code + ";rgb:" + color + "\U{1b}\\") in QUERIES
  {
    hide QUERIES;
    ColorQueriesAre();
    QuerySpelled(code, end);
    ReplySpelled(code, color);
    assert QUERIES[12] in QUERIES && QUERIES[13] in QUERIES && QUERIES[14] in QUERIES && QUERIES[15] in QUERIES;
  }

  lemma QuerySpelled(code: string, end: string)
    requires (code == "10" || code == "11") && (end == "\U{07}" || end == "\U{1b}\\")
    ensures "\U{1b}]" + code + ";?" + end ==
      if code == "10" then
        if end == "\U{07}" then "\U{1b}]10;?\U{07}" else "\U{1b}]10;?\U{1b}\\"
      else
        if end == "\U{07}" then "\U{1b}]11;?\U{07}" else "\U{1b}]11;?\U{1b}\\"
  {
  }

  lemma ReplySpelled(code: string, color: string)
    requires (code, color) == ("10", "eeee/eeee/eeee") || (code, color) == ("11", "0000/0000/0000")
    ensures "\U{1b}]" + code + ";rgb:" + color + "\U{1b}\\" ==
      if code == "10" then "\U{1b}]10;rgb:eeee/eeee/eeee\U{1b}\\" else "\U{1b}]11;rgb:0000/0000/0000\U{1b}\\"
  {
  }

  lemma ColorQueriesAre()
    ensures |QUERIES| == 16
    ensures QUERIES[12] == Query("\U{1b}]10;?\U{07}", "\U{1b}]10;rgb:eeee/eeee/eeee\U{1b}\\")
    ensures QUERIES[13] == Query("\U{1b}]11;?\U{07}", "\U{1b}]11;rgb:0000/0000/0000\U{1b}\\")
    ensures QUERIES[14] == Query("\U{1b}]10;?\U{1b}\\", "\U{1b}]10;rgb:eeee/eeee/eeee\U{1b}\\")
    ensures QUERIES[15] == Query("\U{1b}]11;?\U{1b}\\", "\U{1b}]11;rgb:0000/0000/0000\U{1b}\\")
  {
  }

  /** The property the filter rests on holds of the benchmark's table. */
  lemma QueriesAreFactorFree()
    ensures FactorFree(QUERIES)
  {
    forall k | 0 <= k < |QUERIES|
      ensures QUERIES[k].text != ""
    {
      QueriesHaveShape(k);
    }
    forall k, m, i | 0 <= k < |QUERIES| && 0 <= m < |QUERIES| && At(QUERIES[m].text, i, QUERIES[k].text)
      ensures k == m
    {
      QueriesHaveShape(k);
      QueriesHaveShape(m);
      ShapesNest(QUERIES[k].text, QUERIES[m].text, i);
      if k < m {
        QueriesDiffer(k, m);
      } else if m < k {
        QueriesDiffer(m, k);
      }
    }
  }

  // ---------------------------------------------------------------------------------------------
  // The filter itself
  // ---------------------------------------------------------------------------------------------

  /** The leftmost position of `q` in `s` at or after `from`, or -1. */
  function IndexOf(s: string, q: string, from: nat): (r: int)
    ensures r < 0 ==> forall i :: from <= i ==> !At(s, i, q)
    ensures 0 <= r ==> At(s, r, q) && from <= r && forall i :: from <= i < r ==> !At(s, i, q)
    decreases |s| - from
  {
    if |s| < from + |q| then -1
    else if s[from..from + |q|] == q then from
    else IndexOf(s, q, from + 1)
  }

  /** The order of strings used to break ties between positions. */
  predicate Less(a: string, b: string) {
    if b == "" then false
    else if a == "" then true
    else a[0] < b[0] || (a[0] == b[0] && Less(a[1..], b[1..]))
  }

  class Display {
    var pending: string
    /** Everything sent to the screen and to the program so far. */
    var events: seq<Event>

    constructor ()
      ensures pending == "" && events == []
    {
      pending, events := "", [];
    }

    /** The earliest query in `pending`, ties broken by the order of the query texts. */
    method FirstQuery() returns (position: int, k: int)
      ensures FactorFree(QUERIES)
      ensures (position, k) == FirstOf(QUERIES, pending)
    {
      QueriesAreFactorFree();
      position, k := -1, -1;
      for m := 0 to |QUERIES|
        invariant position < 0 ==> position == k == -1 && forall j, l :: 0 <= l < m ==> !At(pending, j, QUERIES[l].text)
        invariant 0 <= position ==> 0 <= k < m && At(pending, position, QUERIES[k].text)
        invariant 0 <= position ==>
            forall j, l :: 0 <= l < m && At(pending, j, QUERIES[l].text) ==> position < j || (position == j && k == l)
      {
        var q, best := QUERIES[m].text, if k < 0 then "" else QUERIES[k].text;
        var i := IndexOf(pending, q, 0);
        assert 0 <= i ==> i != position by {
          if 0 <= i == position {
            AlignedSame(QUERIES, pending, i, k, m);
          }
        }
        if 0 <= i && (position < 0 || i < position || (i == position && Less(q, best))) {
          position, k := i, m;
        }
      }
      if 0 <= position {
        FirstUnique(QUERIES, pending, position, k);
      }
    }

    /** The length of the longest suffix of `pending` that is a proper prefix of a query. */
    method LongestPartial() returns (keep: int)
      ensures Holds(QUERIES, pending, keep)
    {
      keep := 0;
      for k := 0 to |QUERIES|
        invariant 0 <= keep <= |pending| && (keep == 0 || Partial(QUERIES, pending, keep))
        invariant forall m, l :: 0 <= l < k && PartialOf(QUERIES[l].text, pending, m) ==> m <= keep
      {
        var q := QUERIES[k].text;
        for length := 1 to |q|
          invariant 0 <= keep <= |pending| && (keep == 0 || Partial(QUERIES, pending, keep))
          invariant forall m, l :: 0 <= l < k && PartialOf(QUERIES[l].text, pending, m) ==> m <= keep
          invariant forall m :: m < length && PartialOf(q, pending, m) ==> m <= keep
        {
          if PartialOf(q, pending, length) && keep < length {
            keep := length;
          }
        }
      }
    }

    /** One chunk of output: afterwards the events and the pending text are those of reading it behind the old pending text. */
    method Feed(chunk: string)
      modifies this
      ensures FactorFree(QUERIES)
      ensures var out := Decode(QUERIES, old(pending) + chunk);
        events == old(events) + out.events && pending == out.held
    {
      QueriesAreFactorFree();
      pending := pending + chunk;
      ghost var whole := Decode(QUERIES, pending);
      while true
        invariant FactorFree(QUERIES)
        invariant events + Decode(QUERIES, pending).events == old(events) + whole.events
        invariant Decode(QUERIES, pending).held == whole.held
        decreases |pending|
      {
        var position, k := FirstQuery();
        if position < 0 {
          break;
        }
        var q := QUERIES[k];
        ghost var rest := Decode(QUERIES, pending[position + |q.text|..]);
        var shown := Glyphs(pending[..position]);
        ConcatAssociative(events, shown, [Answered(q)], rest.events);
        events := events + shown + [Answered(q)];
        pending := pending[position + |q.text|..];
      }
      var keep := LongestPartial();
      HoldUnique(QUERIES, pending, keep);
      events := events + Glyphs(pending[..|pending| - keep]);
      pending := pending[|pending| - keep..];
    }
  }
}
