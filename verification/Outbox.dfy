/**
 The outbox file as text: entries are appended as JSON lines and read back line by line. An append can be cut
 anywhere by a crash; the result is about every sequence of complete and cut appends.

 `Stringify` writes JSON (RFC 8259) the way `JSON.stringify` does. The reader's `JSON.parse` is a parameter, of which two
 things are used: it reads the text of an entry that was written as that entry, and it accepts only texts whose brackets,
 outside of strings, are closed.
 */
module Outbox {
  import opened Strings
  import opened Wrappers

  datatype Member = Member(key: string, value: Json)

  datatype Json =
    | Null
    | Boolean(b: bool)
    | Number(text: string)
    | Text(s: string)
    | List(items: seq<Json>)
    | Object(members: seq<Member>)

  predicate NumberChar(c: char) {
    '0' <= c <= '9' || c == '-' || c == '+' || c == '.' || c == 'e' || c == 'E'
  }

  /** Numbers are spelled with number characters. */
  ghost predicate WellFormed(v: Json) {
    match v
    case Number(text) => text != "" && forall i :: 0 <= i < |text| ==> NumberChar(text[i])
    case List(items) => forall i :: 0 <= i < |items| ==> WellFormed(items[i])
    case Object(members) => forall i :: 0 <= i < |members| ==> WellFormed(members[i].value)
    case _ => true
  }

  const HEX := "0123456789abcdef"

  function EscapeChar(c: char): string {
    if c == '"' then "\\\""
    else if c == '\\' then "\\\\"
    else if c == '\n' then "\\n"
    else if c == '\r' then "\\r"
    else if c == '\t' then "\\t"
    else if c == '\U{8}' then "\\b"
    else if c == '\U{c}' then "\\f"
    else if c < ' ' then "\\u00" + [HEX[c as int / 16], HEX[c as int % 16]]
    else [c]
  }

  function Escape(s: string): string {
    if s == "" then "" else EscapeChar(s[0]) + Escape(s[1..])
  }

  function Quote(s: string): string {
    "\"" + Escape(s) + "\""
  }

  function Stringify(v: Json): string
    decreases v
  {
    match v
    case Null => "null"
    case Boolean(b) => if b then "true" else "false"
    case Number(text) => text
    case Text(s) => Quote(s)
    case List(items) => "[" + Items(items) + "]"
    case Object(members) => "{" + Members(members) + "}"
  }

  function Items(items: seq<Json>): string
    decreases items
  {
    if items == [] then ""
    else Stringify(items[0]) + (if |items| == 1 then "" else ",") + Items(items[1..])
  }

  function Members(members: seq<Member>): string
    decreases members
  {
    if members == [] then ""
    else Quote(members[0].key) + ":" + Stringify(members[0].value) + (if |members| == 1 then "" else ",") + Members(members[1..])
  }

  // ---------------------------------------------------------------------------------------------
  // Brackets outside of strings
  // ---------------------------------------------------------------------------------------------

  datatype Scan = Scan(depth: int, inString: bool, escaped: bool)

  function Next(st: Scan, c: char): Scan {
    if st.inString then
      if st.escaped then st.(escaped := false)
      else if c == '\\' then st.(escaped := true)
      else if c == '"' then st.(inString := false)
      else st
    else if c == '"' then st.(inString := true)
    else if c == '{' || c == '[' then st.(depth := st.depth + 1)
    else if c == '}' || c == ']' then st.(depth := st.depth - 1)
    else st
  }

  function ScanAll(st: Scan, t: string): Scan
    decreases |t|
  {
    if t == "" then st else ScanAll(Next(st, t[0]), t[1..])
  }

  const OUTSIDE := Scan(0, false, false)

  /** Every bracket is closed and no string is open. */
  predicate Closed(t: string) {
    ScanAll(OUTSIDE, t) == OUTSIDE
  }

  lemma ScanOne(st: Scan, c: char)
    ensures ScanAll(st, [c]) == Next(st, c)
  {
    assert [c][0] == c && [c][1..] == "";
    assert ScanAll(Next(st, c), "") == Next(st, c);
  }

  lemma {:induction false} ScanConcat(st: Scan, a: string, b: string)
    ensures ScanAll(st, a + b) == ScanAll(ScanAll(st, a), b)
    decreases |a|
  {
    if a == "" {
      assert a + b == b;
    } else {
      assert (a + b)[1..] == a[1..] + b;
      ScanConcat(Next(st, a[0]), a[1..], b);
    }
  }

  /** From `st`, the text comes back to `st`, holds no newline, and no part of it goes below the depth of `st`. */
  ghost predicate Nested(st: Scan, t: string) {
    && ScanAll(st, t) == st
    && (forall n :: 0 <= n <= |t| ==> st.depth <= ScanAll(st, t[..n]).depth)
    && '\n' !in t
  }

  lemma NestedConcat(st: Scan, a: string, b: string)
    requires Nested(st, a) && Nested(st, b)
    ensures Nested(st, a + b)
  {
    ScanConcat(st, a, b);
    forall n | 0 <= n <= |a + b|
      ensures st.depth <= ScanAll(st, (a + b)[..n]).depth
    {
      if n <= |a| {
        assert (a + b)[..n] == a[..n];
      } else {
        assert (a + b)[..n] == a + b[..n - |a|];
        ScanConcat(st, a, b[..n - |a|]);
      }
    }
  }

  /** Characters that leave the scan where it is. */
  lemma {:induction false} IdleNested(st: Scan, t: string)
    requires forall i :: 0 <= i < |t| ==> Next(st, t[i]) == st && t[i] != '\n'
    ensures Nested(st, t)
    decreases |t|
  {
    if t != "" {
      IdleNested(st, t[1..]);
      forall n | 0 <= n <= |t|
        ensures st.depth <= ScanAll(st, t[..n]).depth
      {
        if n > 0 {
          assert t[..n][1..] == t[1..][..n - 1];
        }
      }
    }
  }

  lemma PairNested(st: Scan, c: char)
    requires st.inString && !st.escaped && c != '\n'
    ensures Nested(st, ['\\', c])
  {
    var t := ['\\', c];
    assert t == ['\\'] + [c] && t[..0] == "" && t[..1] == ['\\'] && t[..2] == t;
    ScanOne(st, '\\');
    ScanOne(st.(escaped := true), c);
    ScanConcat(st, ['\\'], [c]);
    forall n | 0 <= n <= |t|
      ensures st.depth <= ScanAll(st, t[..n]).depth
    {
      assert n == 0 || n == 1 || n == 2;
    }
  }

  lemma EscapeCharNested(st: Scan, c: char)
    requires st.inString && !st.escaped
    ensures Nested(st, EscapeChar(c))
  {
    var t := EscapeChar(c);
    if |t| == 1 {
      IdleNested(st, t);
    } else {
      PairNested(st, t[1]);
      IdleNested(st, t[2..]);
      NestedConcat(st, [t[0], t[1]], t[2..]);
      assert t == [t[0], t[1]] + t[2..];
    }
  }

  lemma {:induction false} EscapeNested(st: Scan, s: string)
    requires st.inString && !st.escaped
    ensures Nested(st, Escape(s))
  {
    if s == "" {
      IdleNested(st, "");
    } else {
      EscapeCharNested(st, s[0]);
      EscapeNested(st, s[1..]);
      NestedConcat(st, EscapeChar(s[0]), Escape(s[1..]));
    }
  }

  lemma EnclosedPrefix(st: Scan, open: char, inner: string, close: char, n: nat)
    requires Nested(Next(st, open), inner) && 0 < n < |inner| + 2
    ensures Next(st, open).depth <= ScanAll(st, ([open] + inner + [close])[..n]).depth
  {
    assert ([open] + inner + [close])[..n] == [open] + inner[..n - 1];
    ScanOne(st, open);
    ScanConcat(st, [open], inner[..n - 1]);
  }

  lemma EnclosedEnd(st: Scan, open: char, inner: string, close: char)
    requires ScanAll(Next(st, open), inner) == Next(st, open)
    ensures ScanAll(st, [open] + inner + [close]) == Next(Next(st, open), close)
  {
    ScanOne(st, open);
    ScanOne(Next(st, open), close);
    ScanConcat(st, [open], inner);
    ScanConcat(st, [open] + inner, [close]);
  }

  /** Text between an opening and a closing character. Inside it, a proper prefix is visibly open. */
  lemma Enclosed(st: Scan, open: char, inner: string, close: char)
    requires !st.inString && !st.escaped && open != '\n' && close != '\n'
    requires Nested(Next(st, open), inner) && st.depth <= Next(st, open).depth && Next(Next(st, open), close) == st
    ensures Nested(st, [open] + inner + [close])
  {
    var t := [open] + inner + [close];
    EnclosedEnd(st, open, inner, close);
    forall n | 0 <= n <= |t|
      ensures st.depth <= ScanAll(st, t[..n]).depth
    {
      if n == 0 {
        assert t[..n] == "";
      } else if n == |t| {
        assert t[..n] == t;
      } else {
        EnclosedPrefix(st, open, inner, close, n);
      }
    }
  }

  lemma QuoteNested(st: Scan, s: string)
    requires !st.inString && !st.escaped
    ensures Nested(st, Quote(s))
  {
    EscapeNested(Next(st, '"'), s);
    Enclosed(st, '"', Escape(s), '"');
    assert Quote(s) == ['"'] + Escape(s) + ['"'];
  }

  lemma {:induction false} StringifyNested(st: Scan, v: Json)
    requires WellFormed(v) && !st.inString && !st.escaped
    ensures Nested(st, Stringify(v))
    decreases v
  {
    match v
    case Null => IdleNested(st, "null");
    case Boolean(b) => IdleNested(st, Stringify(v));
    case Number(text) => IdleNested(st, text);
    case Text(s) => QuoteNested(st, s);
    case List(items) =>
      ItemsNested(Next(st, '['), items);
      Enclosed(st, '[', Items(items), ']');
      assert Stringify(v) == ['['] + Items(items) + [']'];
    case Object(members) =>
      MembersNested(Next(st, '{'), members);
      Enclosed(st, '{', Members(members), '}');
      assert Stringify(v) == ['{'] + Members(members) + ['}'];
  }

  lemma {:induction false} ItemsNested(st: Scan, items: seq<Json>)
    requires !st.inString && !st.escaped && forall i :: 0 <= i < |items| ==> WellFormed(items[i])
    ensures Nested(st, Items(items))
    decreases items
  {
    if items == [] {
      IdleNested(st, "");
    } else {
      var comma := if |items| == 1 then "" else ",";
      StringifyNested(st, items[0]);
      IdleNested(st, comma);
      NestedConcat(st, Stringify(items[0]), comma);
      ItemsNested(st, items[1..]);
      NestedConcat(st, Stringify(items[0]) + comma, Items(items[1..]));
    }
  }

  lemma {:induction false} MembersNested(st: Scan, members: seq<Member>)
    requires !st.inString && !st.escaped && forall i :: 0 <= i < |members| ==> WellFormed(members[i].value)
    ensures Nested(st, Members(members))
    decreases members
  {
    if members == [] {
      IdleNested(st, "");
    } else {
      var m, comma := members[0], if |members| == 1 then "" else ",";
      QuoteNested(st, m.key);
      IdleNested(st, ":");
      NestedConcat(st, Quote(m.key), ":");
      StringifyNested(st, m.value);
      NestedConcat(st, Quote(m.key) + ":", Stringify(m.value));
      IdleNested(st, comma);
      NestedConcat(st, Quote(m.key) + ":" + Stringify(m.value), comma);
      MembersNested(st, members[1..]);
      NestedConcat(st, Quote(m.key) + ":" + Stringify(m.value) + comma, Members(members[1..]));
    }
  }

  /** A proper, nonempty prefix of an object is not closed, so it is not JSON. */
  lemma ObjectPrefixIsOpen(v: Json, n: int)
    requires WellFormed(v) && v.Object? && 0 < n < |Stringify(v)|
    ensures 0 < ScanAll(OUTSIDE, Stringify(v)[..n]).depth
  {
    MembersNested(Next(OUTSIDE, '{'), v.members);
    EnclosedPrefix(OUTSIDE, '{', Members(v.members), '}', n);
    assert Stringify(v) == ['{'] + Members(v.members) + ['}'];
  }

  // ---------------------------------------------------------------------------------------------
  // Writing and reading the file
  // ---------------------------------------------------------------------------------------------

  /** What the reader accepts has every bracket and every string closed, sections 4, 5 and 7 of RFC 8259. */
  ghost predicate RejectsOpen(parse: string -> Option<Json>) {
    forall t :: parse(t).Some? ==> Closed(t)
  }

  /** The text of each of these entries is read as that entry. */
  ghost predicate ReadsBack(parse: string -> Option<Json>, entries: seq<Json>) {
    forall i :: 0 <= i < |entries| ==> parse(Stringify(entries[i])) == Some(entries[i])
  }

  ghost predicate Entries(entries: seq<Json>) {
    forall i :: 0 <= i < |entries| ==> WellFormed(entries[i]) && entries[i].Object?
  }

  function LineTexts(entries: seq<Json>): seq<string> {
    seq(|entries|, i requires 0 <= i < |entries| => Stringify(entries[i]))
  }

  /** The text that one append adds to the file. */
  function Appended(entries: seq<Json>): string {
    if entries == [] then "" else "\n" + Joined(LineTexts(entries)) + "\n"
  }

  function Parsed(lines: seq<string>, parse: string -> Option<Json>): seq<Json> {
    if lines == [] then []
    else
      var n := |lines| - 1;
      Parsed(lines[..n], parse) +
      if Blank(lines[n]) then [] else match parse(lines[n]) case Some(v) => [v] case None => []
  }

  method ReadOutbox(raw: string, parse: string -> Option<Json>) returns (entries: seq<Json>)
    ensures entries == Parsed(Lines(raw), parse)
  {
    entries := [];
    var lines := Lines(raw);
    for i := 0 to |lines|
      invariant entries == Parsed(lines[..i], parse)
    {
      assert lines[..i + 1][..i] == lines[..i];
      if Blank(lines[i]) {
        continue;
      }
      match parse(lines[i])
      case Some(v) => entries := entries + [v];
      case None =>
    }
    assert lines[..|lines|] == lines;
  }

  lemma {:induction false} ParsedConcat(a: seq<string>, b: seq<string>, parse: string -> Option<Json>)
    ensures Parsed(a + b, parse) == Parsed(a, parse) + Parsed(b, parse)
    decreases |b|
  {
    if b == [] {
      assert a + b == a;
    } else {
      var n := |b| - 1;
      assert (a + b)[..|a + b| - 1] == a + b[..n];
      ParsedConcat(a, b[..n], parse);
    }
  }

  /** Reading what stands before and after a line end. */
  lemma ReadAtNewline(a: string, b: string, parse: string -> Option<Json>)
    ensures Parsed(Lines(a + "\n" + b), parse) == Parsed(Lines(a), parse) + Parsed(Lines(b), parse)
  {
    LinesAtNewline(a, b);
    ParsedConcat(Lines(a), Lines(b), parse);
  }

  lemma ParsedOne(line: string, parse: string -> Option<Json>)
    ensures Parsed([line], parse) == if Blank(line) then [] else match parse(line) case Some(v) => [v] case None => []
  {
    assert |[line]| == 1 && Parsed([line][..0], parse) == [];
  }

  /** A line that holds the whole text of an entry reads as that entry. */
  lemma ReadWhole(v: Json, parse: string -> Option<Json>)
    requires WellFormed(v) && v.Object? && parse(Stringify(v)) == Some(v)
    ensures Parsed(Lines(Stringify(v)), parse) == [v]
  {
    var line := Stringify(v);
    StringifyNested(OUTSIDE, v);
    LinesOfOne(line);
    assert line[0] == '{' && !Blank(line);
    ParsedOne(line, parse);
  }

  /** A line that holds only a part of it, perhaps with a broken last character, reads as nothing. */
  lemma ReadTorn(v: Json, n: nat, broken: bool, parse: string -> Option<Json>)
    requires RejectsOpen(parse) && WellFormed(v) && v.Object? && n < |Stringify(v)|
    requires broken ==> 0 < n && ScanAll(OUTSIDE, Stringify(v)[..n]).inString
    ensures Parsed(Lines(Torn(Stringify(v)[..n], broken)), parse) == []
  {
    var line := Stringify(v)[..n];
    var torn := Torn(line, broken);
    StringifyNested(OUTSIDE, v);
    LinesOfOne(torn);
    ParsedOne(torn, parse);
    if n > 0 {
      ObjectPrefixIsOpen(v, n);
      ScanConcat(OUTSIDE, line, ['\U{fffd}']);
      ScanOne(ScanAll(OUTSIDE, line), '\U{fffd}');
      assert !Closed(torn);
    }
  }

  /** A cut inside the UTF-8 form of a character leaves bytes that read as the replacement character. */
  function Torn(text: string, broken: bool): string {
    if broken then text + ['\U{fffd}'] else text
  }

  /** The entries whose line lies whole within the first `n` characters of the joined lines. */
  function Written(entries: seq<Json>, n: nat): (k: nat)
    ensures k <= |entries|
    decreases |entries|
  {
    if entries == [] then 0
    else
      var l := |Stringify(entries[0])|;
      if n < l then 0
      else if n == l then 1
      else 1 + Written(entries[1..], n - l - 1)
  }

  /** Where a character of the joined lines can be broken: only inside a string. */
  predicate BreaksInString(text: string, broken: bool) {
    broken ==> text != "" && ScanAll(OUTSIDE, LastLine(text)).inString
  }

  function LastLine(text: string): string {
    var lines := Lines(text);
    lines[|lines| - 1]
  }

  lemma LastLineAtNewline(a: string, b: string)
    ensures LastLine(a + "\n" + b) == LastLine(b)
  {
    LinesAtNewline(a, b);
  }

  /** The joined lines and the last line end, line by line. */
  function Body(entries: seq<Json>): string {
    if entries == [] then "" else Stringify(entries[0]) + "\n" + Body(entries[1..])
  }

  lemma {:induction false} BodyIsJoined(entries: seq<Json>)
    requires entries != []
    ensures Body(entries) == Joined(LineTexts(entries)) + "\n"
    decreases |entries|
  {
    if |entries| > 1 {
      assert LineTexts(entries)[1..] == LineTexts(entries[1..]);
      BodyIsJoined(entries[1..]);
    }
  }

  /** The first `n` characters of the lines, read alone, give exactly the entries written whole. */
  lemma {:induction false} ReadPrefix(entries: seq<Json>, n: nat, broken: bool, parse: string -> Option<Json>)
    requires RejectsOpen(parse) && Entries(entries) && ReadsBack(parse, entries)
    requires n <= |Body(entries)| && BreaksInString(Body(entries)[..n], broken)
    ensures Parsed(Lines(Torn(Body(entries)[..n], broken)), parse) == entries[..Written(entries, n)]
    decreases |entries|
  {
    hide RejectsOpen, Parsed, Lines, Torn, Stringify, WellFormed, BreaksInString;
    if entries == [] {
      ReadNothing(broken, parse);
    } else if n <= |Stringify(entries[0])| {
      ReadWithinFirst(entries, n, broken, parse);
    } else {
      RestIsTorn(Stringify(entries[0]), Body(entries[1..]), n, broken);
      ReadPrefix(entries[1..], n - |Stringify(entries[0])| - 1, broken, parse);
      ReadBehindFirst(entries, n, broken, parse);
    }
  }

  lemma ReadBehindFirst(entries: seq<Json>, n: nat, broken: bool, parse: string -> Option<Json>)
    requires Entries(entries) && entries != [] && parse(Stringify(entries[0])) == Some(entries[0])
    requires |Stringify(entries[0])| < n <= |Body(entries)|
    requires var k := n - |Stringify(entries[0])| - 1;
      Parsed(Lines(Torn(Body(entries[1..])[..k], broken)), parse) == entries[1..][..Written(entries[1..], k)]
    ensures Parsed(Lines(Torn(Body(entries)[..n], broken)), parse) == entries[..Written(entries, n)]
  {
    var k := n - |Stringify(entries[0])| - 1;
    WrittenBehindFirst(entries, n);
    hide *;
    ReadFirst(entries[0], Body(entries[1..])[..k], broken, parse);
  }

  lemma WrittenBehindFirst(entries: seq<Json>, n: nat)
    requires Entries(entries) && entries != [] && |Stringify(entries[0])| < n <= |Body(entries)|
    ensures var k := n - |Stringify(entries[0])| - 1;
      && WellFormed(entries[0]) && entries[0].Object? && k <= |Body(entries[1..])|
      && Body(entries)[..n] == Stringify(entries[0]) + "\n" + Body(entries[1..])[..k]
      && entries[..Written(entries, n)] == [entries[0]] + entries[1..][..Written(entries[1..], k)]
  {
    var k := n - |Stringify(entries[0])| - 1;
    PrefixBehindFirst(Stringify(entries[0]), Body(entries[1..]), n);
    FirstAndPrefix(entries, Written(entries[1..], k));
  }

  lemma FirstAndPrefix(entries: seq<Json>, j: nat)
    requires j < |entries|
    ensures entries[..1 + j] == [entries[0]] + entries[1..][..j]
  {
  }

  lemma ReadNothing(broken: bool, parse: string -> Option<Json>)
    requires BreaksInString("", broken)
    ensures Parsed(Lines(Torn("", broken)), parse) == []
  {
    ParsedOne("", parse);
  }

  lemma RestIsTorn(line: string, rest: string, n: nat, broken: bool)
    requires |line| < n <= |line| + 1 + |rest| && BreaksInString((line + "\n" + rest)[..n], broken)
    ensures BreaksInString(rest[..n - |line| - 1], broken)
    ensures (line + "\n" + rest)[..n] == line + "\n" + rest[..n - |line| - 1]
  {
    PrefixBehindFirst(line, rest, n);
    LastLineAtNewline(line, rest[..n - |line| - 1]);
    if rest[..n - |line| - 1] == "" {
      assert LastLine("") == "";
    }
  }

  lemma PrefixBehindFirst(line: string, rest: string, n: nat)
    requires |line| < n <= |line| + 1 + |rest|
    ensures (line + "\n" + rest)[..n] == line + "\n" + rest[..n - |line| - 1]
  {
  }

  lemma ReadWithinFirst(entries: seq<Json>, n: nat, broken: bool, parse: string -> Option<Json>)
    requires RejectsOpen(parse) && Entries(entries) && entries != [] && parse(Stringify(entries[0])) == Some(entries[0])
    requires n <= |Stringify(entries[0])|
    requires BreaksInString(Body(entries)[..n], broken)
    ensures Parsed(Lines(Torn(Body(entries)[..n], broken)), parse) == entries[..Written(entries, n)]
  {
    var line := Stringify(entries[0]);
    assert Body(entries)[..n] == line[..n];
    StringifyNested(OUTSIDE, entries[0]);
    LinesOfOne(line[..n]);
    if n < |line| {
      ReadTorn(entries[0], n, broken, parse);
    } else {
      assert line[..n] == line;
      ReadWhole(entries[0], parse);
    }
  }

  /** The first line whole, whatever follows it. */
  lemma ReadFirst(v: Json, rest: string, broken: bool, parse: string -> Option<Json>)
    requires WellFormed(v) && v.Object? && parse(Stringify(v)) == Some(v)
    ensures Parsed(Lines(Torn(Stringify(v) + "\n" + rest, broken)), parse) == [v] + Parsed(Lines(Torn(rest, broken)), parse)
  {
    var line := Stringify(v);
    assert Torn(line + "\n" + rest, broken) == line + "\n" + Torn(rest, broken);
    ReadAtNewline(line, Torn(rest, broken), parse);
    ReadWhole(v, parse);
  }

  // ---------------------------------------------------------------------------------------------
  // Any number of appends, each cut anywhere
  // ---------------------------------------------------------------------------------------------

  /** An append of `entries` of which the first `n` characters reached the file, and perhaps a piece of the next one. */
  datatype Append = Append(entries: seq<Json>, n: nat, broken: bool)

  ghost predicate Possible(a: Append) {
    && Entries(a.entries) && a.n <= |Appended(a.entries)|
    && (a.broken ==> 0 < a.n)
    && (a.n > 0 ==> BreaksInString(Appended(a.entries)[1..a.n], a.broken))
  }

  ghost function OnDisk(a: Append): string
    requires Possible(a)
  {
    Torn(Appended(a.entries)[..a.n], a.broken)
  }

  /** The entries of the append whose line was fully written. */
  function Survivors(a: Append): seq<Json> {
    if a.n == 0 || a.entries == [] then [] else a.entries[..Written(a.entries, a.n - 1)]
  }

  ghost function File(appends: seq<Append>): string
    requires forall i :: 0 <= i < |appends| ==> Possible(appends[i])
  {
    if appends == [] then "" else File(appends[..|appends| - 1]) + OnDisk(appends[|appends| - 1])
  }

  function AllSurvivors(appends: seq<Append>): seq<Json> {
    if appends == [] then [] else AllSurvivors(appends[..|appends| - 1]) + Survivors(appends[|appends| - 1])
  }

  /** One more append, complete or cut, adds exactly the entries whose line was fully written. */
  lemma ReadAppend(file: string, a: Append, parse: string -> Option<Json>)
    requires RejectsOpen(parse) && Possible(a) && ReadsBack(parse, a.entries)
    ensures Parsed(Lines(file + OnDisk(a)), parse) == Parsed(Lines(file), parse) + Survivors(a)
  {
    hide RejectsOpen, ReadsBack, Parsed, Lines, Written, Joined, LineTexts, BreaksInString, Body;
    if a.n == 0 || a.entries == [] {
      assert file + OnDisk(a) == file;
    } else {
      var body := Body(a.entries);
      BodyIsJoined(a.entries);
      assert Appended(a.entries) == "\n" + body;
      assert Appended(a.entries)[1..a.n] == body[..a.n - 1];
      ReadPrefix(a.entries, a.n - 1, a.broken, parse);
      TornBehindNewline(file, body, a.n, a.broken);
      ReadAtNewline(file, Torn(body[..a.n - 1], a.broken), parse);
    }
  }

  lemma TornBehindNewline(file: string, body: string, n: nat, broken: bool)
    requires 0 < n <= |body| + 1
    ensures file + Torn(("\n" + body)[..n], broken) == file + "\n" + Torn(body[..n - 1], broken)
  {
    assert ("\n" + body)[..n] == "\n" + body[..n - 1];
  }

  /** Main result: after any mix of complete and cut appends, the file reads as the fully written entries, in order. */
  lemma {:induction false} TornWriteRoundTrip(appends: seq<Append>, parse: string -> Option<Json>)
    requires RejectsOpen(parse) && forall i :: 0 <= i < |appends| ==> Possible(appends[i]) && ReadsBack(parse, appends[i].entries)
    ensures Parsed(Lines(File(appends)), parse) == AllSurvivors(appends)
    decreases |appends|
  {
    if appends == [] {
      ParsedOne("", parse);
    } else {
      var n := |appends| - 1;
      TornWriteRoundTrip(appends[..n], parse);
      ReadAppend(File(appends[..n]), appends[n], parse);
    }
  }

  /** A complete append loses nothing. */
  lemma CompleteAppendSurvives(entries: seq<Json>)
    ensures Survivors(Append(entries, |Appended(entries)|, false)) == entries
  {
    if entries != [] {
      BodyIsJoined(entries);
      WrittenAll(entries);
    }
  }

  lemma {:induction false} WrittenAll(entries: seq<Json>)
    ensures Written(entries, |Body(entries)|) == |entries|
    decreases |entries|
  {
    if entries != [] {
      WrittenAll(entries[1..]);
    }
  }
}
