/**
 `splitCommand`: a shell command cut into segments at its operators and line ends, with heredoc bodies kept apart.

 A `Scan` is the state of the scanner between two turns of its loop; `Turn` is one turn and `Split` the whole scan.
 `Scanner` does the same in place. A heredoc remembers the segment that opened it by its position in the list of
 segments, the one being built counting as the last. What a turn consumed is described by `Pieces`, and the results
 say that the pieces are the command, and where each piece went.
 */
module CommandBlock {
  import opened Strings
  import opened Wrappers

  datatype Segment = Segment(text: string, body: seq<string>, end: seq<string>)

  /** `opening` is the text that opened the heredoc; only the results speak of it. */
  datatype Heredoc = Heredoc(delimiter: string, strip: bool, owner: nat, opening: string)

  datatype Scan = Scan(i: nat, segments: seq<Segment>, segment: Segment, pending: seq<Heredoc>, quote: Option<char>, depth: nat)

  datatype Tag = Tag(end: nat, delimiter: string, strip: bool)

  const EMPTY := Segment("", [], [])

  /** `slice`, which takes an end behind the text for the end of the text. */
  function Slice(s: string, from: nat, to: nat): string {
    if |s| <= from || to <= from then "" else if to <= |s| then s[from..to] else s[from..]
  }

  predicate CharAt(s: string, i: nat, c: char) {
    i < |s| && s[i] == c
  }

  // ---------------------------------------------------------------------------------------------
  // The command, heredoc tags and heredoc lines
  // ---------------------------------------------------------------------------------------------

  /** Line ends "\r\n" and "\r" become "\n". */
  function Normalized(s: string): string {
    if s == "" then ""
    else if s[0] == '\r' then "\n" + Normalized(if CharAt(s, 1, '\n') then s[2..] else s[1..])
    else [s[0]] + Normalized(s[1..])
  }

  predicate DelimiterEnd(c: char) {
    IsSpace(c) || c in ";&|<>()"
  }

  function SkipBlanks(s: string, at: nat): (r: nat)
    ensures at <= r
    decreases |s| - at
  {
    if CharAt(s, at, ' ') || CharAt(s, at, '\t') then SkipBlanks(s, at + 1) else at
  }

  /** An unquoted delimiter and where it ends; a backslash at the very end is skipped together with nothing. */
  function BareDelimiter(s: string, at: nat): (r: (string, nat))
    ensures at <= r.1
    decreases |s| - at
  {
    if |s| <= at || DelimiterEnd(s[at]) then ("", at)
    else if s[at] == '\\' then BareDelimiter(s, at + 2)
    else
      var (rest, end) := BareDelimiter(s, at + 1);
      ([s[at]] + rest, end)
  }

  function ReadHeredocTag(s: string, from: nat): (r: Option<Tag>)
    ensures r.Some? ==> from + 2 <= r.value.end && r.value.delimiter != ""
  {
    var strip := CharAt(s, from + 2, '-');
    var at := SkipBlanks(s, if strip then from + 3 else from + 2);
    if CharAt(s, at, '\'') || CharAt(s, at, '"') then
      var close := IndexOfChar(s, s[at], at + 1);
      if close < 0 || close == at + 1 then None else Some(Tag(close + 1, s[at + 1..close], strip))
    else
      var (delimiter, end) := BareDelimiter(s, at);
      if delimiter == "" then None else Some(Tag(end, delimiter, strip))
  }

  function StripTabs(line: string): string {
    if line != "" && line[0] == '\t' then StripTabs(line[1..]) else line
  }

  predicate Terminates(line: string, delimiter: string, strip: bool) {
    (if strip then StripTabs(line) else line) == delimiter
  }

  /** The lines of one heredoc from `next` on: its body, its terminator if there is one, and where to go on. */
  datatype Lines = Lines(body: seq<string>, end: seq<string>, next: nat)

  function LineEnd(s: string, from: nat): (r: nat)
    requires from <= |s|
    ensures from <= r <= |s| && (r < |s| ==> s[r] == '\n')
  {
    var stop := IndexOfChar(s, '\n', from);
    if stop < 0 then |s| else stop
  }

  function ReadLines(s: string, next: nat, delimiter: string, strip: bool): (r: Lines)
    ensures next <= r.next <= (if next <= |s| then |s| + 1 else next)
    decreases |s| + 1 - next
  {
    if |s| < next then Lines([], [], next)
    else
      var lineEnd := LineEnd(s, next);
      var line := s[next..lineEnd];
      if Terminates(line, delimiter, strip) then Lines([], [line], lineEnd + 1)
      else if lineEnd == |s| then Lines([line], [], lineEnd + 1)
      else
        var rest := ReadLines(s, lineEnd + 1, delimiter, strip);
        Lines([line] + rest.body, rest.end, rest.next)
  }

  /** One line of `ReadLines`. */
  lemma ReadLinesStep(s: string, next: nat, delimiter: string, strip: bool)
    requires next <= |s|
    ensures var lineEnd := LineEnd(s, next);
      var line, rest := s[next..lineEnd], ReadLines(s, lineEnd + 1, delimiter, strip);
      ReadLines(s, next, delimiter, strip) ==
        if Terminates(line, delimiter, strip) then Lines([], [line], lineEnd + 1)
        else if lineEnd == |s| then Lines([line], [], lineEnd + 1)
        else Lines([line] + rest.body, rest.end, rest.next)
  {
    hide Terminates, LineEnd;
  }

  // ---------------------------------------------------------------------------------------------
  // One turn of the scanner
  // ---------------------------------------------------------------------------------------------

  function TrimBlanks(s: string): (r: string)
    ensures NonSpace(r) == NonSpace(s)
    decreases |s|
  {
    if s != "" && (s[|s| - 1] == ' ' || s[|s| - 1] == '\t') then
      var n := |s| - 1;
      NonSpaceConcat(s[..n], s[n..]);
      assert s == s[..n] + s[n..] && NonSpace(s[n..]) == "";
      TrimBlanks(s[..n])
    else s
  }

  predicate Worth(segment: Segment) {
    Trim(segment.text) != "" || segment.body != [] || segment.end != []
  }

  function Flushed(s: Scan, operator: string): Scan {
    var segment := s.segment.(text := TrimBlanks(s.segment.text));
    s.(segments := if Worth(segment) then s.segments + [segment] else s.segments,
       segment := Segment(if operator == "" then "" else operator + " ", [], []))
  }

  predicate AtStart(text: string) {
    text == "" || Trim(text) in ["&&", "||", "|&", ";", "|"]
  }

  function Typed(s: Scan, text: string, i: nat): Scan {
    s.(segment := s.segment.(text := s.segment.text + text), i := i)
  }

  /** Every segment, the one being built last. */
  function All(s: Scan): seq<Segment> {
    s.segments + [s.segment]
  }

  /** The lines of a heredoc go to the segment that opened it. */
  function Given(s: Scan, owner: nat, lines: Lines): Scan {
    if owner < |s.segments| then
      var o := s.segments[owner];
      s.(segments := s.segments[owner := o.(body := o.body + lines.body, end := o.end + lines.end)])
    else s.(segment := s.segment.(body := s.segment.body + lines.body, end := s.segment.end + lines.end))
  }

  /** The pending heredocs take their lines, one after the other, from `next` on. */
  function TakeLines(source: string, s: Scan, pending: seq<Heredoc>, next: nat): (r: (Scan, nat))
    ensures next <= r.1
    decreases |pending|
  {
    if pending == [] then (s, next)
    else
      var h := pending[0];
      var lines := ReadLines(source, next, h.delimiter, h.strip);
      TakeLines(source, Given(s, h.owner, lines), pending[1..], lines.next)
  }

  function TurnInQuote(source: string, s: Scan): Scan
    requires s.i < |source| && s.quote.Some?
  {
    var c := source[s.i];
    if c == '\\' && s.quote.value != '\'' && s.i + 1 < |source| then Typed(s, [c, source[s.i + 1]], s.i + 2)
    else if c == s.quote.value then Typed(s, [c], s.i + 1).(quote := None)
    else Typed(s, [c], s.i + 1)
  }

  function TurnAtNewline(source: string, s: Scan): Scan
    requires s.i < |source|
  {
    if s.depth > 0 then Typed(s, "\n", s.i + 1)
    else
      var (s', next) := TakeLines(source, s.(pending := []), s.pending, s.i + 1);
      var s'' := if AtStart(s'.segment.text) then Typed(s', " ", s'.i) else Flushed(s', "");
      s''.(i := if next < |source| then next else |source|)
  }

  function OperatorAt(source: string, i: nat): string
    requires i < |source|
  {
    var pair := Slice(source, i, i + 2);
    if pair == "&&" || pair == "||" || pair == "|&" || pair == ";;" then pair
    else if source[i] == ';' || source[i] == '|' then [source[i]]
    else ""
  }

  function TurnElse(source: string, s: Scan): Scan
    requires s.i < |source|
  {
    var c := source[s.i];
    var operator := if s.depth == 0 then OperatorAt(source, s.i) else "";
    if operator == ";;" then Typed(s, operator, s.i + 2)
    else if operator != "" then Flushed(s, operator).(i := s.i + |operator|)
    else if (c == ' ' || c == '\t') && AtStart(s.segment.text) then s.(i := s.i + 1)
    else Typed(s, [c], s.i + 1)
  }

  /** Parentheses are counted, down to zero. */
  function Deeper(s: Scan, c: char): Scan {
    s.(depth := if c == '(' then s.depth + 1 else if c == ')' && s.depth > 0 then s.depth - 1 else s.depth)
  }

  function TagAt(source: string, s: Scan): Option<Tag>
    requires s.i < |source|
  {
    if source[s.i] == '<' && CharAt(source, s.i + 1, '<') && s.depth == 0 then ReadHeredocTag(source, s.i) else None
  }

  function Opened(source: string, s: Scan, tag: Tag): Scan {
    var opening := Slice(source, s.i, tag.end);
    Typed(s, opening, tag.end).(pending := s.pending + [Heredoc(tag.delimiter, tag.strip, |s.segments|, opening)])
  }

  /** A turn outside of quotes, escapes and comments. */
  function TurnOutside(source: string, s: Scan): Scan
    requires s.i < |source|
  {
    var c := source[s.i];
    if c == '<' && CharAt(source, s.i + 1, '<') && s.depth == 0 && CharAt(source, s.i + 2, '<') then Typed(s, "<<<", s.i + 3)
    else if TagAt(source, s).Some? then Opened(source, s, TagAt(source, s).value)
    else if c == '\n' then TurnAtNewline(source, s)
    else TurnElse(source, s)
  }

  function Turn(source: string, s: Scan): Scan
    requires s.i < |source|
  {
    var c := source[s.i];
    if s.quote.Some? then TurnInQuote(source, s)
    else if c == '\\' && s.i + 1 < |source| then Typed(s, [c, source[s.i + 1]], s.i + 2)
    else if c == '\'' || c == '"' || c == '`' then Typed(s, [c], s.i + 1).(quote := Some(c))
    else if c == '#' && (s.i == 0 || IsSpace(source[s.i - 1])) then
      var end := LineEnd(source, s.i);
      Typed(s, source[s.i..end], end)
    else TurnOutside(source, Deeper(s, c))
  }

  lemma TurnAdvances(source: string, s: Scan)
    requires s.i < |source|
    ensures s.i < Turn(source, s).i
  {
  }

  function Run(source: string, s: Scan): Scan
    decreases |source| - s.i
  {
    if |source| <= s.i then s
    else
      TurnAdvances(source, s);
      Run(source, Turn(source, s))
  }

  const START := Scan(0, [], EMPTY, [], None, 0)

  function Source(command: string): string {
    Trim(Normalized(command))
  }

  function Split(command: string): seq<Segment> {
    Flushed(Run(Source(command), START), "").segments
  }

  // ---------------------------------------------------------------------------------------------
  // What a turn consumes
  // ---------------------------------------------------------------------------------------------

  /** A stretch of the command: text of the command itself, or the lines taken by one heredoc. */
  datatype Piece = Code(text: string) | Document(heredoc: Heredoc, body: seq<string>, end: seq<string>)

  function Documents(source: string, pending: seq<Heredoc>, next: nat): seq<Piece> {
    if pending == [] then []
    else
      var h := pending[0];
      var lines := ReadLines(source, next, h.delimiter, h.strip);
      [Document(h, lines.body, lines.end)] + Documents(source, pending[1..], lines.next)
  }

  predicate EndsLine(source: string, s: Scan)
    requires s.i < |source|
  {
    s.quote.None? && source[s.i] == '\n' && s.depth == 0
  }

  function TurnPieces(source: string, s: Scan): seq<Piece>
    requires s.i < |source|
  {
    if EndsLine(source, s) then [Code("\n")] + Documents(source, s.pending, s.i + 1)
    else [Code(Slice(source, s.i, Turn(source, s).i))]
  }

  function Pieces(source: string, s: Scan): seq<Piece>
    decreases |source| - s.i
  {
    if |source| <= s.i then []
    else
      TurnAdvances(source, s);
      TurnPieces(source, s) + Pieces(source, Turn(source, s))
  }

  function RawLines(lines: seq<string>): string {
    if lines == [] then "" else lines[0] + "\n" + RawLines(lines[1..])
  }

  function RawPiece(piece: Piece): string {
    if piece.Code? then piece.text else RawLines(piece.body + piece.end)
  }

  /** The text of the command that the pieces stand for. */
  function Raw(pieces: seq<Piece>): string {
    if pieces == [] then "" else RawPiece(pieces[0]) + Raw(pieces[1..])
  }

  function CodePiece(piece: Piece): string {
    if piece.Code? then piece.text else ""
  }

  /** The pieces without the heredoc lines. */
  function CodeOf(pieces: seq<Piece>): string {
    if pieces == [] then "" else CodePiece(pieces[0]) + CodeOf(pieces[1..])
  }

  /** The body and terminator lines that a piece gives to segment `k`. */
  function LinesOf(piece: Piece, k: nat): Segment {
    if piece.Document? && piece.heredoc.owner == k then Segment("", piece.body, piece.end) else EMPTY
  }

  /** The body lines that belong to segment `k`, in order. */
  function BodyLines(pieces: seq<Piece>, k: nat): seq<string> {
    if pieces == [] then [] else LinesOf(pieces[0], k).body + BodyLines(pieces[1..], k)
  }

  /** The terminator lines that belong to segment `k`, in order. */
  function EndLines(pieces: seq<Piece>, k: nat): seq<string> {
    if pieces == [] then [] else LinesOf(pieces[0], k).end + EndLines(pieces[1..], k)
  }

  function Texts(segments: seq<Segment>): string {
    if segments == [] then "" else Texts(segments[..|segments| - 1]) + segments[|segments| - 1].text
  }

  function BodyAt(segments: seq<Segment>, k: nat): seq<string> {
    if k < |segments| then segments[k].body else []
  }

  function EndAt(segments: seq<Segment>, k: nat): seq<string> {
    if k < |segments| then segments[k].end else []
  }

  // ---------------------------------------------------------------------------------------------
  // The pieces are the command
  // ---------------------------------------------------------------------------------------------

  lemma {:induction false} RawAppend(a: seq<Piece>, b: seq<Piece>)
    ensures Raw(a + b) == Raw(a) + Raw(b)
    decreases |a|
  {
    if a == [] {
      assert a + b == b;
    } else {
      assert (a + b)[1..] == a[1..] + b;
      hide RawPiece;
      RawAppend(a[1..], b);
    }
  }

  lemma {:induction false} CodeAppend(a: seq<Piece>, b: seq<Piece>)
    ensures CodeOf(a + b) == CodeOf(a) + CodeOf(b)
    decreases |a|
  {
    if a == [] {
      assert a + b == b;
    } else {
      assert (a + b)[1..] == a[1..] + b;
      hide CodePiece;
      CodeAppend(a[1..], b);
    }
  }

  lemma Cut(s: string, a: nat, b: nat, c: nat)
    requires a <= b <= c <= |s|
    ensures s[a..c] == s[a..b] + s[b..c]
  {
  }

  /** The lines a heredoc takes are the lines of the text, with a line end behind the last one. */
  lemma {:induction false} RawLinesRead(source: string, next: nat, delimiter: string, strip: bool)
    requires next <= |source| + 1
    ensures var lines := ReadLines(source, next, delimiter, strip);
      RawLines(lines.body + lines.end) == (source + "\n")[next..lines.next]
    decreases |source| + 1 - next
  {
    hide *;
    if |source| < next {
      ReadNoLines(source, next, delimiter, strip);
    } else {
      ReadLinesStep(source, next, delimiter, strip);
      var lineEnd := LineEnd(source, next);
      var line := source[next..lineEnd];
      LineWithEnd(source, next, lineEnd);
      OneRawLine(line);
      if !Terminates(line, delimiter, strip) && lineEnd < |source| {
        RawLinesRead(source, lineEnd + 1, delimiter, strip);
        var rest := ReadLines(source, lineEnd + 1, delimiter, strip);
        Cut(source + "\n", next, lineEnd + 1, rest.next);
        RawLinesFirst(line, rest.body, rest.end);
      }
    }
  }

  lemma ReadNoLines(source: string, next: nat, delimiter: string, strip: bool)
    requires next == |source| + 1
    ensures ReadLines(source, next, delimiter, strip) == Lines([], [], next)
    ensures RawLines([] + []) == "" == (source + "\n")[next..next]
  {
  }

  lemma LineWithEnd(source: string, next: nat, lineEnd: nat)
    requires next <= lineEnd <= |source| && (lineEnd < |source| ==> source[lineEnd] == '\n')
    ensures (source + "\n")[next..lineEnd + 1] == source[next..lineEnd] + "\n"
  {
  }

  lemma RawLinesFirst(line: string, body: seq<string>, end: seq<string>)
    ensures RawLines([line] + body + end) == line + "\n" + RawLines(body + end)
  {
    assert ([line] + body + end)[1..] == body + end;
  }

  lemma OneRawLine(line: string)
    ensures RawLines([] + [line]) == line + "\n" && RawLines([line] + []) == line + "\n"
  {
    assert [] + [line] == [line] && [line] + [] == [line];
    assert [line][1..] == [] && RawLines([]) == "";
  }

  lemma {:induction false} RawDocuments(source: string, s: Scan, pending: seq<Heredoc>, next: nat)
    requires next <= |source| + 1
    ensures var end := TakeLines(source, s, pending, next).1;
      next <= end <= |source| + 1 && Raw(Documents(source, pending, next)) == (source + "\n")[next..end]
    decreases |pending|
  {
    if pending != [] {
      var h := pending[0];
      var lines := ReadLines(source, next, h.delimiter, h.strip);
      RawLinesRead(source, next, h.delimiter, h.strip);
      RawDocuments(source, Given(s, h.owner, lines), pending[1..], lines.next);
      var end := TakeLines(source, s, pending, next).1;
      Cut(source + "\n", next, lines.next, end);
    }
  }

  /** A turn's pieces are the text it moved over; only a heredoc without terminator adds a line end behind the last line. */
  lemma RawTurn(source: string, s: Scan)
    requires s.i < |source|
    ensures var t, raw := Turn(source, s), Raw(TurnPieces(source, s));
      raw == Slice(source, s.i, t.i) || (t.i == |source| && raw == source[s.i..] + "\n")
  {
    if EndsLine(source, s) {
      RawNewline(source, s);
    } else {
      OneCode(Slice(source, s.i, Turn(source, s).i));
    }
  }

  lemma RawNewline(source: string, s: Scan)
    requires s.i < |source| && EndsLine(source, s)
    ensures var t, raw := Turn(source, s), Raw(TurnPieces(source, s));
      raw == Slice(source, s.i, t.i) || (t.i == |source| && raw == source[s.i..] + "\n")
  {
    hide *;
    var end := TakeLines(source, s.(pending := []), s.pending, s.i + 1).1;
    NewlineTurn(source, s);
    RawDocuments(source, s.(pending := []), s.pending, s.i + 1);
    NewlineAndRest(source, s.i, end);
    OneCode("\n");
    RawAppend([Code("\n")], Documents(source, s.pending, s.i + 1));
  }

  lemma NewlineTurn(source: string, s: Scan)
    requires s.i < |source| && EndsLine(source, s)
    ensures source[s.i] == '\n' && Turn(source, s) == TurnAtNewline(source, s)
    ensures TurnPieces(source, s) == [Code("\n")] + Documents(source, s.pending, s.i + 1)
    ensures var end := TakeLines(source, s.(pending := []), s.pending, s.i + 1).1;
      Turn(source, s).i == if end < |source| then end else |source|
  {
    hide TakeLines, Documents, Flushed, AtStart, TurnElse, TurnInQuote, ReadHeredocTag, CharAt;
    assert Deeper(s, '\n') == s;
  }

  lemma NewlineAndRest(source: string, i: nat, end: nat)
    requires i < |source| && source[i] == '\n' && i < end <= |source| + 1
    ensures var raw := "\n" + (source + "\n")[i + 1..end];
      if end <= |source| then raw == Slice(source, i, end) else raw == source[i..] + "\n"
  {
    Cut(source + "\n", i, i + 1, end);
    if end <= |source| {
      assert (source + "\n")[i..end] == source[i..end];
    } else {
      assert (source + "\n")[i..end] == source[i..] + "\n";
    }
  }

  lemma OneCode(text: string)
    ensures Raw([Code(text)]) == text && CodeOf([Code(text)]) == text
    ensures forall k: nat :: BodyLines([Code(text)], k) == [] && EndLines([Code(text)], k) == []
  {
    assert [Code(text)][1..] == [];
    assert text + "" == text;
  }

  lemma {:induction false} RawRun(source: string, s: Scan)
    ensures var rest := Slice(source, s.i, |source|);
      Raw(Pieces(source, s)) == rest || Raw(Pieces(source, s)) == rest + "\n"
    decreases |source| - s.i
  {
    if s.i < |source| {
      TurnAdvances(source, s);
      var t := Turn(source, s);
      RawTurn(source, s);
      RawRun(source, t);
      RawAppend(TurnPieces(source, s), Pieces(source, t));
      hide Turn, TurnPieces;
      SliceJoins(source, s.i, t.i);
      if Raw(TurnPieces(source, s)) != Slice(source, s.i, t.i) {
        assert Pieces(source, t) == [];
        assert Raw(TurnPieces(source, s) + []) == Raw(TurnPieces(source, s)) + "";
      }
    }
  }

  lemma SliceJoins(source: string, i: nat, j: nat)
    requires i < |source| && i < j
    ensures Slice(source, i, j) + Slice(source, j, |source|) == Slice(source, i, |source|)
  {
  }

  // ---------------------------------------------------------------------------------------------
  // The segments hold the code, and the heredoc lines of their own heredocs
  // ---------------------------------------------------------------------------------------------

  function TextAt(segments: seq<Segment>, k: nat): string {
    if k < |segments| then segments[k].text else ""
  }

  /** Apart from white space, the text contains what opened the heredoc. */
  ghost predicate Opens(text: string, h: Heredoc) {
    h.opening != "" && h.opening[0] == '<' && exists a, b :: NonSpace(text) == a + NonSpace(h.opening) + b
  }

  /** Pending heredocs belong to the segments that opened them. */
  ghost predicate OwnersOk(s: Scan) {
    forall h :: h in s.pending ==> h.owner <= |s.segments| && Opens(TextAt(All(s), h.owner), h)
  }

  /** What a segment's text opened, it goes on to contain. */
  ghost predicate OpeningsKept(s: Scan, t: Scan) {
    forall k: nat, h :: Opens(TextAt(All(s), k), h) ==> Opens(TextAt(All(t), k), h)
  }

  lemma OpensMore(text: string, more: string, h: Heredoc)
    requires Opens(text, h)
    ensures Opens(text + more, h)
  {
    var a, b :| NonSpace(text) == a + NonSpace(h.opening) + b;
    NonSpaceConcat(text, more);
    assert NonSpace(text + more) == a + NonSpace(h.opening) + (b + NonSpace(more));
  }

  lemma OpensNotBlank(text: string, h: Heredoc)
    requires Opens(text, h)
    ensures !Blank(text)
  {
    NonSpaceBlank(text);
  }

  lemma OpensItself(text: string, h: Heredoc)
    requires h.opening != "" && h.opening[0] == '<'
    ensures Opens(text + h.opening, h)
  {
    NonSpaceConcat(text, h.opening);
    assert NonSpace(text + h.opening) == NonSpace(text) + NonSpace(h.opening) + "";
  }

  lemma TypedOpenings(s: Scan, text: string, i: nat)
    ensures OpeningsKept(s, Typed(s, text, i))
  {
    forall k: nat, h | Opens(TextAt(All(s), k), h)
      ensures Opens(TextAt(All(Typed(s, text, i)), k), h)
    {
      if k == |s.segments| {
        OpensMore(s.segment.text, text, h);
      }
    }
  }

  lemma FlushedOpenings(s: Scan, operator: string)
    ensures OpeningsKept(s, Flushed(s, operator))
  {
    var text := TrimBlanks(s.segment.text);
    NonSpaceBlank(text);
    NonSpaceBlank(s.segment.text);
    hide TrimBlanks, NonSpace, Trim;
    forall k: nat, h | Opens(TextAt(All(s), k), h)
      ensures Opens(TextAt(All(Flushed(s, operator)), k), h)
    {
      OpensNotBlank(TextAt(All(s), k), h);
      assert k <= |s.segments|;
      if k == |s.segments| {
        assert Opens(text, h);
      }
    }
  }

  /** The heredoc lines of every segment are the same. */
  ghost predicate SameLines(s: Scan, t: Scan) {
    forall k: nat :: BodyAt(All(t), k) == BodyAt(All(s), k) && EndAt(All(t), k) == EndAt(All(s), k)
  }

  lemma TextsOfAll(s: Scan)
    ensures Texts(All(s)) == Texts(s.segments) + s.segment.text
  {
    assert All(s)[..|s.segments|] == s.segments;
  }

  lemma TypedFacts(s: Scan, text: string, i: nat)
    ensures Texts(All(Typed(s, text, i))) == Texts(All(s)) + text && SameLines(s, Typed(s, text, i)) && OpeningsKept(s, Typed(s, text, i))
  {
    TypedOpenings(s, text, i);
    TextsOfAll(s);
    TextsOfAll(Typed(s, text, i));
  }

  lemma FlushedFacts(s: Scan, operator: string)
    ensures NonSpace(Texts(All(Flushed(s, operator)))) == NonSpace(Texts(All(s))) + NonSpace(operator)
    ensures SameLines(s, Flushed(s, operator)) && OpeningsKept(s, Flushed(s, operator))
  {
    hide NonSpace, TrimBlanks, Texts, Trim, Opens, OpeningsKept;
    FlushedOpenings(s, operator);
    FlushedTexts(s, operator);
  }

  lemma FlushedTexts(s: Scan, operator: string)
    ensures NonSpace(Texts(All(Flushed(s, operator)))) == NonSpace(Texts(All(s))) + NonSpace(operator)
  {
    hide *;
    var t := Flushed(s, operator);
    TextsOfAll(s);
    TextsOfAll(t);
    NonSpaceConcat(Texts(s.segments), s.segment.text);
    NonSpaceConcat(Texts(t.segments), t.segment.text);
    FlushedSegments(s, operator);
    FlushedSegment(s, operator);
  }

  lemma FlushedSegment(s: Scan, operator: string)
    ensures NonSpace(Flushed(s, operator).segment.text) == NonSpace(operator)
  {
    NonSpaceConcat(operator, " ");
    assert NonSpace(" ") == "";
  }

  lemma FlushedSegments(s: Scan, operator: string)
    ensures NonSpace(Texts(Flushed(s, operator).segments)) == NonSpace(Texts(s.segments)) + NonSpace(s.segment.text)
  {
    var segment := s.segment.(text := TrimBlanks(s.segment.text));
    assert (s.segments + [segment])[..|s.segments|] == s.segments;
    NonSpaceConcat(Texts(s.segments), segment.text);
    NonSpaceBlank(segment.text);
    hide TrimBlanks, NonSpace, Trim;
  }

  /** Texts do not change when lines are handed out; each segment's lines grow by what it is given. */
  lemma GivenFacts(s: Scan, owner: nat, lines: Lines)
    requires owner <= |s.segments|
    ensures var t := Given(s, owner, lines);
      && Texts(All(t)) == Texts(All(s)) && |t.segments| == |s.segments| && t.segment.text == s.segment.text
      && (forall k: nat :: TextAt(All(t), k) == TextAt(All(s), k))
      && forall k: nat :: BodyAt(All(t), k) == BodyAt(All(s), k) + (if k == owner then lines.body else [])
                       && EndAt(All(t), k) == EndAt(All(s), k) + (if k == owner then lines.end else [])
  {
    hide Texts;
    GivenTexts(s, owner, lines);
    forall k: nat
      ensures BodyAt(All(Given(s, owner, lines)), k) == BodyAt(All(s), k) + (if k == owner then lines.body else [])
           && EndAt(All(Given(s, owner, lines)), k) == EndAt(All(s), k) + (if k == owner then lines.end else [])
    {
      GivenLines(s, owner, lines, k);
    }
  }

  lemma GivenTexts(s: Scan, owner: nat, lines: Lines)
    requires owner <= |s.segments|
    ensures Texts(All(Given(s, owner, lines))) == Texts(All(s))
  {
    var t := Given(s, owner, lines);
    TextsOfAll(s);
    TextsOfAll(t);
    SameTexts(s.segments, t.segments);
  }

  lemma GivenLines(s: Scan, owner: nat, lines: Lines, k: nat)
    requires owner <= |s.segments|
    ensures BodyAt(All(Given(s, owner, lines)), k) == BodyAt(All(s), k) + (if k == owner then lines.body else [])
    ensures EndAt(All(Given(s, owner, lines)), k) == EndAt(All(s), k) + (if k == owner then lines.end else [])
  {
  }

  lemma {:induction false} SameTexts(a: seq<Segment>, b: seq<Segment>)
    requires |a| == |b| && forall k :: 0 <= k < |a| ==> a[k].text == b[k].text
    ensures Texts(a) == Texts(b)
    decreases |a|
  {
    if a != [] {
      SameTexts(a[..|a| - 1], b[..|b| - 1]);
    }
  }

  lemma {:induction false} TakeLinesFacts(source: string, s: Scan, pending: seq<Heredoc>, next: nat)
    requires forall h :: h in pending ==> h.owner <= |s.segments|
    ensures var t, documents := TakeLines(source, s, pending, next).0, Documents(source, pending, next);
      && Texts(All(t)) == Texts(All(s)) && |t.segments| == |s.segments| && t.segment.text == s.segment.text
      && t.pending == s.pending && t.i == s.i && t.quote == s.quote && t.depth == s.depth && CodeOf(documents) == ""
      && (forall k: nat :: TextAt(All(t), k) == TextAt(All(s), k))
      && (forall p :: p in documents ==> p.Document? && p.heredoc in pending)
      && GainsLines(s, t, documents)
    decreases |pending|
  {
    if pending != [] {
      var h := pending[0];
      var lines := ReadLines(source, next, h.delimiter, h.strip);
      var given := Given(s, h.owner, lines);
      GivenFacts(s, h.owner, lines);
      TakeLinesFacts(source, given, pending[1..], lines.next);
      var t, rest := TakeLines(source, given, pending[1..], lines.next).0, Documents(source, pending[1..], lines.next);
      var documents := [Document(h, lines.body, lines.end)] + rest;
      hide TakeLines, ReadLines, Given, BodyAt, EndAt, TextAt, All;
      assert documents[1..] == rest;
      forall k: nat
        ensures BodyAt(All(t), k) == BodyAt(All(s), k) + BodyLines(documents, k)
             && EndAt(All(t), k) == EndAt(All(s), k) + EndLines(documents, k)
      {
        Regroup(BodyAt(All(s), k), if k == h.owner then lines.body else [], BodyLines(rest, k));
        Regroup(EndAt(All(s), k), if k == h.owner then lines.end else [], EndLines(rest, k));
      }
    }
  }

  lemma Regroup<T>(a: seq<T>, b: seq<T>, c: seq<T>)
    ensures (a + b) + c == a + (b + c)
  {
  }

  /** Every segment gains the lines that the pieces give to it. */
  ghost predicate GainsLines(s: Scan, t: Scan, pieces: seq<Piece>) {
    forall k: nat :: BodyAt(All(t), k) == BodyAt(All(s), k) + BodyLines(pieces, k)
                  && EndAt(All(t), k) == EndAt(All(s), k) + EndLines(pieces, k)
  }

  /** Every heredoc among the pieces belongs to a segment that opens it. */
  ghost predicate AllOpened(t: Scan, pieces: seq<Piece>) {
    forall p :: p in pieces && p.Document? ==> Opens(TextAt(All(t), p.heredoc.owner), p.heredoc)
  }

  /** What one turn keeps. */
  ghost predicate TurnKeeps(s: Scan, t: Scan, pieces: seq<Piece>) {
    && NonSpace(Texts(All(t))) == NonSpace(Texts(All(s))) + NonSpace(CodeOf(pieces))
    && GainsLines(s, t, pieces) && OpeningsKept(s, t) && AllOpened(t, pieces)
  }

  /** After the heredocs took their lines, the segment goes on or is flushed; either way nothing is lost. */
  lemma AfterLines(taken: Scan, t: Scan)
    requires t == (if AtStart(taken.segment.text) then Typed(taken, " ", taken.i) else Flushed(taken, "")).(i := t.i)
    ensures NonSpace(Texts(All(t))) == NonSpace(Texts(All(taken))) && SameLines(taken, t) && t.pending == taken.pending
    ensures OpeningsKept(taken, t)
  {
    hide OpeningsKept, Opens, SameLines;
    if AtStart(taken.segment.text) {
      TypedFacts(taken, " ", taken.i);
      NonSpaceConcat(Texts(All(taken)), " ");
      assert NonSpace(" ") == "";
      assert All(t) == All(Typed(taken, " ", taken.i));
      SameLinesApart(taken, Typed(taken, " ", taken.i), t);
    } else {
      FlushedFacts(taken, "");
      assert All(t) == All(Flushed(taken, ""));
      SameLinesApart(taken, Flushed(taken, ""), t);
    }
  }

  lemma LinesOfMore(documents: seq<Piece>, k: nat)
    ensures BodyLines([Code("\n")] + documents, k) == BodyLines(documents, k)
    ensures EndLines([Code("\n")] + documents, k) == EndLines(documents, k)
    ensures CodeOf([Code("\n")] + documents) == "\n" + CodeOf(documents)
  {
    assert ([Code("\n")] + documents)[1..] == documents;
  }

  lemma NewlineKeeps(source: string, s: Scan)
    requires s.i < |source| && EndsLine(source, s) && OwnersOk(s)
    ensures TurnKeeps(s, Turn(source, s), TurnPieces(source, s)) && OwnersOk(Turn(source, s))
  {
    hide *;
    var cleared, t := s.(pending := []), Turn(source, s);
    var taken := TakeLines(source, cleared, s.pending, s.i + 1).0;
    OwnersInRange(s);
    TakeLinesFacts(source, cleared, s.pending, s.i + 1);
    ClearedIsApart(s, taken, Documents(source, s.pending, s.i + 1));
    NewlineTurn(source, s);
    NewlineShape(source, s);
    AfterLines(taken, t);
    LinesHandedOut(s, taken, t, Documents(source, s.pending, s.i + 1));
  }

  lemma OwnersInRange(s: Scan)
    requires OwnersOk(s)
    ensures forall h :: h in s.pending ==> h.owner <= |s.segments| && Opens(TextAt(All(s), h.owner), h)
    ensures All(s.(pending := [])) == All(s)
    ensures forall t: Scan :: t.pending == [] ==> OwnersOk(t)
  {
  }

  lemma ClearedIsApart(s: Scan, taken: Scan, documents: seq<Piece>)
    requires OwnersOk(s) && GainsLines(s.(pending := []), taken, documents)
    requires forall p :: p in documents ==> p.Document? && p.heredoc in s.pending
    ensures GainsLines(s, taken, documents) && AllOpened(s, documents)
  {
    assert All(s.(pending := [])) == All(s);
  }

  lemma NewlineShape(source: string, s: Scan)
    requires s.i < |source| && EndsLine(source, s)
    ensures var t, taken := TurnAtNewline(source, s), TakeLines(source, s.(pending := []), s.pending, s.i + 1).0;
      t == (if AtStart(taken.segment.text) then Typed(taken, " ", taken.i) else Flushed(taken, "")).(i := t.i)
  {
    hide AtStart, Typed, Flushed, TakeLines;
  }

  lemma LinesHandedOut(s: Scan, taken: Scan, t: Scan, documents: seq<Piece>)
    requires CodeOf(documents) == "" && Texts(All(taken)) == Texts(All(s)) && NonSpace(Texts(All(t))) == NonSpace(Texts(All(taken)))
    requires SameLines(taken, t) && OpeningsKept(taken, t) && (forall k: nat :: TextAt(All(taken), k) == TextAt(All(s), k))
    requires AllOpened(s, documents) && GainsLines(s, taken, documents)
    ensures TurnKeeps(s, t, [Code("\n")] + documents)
  {
    NewlineIsSpace();
    hide Texts, CodeOf, All, BodyLines, EndLines, BodyAt, EndAt, TextAt, Opens, OpeningsKept, NonSpace, GainsLines, SameLines, AllOpened;
    OpeningsHandedOut(s, taken, t, documents);
    LinesOfMore(documents, 0);
    LinesGained(s, taken, t, documents);
  }

  lemma NewlineIsSpace()
    ensures NonSpace("\n") == "" && "\n" + "" == "\n"
    ensures forall x: string :: x + "" == x
  {
  }

  lemma LinesGained(s: Scan, taken: Scan, t: Scan, documents: seq<Piece>)
    requires SameLines(taken, t) && GainsLines(s, taken, documents)
    ensures GainsLines(s, t, [Code("\n")] + documents)
  {
    hide All, BodyAt, EndAt, BodyLines, EndLines;
    forall k: nat
      ensures BodyAt(All(t), k) == BodyAt(All(s), k) + BodyLines([Code("\n")] + documents, k)
           && EndAt(All(t), k) == EndAt(All(s), k) + EndLines([Code("\n")] + documents, k)
    {
      LinesOfMore(documents, k);
    }
  }

  lemma OpeningsHandedOut(s: Scan, taken: Scan, t: Scan, documents: seq<Piece>)
    requires OpeningsKept(taken, t) && (forall k: nat :: TextAt(All(taken), k) == TextAt(All(s), k)) && AllOpened(s, documents)
    ensures OpeningsKept(s, t) && AllOpened(t, [Code("\n")] + documents)
  {
    hide All, TextAt, Opens;
    forall p | p in [Code("\n")] + documents && p.Document?
      ensures Opens(TextAt(All(t), p.heredoc.owner), p.heredoc)
    {
      assert p in documents;
      assert Opens(TextAt(All(taken), p.heredoc.owner), p.heredoc);
    }
  }

  /** A turn that types the text it moves over, or flushes at it. */
  lemma CodeKeeps(s: Scan, t: Scan, text: string)
    requires SameLines(s, t) && OpeningsKept(s, t) && NonSpace(Texts(All(t))) == NonSpace(Texts(All(s))) + NonSpace(text)
    ensures TurnKeeps(s, t, [Code(text)])
  {
    OneCode(text);
  }

  lemma TypedKeeps(s: Scan, t: Scan, text: string)
    requires All(t) == All(Typed(s, text, s.i)) && t.segments == s.segments && t.pending == s.pending && OwnersOk(s)
    ensures TurnKeeps(s, t, [Code(text)]) && OwnersOk(t)
  {
    TypedFacts(s, text, s.i);
    NonSpaceConcat(Texts(All(s)), text);
    assert SameLines(s, t) && OpeningsKept(s, t);
    CodeKeeps(s, t, text);
    OwnersStay(s, t);
  }

  lemma OwnersStay(s: Scan, t: Scan)
    requires OwnersOk(s) && OpeningsKept(s, t) && t.pending == s.pending && |s.segments| <= |t.segments|
    ensures OwnersOk(t)
  {
  }

  lemma FlushedKeeps(s: Scan, operator: string, i: nat)
    requires OwnersOk(s)
    ensures var t := Flushed(s, operator).(i := i); TurnKeeps(s, t, [Code(operator)]) && OwnersOk(t)
  {
    var t := Flushed(s, operator).(i := i);
    assert t.pending == s.pending && |s.segments| <= |t.segments|;
    hide *;
    FlushedFacts(s, operator);
    IndexIsApart(Flushed(s, operator), i);
    SameLinesApart(s, Flushed(s, operator), t);
    CodeKeeps(s, t, operator);
    OwnersStay(s, t);
  }

  lemma IndexIsApart(s: Scan, i: nat)
    ensures All(s.(i := i)) == All(s)
  {
  }

  lemma SameLinesApart(s: Scan, t: Scan, t': Scan)
    requires SameLines(s, t) && OpeningsKept(s, t) && All(t) == All(t')
    ensures SameLines(s, t') && OpeningsKept(s, t')
  {
  }

  lemma QuoteShape(source: string, s: Scan)
    requires s.i < |source| && s.quote.Some?
    ensures var t := TurnInQuote(source, s);
      s.i < t.i && t == Typed(s, Slice(source, s.i, t.i), t.i).(quote := t.quote)
  {
    assert Slice(source, s.i, s.i + 1) == [source[s.i]];
    assert s.i + 1 < |source| ==> Slice(source, s.i, s.i + 2) == [source[s.i], source[s.i + 1]];
  }

  lemma ElseKeeps(source: string, s: Scan)
    requires s.i < |source| && OwnersOk(s)
    ensures var t := TurnElse(source, s);
      TurnKeeps(s, t, [Code(Slice(source, s.i, t.i))]) && OwnersOk(t)
  {
    hide *;
    var t := TurnElse(source, s);
    var operator := if s.depth == 0 then OperatorAt(source, s.i) else "";
    ElseShape(source, s);
    if operator == ";;" {
      TypedAgain(s, s.i + 2, operator, t);
    } else if operator != "" {
      FlushedKeeps(s, operator, s.i + |operator|);
    } else if (source[s.i] == ' ' || source[s.i] == '\t') && AtStart(s.segment.text) {
      SkippedKeeps(s, source[s.i]);
    } else {
      TypedAgain(s, s.i + 1, [source[s.i]], t);
    }
  }

  lemma ElseShape(source: string, s: Scan)
    requires s.i < |source|
    ensures var t, c := TurnElse(source, s), source[s.i];
      var operator := if s.depth == 0 then OperatorAt(source, s.i) else "";
      var text := Slice(source, s.i, t.i);
      if operator == ";;" then t == Typed(s, operator, s.i + 2) && text == operator
      else if operator != "" then t == Flushed(s, operator).(i := s.i + |operator|) && text == operator
      else if (c == ' ' || c == '\t') && AtStart(s.segment.text) then t == s.(i := s.i + 1) && text == [c] && IsSpace(c)
      else t == Typed(s, [c], s.i + 1) && text == [c]
  {
    hide Flushed, AtStart;
  }

  lemma SkippedKeeps(s: Scan, c: char)
    requires IsSpace(c) && OwnersOk(s)
    ensures var t := s.(i := s.i + 1); TurnKeeps(s, t, [Code([c])]) && OwnersOk(t)
  {
    var t := s.(i := s.i + 1);
    assert All(t) == All(s) && NonSpace([c]) == "";
    hide Opens;
    CodeKeeps(s, t, [c]);
  }

  lemma TagKeeps(source: string, s: Scan, tag: Tag)
    requires s.i < |source| && source[s.i] == '<' && OwnersOk(s) && s.i + 2 <= tag.end
    ensures var t := Opened(source, s, tag);
      TurnKeeps(s, t, [Code(Slice(source, s.i, tag.end))]) && OwnersOk(t)
  {
    var text := Slice(source, s.i, tag.end);
    var typed, t := Typed(s, text, tag.end), Opened(source, s, tag);
    var h := Heredoc(tag.delimiter, tag.strip, |s.segments|, text);
    assert text[0] == '<' && All(t) == All(typed) && TextAt(All(typed), h.owner) == s.segment.text + text;
    assert t.pending == s.pending + [h] && t.segments == typed.segments && typed.pending == s.pending;
    hide Slice, All, Typed, TextAt, Opened, Opens;
    TypedAgain(s, tag.end, text, typed);
    OpensItself(s.segment.text, h);
  }

  lemma TypedAgain(s: Scan, i: nat, text: string, typed: Scan)
    requires typed == Typed(s, text, i) && OwnersOk(s)
    ensures TurnKeeps(s, typed, [Code(text)]) && OwnersOk(typed)
  {
    assert All(typed) == All(Typed(s, text, s.i));
    TypedKeeps(s, typed, text);
  }

  lemma PlainKeeps(source: string, s: Scan, t: Scan)
    requires s.i < t.i && s.i < |source| && OwnersOk(s)
    requires t == Typed(s, Slice(source, s.i, t.i), t.i).(quote := t.quote)
    ensures TurnKeeps(s, t, [Code(Slice(source, s.i, t.i))]) && OwnersOk(t)
  {
    assert All(t) == All(Typed(s, Slice(source, s.i, t.i), s.i));
    TypedKeeps(s, t, Slice(source, s.i, t.i));
  }

  lemma OutsideKeeps(source: string, s: Scan)
    requires s.i < |source| && s.quote.None? && OwnersOk(s) && !(source[s.i] == '\n' && s.depth == 0)
    ensures var t := TurnOutside(source, s);
      TurnKeeps(s, t, [Code(Slice(source, s.i, t.i))]) && OwnersOk(t)
  {
    var t, c := TurnOutside(source, s), source[s.i];
    assert CharAt(source, s.i + 1, '<') && CharAt(source, s.i + 2, '<') && c == '<' ==> Slice(source, s.i, s.i + 3) == "<<<";
    assert c == '\n' ==> Slice(source, s.i, s.i + 1) == "\n";
    hide TurnKeeps, OwnersOk, Slice, Typed, ReadHeredocTag, TurnElse;
    if c == '<' && CharAt(source, s.i + 1, '<') && s.depth == 0 && CharAt(source, s.i + 2, '<') {
      TypedAgain(s, s.i + 3, "<<<", t);
    } else if TagAt(source, s).Some? {
      TagKeeps(source, s, TagAt(source, s).value);
    } else if c == '\n' {
      TypedAgain(s, s.i + 1, "\n", t);
    } else {
      ElseKeeps(source, s);
    }
  }

  lemma DeeperKeeps(s: Scan, c: char, t: Scan, pieces: seq<Piece>)
    requires OwnersOk(s)
    ensures OwnersOk(Deeper(s, c)) && (TurnKeeps(Deeper(s, c), t, pieces) ==> TurnKeeps(s, t, pieces))
  {
    assert All(Deeper(s, c)) == All(s);
  }

  lemma OtherTurnKeeps(source: string, s: Scan)
    requires s.i < |source| && !EndsLine(source, s) && OwnersOk(s)
    ensures TurnKeeps(s, Turn(source, s), TurnPieces(source, s)) && OwnersOk(Turn(source, s))
  {
    var t, c := Turn(source, s), source[s.i];
    assert TurnPieces(source, s) == [Code(Slice(source, s.i, t.i))];
    assert Slice(source, s.i, s.i + 1) == [c];
    assert s.i + 1 < |source| ==> Slice(source, s.i, s.i + 2) == [c, source[s.i + 1]];
    assert Slice(source, s.i, LineEnd(source, s.i)) == source[s.i..LineEnd(source, s.i)];
    hide TurnKeeps, OwnersOk, TurnPieces, TurnInQuote, TurnOutside, Slice;
    if s.quote.Some? {
      QuoteShape(source, s);
      PlainKeeps(source, s, t);
    } else if (c == '\\' && s.i + 1 < |source|) || c == '\'' || c == '"' || c == '`' || (c == '#' && (s.i == 0 || IsSpace(source[s.i - 1]))) {
      PlainKeeps(source, s, t);
    } else {
      DeeperKeeps(s, c, t, TurnPieces(source, s));
      OutsideKeeps(source, Deeper(s, c));
    }
  }

  lemma {:induction false} RunKeeps(source: string, s: Scan)
    requires OwnersOk(s)
    ensures TurnKeeps(s, Run(source, s), Pieces(source, s))
    decreases |source| - s.i
  {
    if |source| <= s.i {
      assert NonSpace("") == "";
    } else {
      var t := Turn(source, s);
      TurnAdvances(source, s);
      hide TurnKeeps, OwnersOk, Turn, TurnPieces;
      if EndsLine(source, s) {
        NewlineKeeps(source, s);
      } else {
        OtherTurnKeeps(source, s);
      }
      RunKeeps(source, t);
      KeepsJoin(s, t, Run(source, t), TurnPieces(source, s), Pieces(source, t));
    }
  }

  lemma {:induction false} LinesAppend(a: seq<Piece>, b: seq<Piece>, k: nat)
    ensures BodyLines(a + b, k) == BodyLines(a, k) + BodyLines(b, k) && EndLines(a + b, k) == EndLines(a, k) + EndLines(b, k)
    decreases |a|
  {
    if a == [] {
      assert a + b == b;
    } else {
      assert (a + b)[1..] == a[1..] + b;
      hide LinesOf;
      LinesAppend(a[1..], b, k);
      Regroup(LinesOf(a[0], k).body, BodyLines(a[1..], k), BodyLines(b, k));
      Regroup(LinesOf(a[0], k).end, EndLines(a[1..], k), EndLines(b, k));
    }
  }

  lemma KeepsJoin(s: Scan, t: Scan, u: Scan, first: seq<Piece>, rest: seq<Piece>)
    requires TurnKeeps(s, t, first) && TurnKeeps(t, u, rest)
    ensures TurnKeeps(s, u, first + rest)
  {
    hide Texts, NonSpace, CodeOf, BodyLines, EndLines, All, BodyAt, EndAt, TextAt, Opens, GainsLines;
    CodeAppend(first, rest);
    NonSpaceConcat(CodeOf(first), CodeOf(rest));
    Regroup(NonSpace(Texts(All(s))), NonSpace(CodeOf(first)), NonSpace(CodeOf(rest)));
    GainsJoin(s, t, u, first, rest);
  }

  lemma GainsJoin(s: Scan, t: Scan, u: Scan, first: seq<Piece>, rest: seq<Piece>)
    requires GainsLines(s, t, first) && GainsLines(t, u, rest)
    ensures GainsLines(s, u, first + rest)
  {
    hide BodyLines, EndLines, All, BodyAt, EndAt;
    forall k: nat
      ensures BodyAt(All(u), k) == BodyAt(All(s), k) + BodyLines(first + rest, k)
           && EndAt(All(u), k) == EndAt(All(s), k) + EndLines(first + rest, k)
    {
      LinesAppend(first, rest, k);
      Regroup(BodyAt(All(s), k), BodyLines(first, k), BodyLines(rest, k));
      Regroup(EndAt(All(s), k), EndLines(first, k), EndLines(rest, k));
    }
  }

  /** The lines taken by a heredoc stop at the first terminator: the body holds none, the end is one or missing. */
  predicate Proper(piece: Piece) {
    piece.Document? ==>
      && (forall l :: l in piece.body ==> !Terminates(l, piece.heredoc.delimiter, piece.heredoc.strip))
      && |piece.end| <= 1 && (forall l :: l in piece.end ==> Terminates(l, piece.heredoc.delimiter, piece.heredoc.strip))
  }

  lemma {:induction false} ReadLinesProper(source: string, next: nat, h: Heredoc)
    ensures var lines := ReadLines(source, next, h.delimiter, h.strip); Proper(Document(h, lines.body, lines.end))
    decreases |source| + 1 - next
  {
    if next <= |source| {
      var lineEnd := LineEnd(source, next);
      if !Terminates(source[next..lineEnd], h.delimiter, h.strip) && lineEnd < |source| {
        ReadLinesProper(source, lineEnd + 1, h);
      }
    }
  }

  lemma {:induction false} DocumentsProper(source: string, pending: seq<Heredoc>, next: nat)
    ensures forall p :: p in Documents(source, pending, next) ==> Proper(p)
    decreases |pending|
  {
    if pending != [] {
      ReadLinesProper(source, next, pending[0]);
      DocumentsProper(source, pending[1..], ReadLines(source, next, pending[0].delimiter, pending[0].strip).next);
    }
  }

  lemma CodeProper(text: string)
    ensures Proper(Code(text))
  {
  }

  lemma TurnPiecesProper(source: string, s: Scan)
    requires s.i < |source|
    ensures forall p :: p in TurnPieces(source, s) ==> Proper(p)
  {
    hide Turn, Proper, Documents;
    DocumentsProper(source, s.pending, s.i + 1);
    CodeProper(Slice(source, s.i, Turn(source, s).i));
    CodeProper("\n");
  }

  lemma {:induction false} PiecesProper(source: string, s: Scan)
    ensures forall p :: p in Pieces(source, s) ==> Proper(p)
    decreases |source| - s.i
  {
    if s.i < |source| {
      TurnAdvances(source, s);
      hide Turn, Proper, TurnPieces;
      TurnPiecesProper(source, s);
      PiecesProper(source, Turn(source, s));
    }
  }

  /**
   Main result: a scan cuts the command into pieces of code and the lines of its heredocs. The pieces are the command,
   up to a line end behind an unterminated heredoc; apart from white space the segments' texts are the code; and the
   lines of a heredoc go, in order and once, to the segment that opened it.
   */
  lemma SplitConserves(command: string)
    ensures var source, segments := Source(command), Split(command);
      var pieces := Pieces(source, START);
      && (Raw(pieces) == source || Raw(pieces) == source + "\n")
      && NonSpace(Texts(segments)) == NonSpace(CodeOf(pieces))
      && (forall k: nat :: BodyAt(segments, k) == BodyLines(pieces, k) && EndAt(segments, k) == EndLines(pieces, k))
      && (forall p :: p in pieces ==> Proper(p))
      && (forall p :: p in pieces && p.Document? ==> p.heredoc.owner < |segments| && Opens(segments[p.heredoc.owner].text, p.heredoc))
  {
    var source := Source(command);
    assert Slice(source, 0, |source|) == source;
    hide *;
    RawRun(source, START);
    PiecesProper(source, START);
    SplitKeepsText(source);
    SplitKeepsLines(source);
    SplitKeepsOwners(source);
    SplitIs(command);
  }

  lemma SplitIs(command: string)
    ensures Split(command) == Flushed(Run(Source(command), START), "").segments && START.i == 0
  {
    hide Flushed, Run, Source;
  }

  lemma SplitKeepsText(source: string)
    ensures NonSpace(Texts(Flushed(Run(source, START), "").segments)) == NonSpace(CodeOf(Pieces(source, START)))
  {
    hide *;
    var end := Run(source, START);
    RunFromStart(source);
    FlushedFacts(end, "");
    LastSegment(end);
    StartIsEmpty();
  }

  /** Apart from white space, the segments that the scan built and the one it is building are the code. */
  lemma RunFromStart(source: string)
    ensures NonSpace(Texts(All(Run(source, START)))) == NonSpace(CodeOf(Pieces(source, START)))
  {
    hide Run, Pieces, CodeOf, All, NonSpace, Texts, GainsLines, OpeningsKept, AllOpened, SameLines;
    RunKeeps(source, START);
    StartIsEmpty();
  }

  lemma SplitKeepsLines(source: string)
    ensures var segments, pieces := Flushed(Run(source, START), "").segments, Pieces(source, START);
      forall k: nat :: BodyAt(segments, k) == BodyLines(pieces, k) && EndAt(segments, k) == EndLines(pieces, k)
  {
    var end := Run(source, START);
    RunKeeps(source, START);
    FlushedFacts(end, "");
    StartIsEmpty();
    LastSegment(end);
    hide Run, Pieces, CodeOf, All, Flushed, NonSpace, Texts, OpeningsKept, AllOpened, BodyAt, EndAt, BodyLines, EndLines;
  }

  lemma SplitKeepsOwners(source: string)
    ensures var segments, pieces := Flushed(Run(source, START), "").segments, Pieces(source, START);
      forall p :: p in pieces && p.Document? ==> p.heredoc.owner < |segments| && Opens(segments[p.heredoc.owner].text, p.heredoc)
  {
    var end := Run(source, START);
    RunKeeps(source, START);
    FlushedFacts(end, "");
    LastSegment(end);
    hide Run, Pieces, CodeOf, All, Flushed, NonSpace, Texts, GainsLines, SameLines, Opens, TextAt;
  }

  lemma StartIsEmpty()
    ensures NonSpace(Texts(All(START))) == "" && NonSpace("") == ""
    ensures forall k: nat :: BodyAt(All(START), k) == [] && EndAt(All(START), k) == []
  {
    assert All(START) == [EMPTY];
    assert [EMPTY][..0] == [];
  }

  /** After the last flush the segment being built is empty. */
  lemma LastSegment(s: Scan)
    ensures var t := Flushed(s, "");
      NonSpace(Texts(All(t))) == NonSpace(Texts(t.segments))
      && (forall k: nat :: BodyAt(All(t), k) == BodyAt(t.segments, k) && EndAt(All(t), k) == EndAt(t.segments, k))
      && forall k: nat, h :: Opens(TextAt(All(t), k), h) ==> k < |t.segments| && Opens(t.segments[k].text, h)
  {
    var t := Flushed(s, "");
    assert t.segment == EMPTY;
    forall k: nat, h | Opens(TextAt(All(t), k), h)
      ensures k < |t.segments| && Opens(t.segments[k].text, h)
    {
      OpensNotBlank(TextAt(All(t), k), h);
    }
    TextsOfAll(t);
    assert Texts(t.segments) + "" == Texts(t.segments);
  }

  // ---------------------------------------------------------------------------------------------
  // The scanner in place
  // ---------------------------------------------------------------------------------------------

  method ReadTag(s: string, from: nat) returns (tag: Option<Tag>)
    ensures tag == ReadHeredocTag(s, from)
  {
    var at := from + 2;
    var strip := CharAt(s, at, '-');
    if strip {
      at := at + 1;
    }
    ghost var start := at;
    while CharAt(s, at, ' ') || CharAt(s, at, '\t')
      invariant SkipBlanks(s, start) == SkipBlanks(s, at)
      decreases |s| - at
    {
      at := at + 1;
    }
    if CharAt(s, at, '\'') || CharAt(s, at, '"') {
      var close := IndexOfChar(s, s[at], at + 1);
      if close < 0 || close == at + 1 {
        return None;
      }
      return Some(Tag(close + 1, s[at + 1..close], strip));
    }
    var delimiter, end := ReadBareDelimiter(s, at);
    return if delimiter == "" then None else Some(Tag(end, delimiter, strip));
  }

  method ReadBareDelimiter(s: string, from: nat) returns (delimiter: string, at: nat)
    ensures (delimiter, at) == BareDelimiter(s, from)
  {
    at := from;
    delimiter := "";
    ghost var whole := BareDelimiter(s, at);
    assert delimiter + whole.0 == whole.0;
    while at < |s| && !DelimiterEnd(s[at])
      invariant delimiter + BareDelimiter(s, at).0 == whole.0 && BareDelimiter(s, at).1 == whole.1
      decreases |s| - at
    {
      Regroup(delimiter, [s[at]], BareDelimiter(s, at + 1).0);
      if s[at] == '\\' {
        at := at + 1;
      } else {
        delimiter := delimiter + [s[at]];
      }
      at := at + 1;
    }
    assert delimiter + "" == delimiter;
  }

  method ReadHeredoc(source: string, start: nat, h: Heredoc) returns (body: seq<string>, end: seq<string>, next: nat)
    ensures Lines(body, end, next) == ReadLines(source, start, h.delimiter, h.strip)
  {
    hide ReadLines, Terminates, LineEnd, Prepend;
    body, end, next := [], [], start;
    ghost var whole := ReadLines(source, start, h.delimiter, h.strip);
    PrependNothing(whole);
    while next <= |source|
      invariant Prepend(body, ReadLines(source, next, h.delimiter, h.strip)) == whole && end == []
      decreases |source| + 1 - next
    {
      var lineEnd := LineEnd(source, next);
      var line := source[next..lineEnd];
      ReadLinesStep(source, next, h.delimiter, h.strip);
      PrependLast(body, [], [line], lineEnd + 1);
      PrependLast(body, [line], [], lineEnd + 1);
      PrependLine(body, line, ReadLines(source, lineEnd + 1, h.delimiter, h.strip));
      if Terminates(line, h.delimiter, h.strip) {
        return body, [line], lineEnd + 1;
      }
      body := body + [line];
      next := lineEnd + 1;
      if lineEnd == |source| {
        return;
      }
    }
    ReadPastEnd(source, next, h);
    PrependLast(body, [], [], next);
  }

  function Prepend(body: seq<string>, lines: Lines): Lines {
    Lines(body + lines.body, lines.end, lines.next)
  }

  lemma PrependNothing(lines: Lines)
    ensures Prepend([], lines) == lines
  {
    assert [] + lines.body == lines.body;
  }

  lemma PrependLine(body: seq<string>, line: string, lines: Lines)
    ensures Prepend(body, Lines([line] + lines.body, lines.end, lines.next)) == Prepend(body + [line], lines)
  {
    Regroup(body, [line], lines.body);
  }

  lemma PrependLast(body: seq<string>, last: seq<string>, end: seq<string>, next: nat)
    ensures Prepend(body, Lines(last, end, next)) == Lines(if last == [] then body else body + last, end, next)
  {
  }

  lemma ReadPastEnd(source: string, next: nat, h: Heredoc)
    requires |source| < next
    ensures ReadLines(source, next, h.delimiter, h.strip) == Lines([], [], next)
  {
  }

  class Scanner {
    const source: string
    var i: nat
    var segments: seq<Segment>
    var segment: Segment
    var pending: seq<Heredoc>
    var quote: Option<char>
    var depth: nat

    function State(): Scan
      reads this
    {
      Scan(i, segments, segment, pending, quote, depth)
    }

    constructor (source: string)
      ensures State() == START && this.source == source
    {
      this.source := source;
      i, segments, segment, pending, quote, depth := 0, [], EMPTY, [], None, 0;
    }

    method Type(text: string)
      modifies this`segment
      ensures segment == old(segment).(text := old(segment.text) + text)
    {
      segment := segment.(text := segment.text + text);
    }

    method Flush(operator: string)
      modifies this`segment, this`segments
      ensures State() == Flushed(old(State()), operator)
    {
      segment := segment.(text := TrimBlanks(segment.text));
      if Trim(segment.text) != "" || segment.body != [] || segment.end != [] {
        segments := segments + [segment];
      }
      segment := Segment(if operator == "" then "" else operator + " ", [], []);
    }

    /** The pending heredocs take their lines, each into the segment that opened it, flushed or not. */
    method TakeHeredocs(start: nat) returns (next: nat)
      modifies this`segment, this`segments, this`pending
      ensures (State(), next) == TakeLines(source, old(State()).(pending := []), old(pending), start)
    {
      var heredocs := pending;
      pending := [];
      next := start;
      for k := 0 to |heredocs|
        invariant pending == []
        invariant TakeLines(source, State(), heredocs[k..], next) == TakeLines(source, old(State()).(pending := []), heredocs, start)
      {
        var h := heredocs[k];
        var body, end;
        body, end, next := ReadHeredoc(source, next, h);
        assert heredocs[k..][1..] == heredocs[k + 1..];
        if h.owner < |segments| {
          var o := segments[h.owner];
          segments := segments[h.owner := o.(body := o.body + body, end := o.end + end)];
        } else {
          segment := segment.(body := segment.body + body, end := segment.end + end);
        }
      }
    }

    method NewlineTurn()
      requires i < |source| && source[i] == '\n'
      modifies this
      ensures State() == TurnAtNewline(source, old(State()))
    {
      hide TakeLines, AtStart, Flushed;
      if depth > 0 {
        Type("\n");
        i := i + 1;
        return;
      }
      var next := TakeHeredocs(i + 1);
      if AtStart(segment.text) {
        Type(" ");
      } else {
        Flush("");
      }
      i := if next < |source| then next else |source|;
    }

    method ElseTurn()
      requires i < |source|
      modifies this
      ensures State() == TurnElse(source, old(State()))
    {
      var c := source[i];
      if depth == 0 {
        var operator := OperatorAt(source, i);
        if operator == ";;" {
          Type(operator);
          i := i + 2;
          return;
        }
        if operator != "" {
          Flush(operator);
          i := i + |operator|;
          return;
        }
      }
      if (c == ' ' || c == '\t') && AtStart(segment.text) {
        i := i + 1;
        return;
      }
      Type([c]);
      i := i + 1;
    }

    method OutsideTurn()
      requires i < |source|
      modifies this
      ensures State() == TurnOutside(source, old(State()))
    {
      var c := source[i];
      if c == '<' && CharAt(source, i + 1, '<') && depth == 0 {
        if CharAt(source, i + 2, '<') {
          Type("<<<");
          i := i + 3;
          return;
        }
        var tag := ReadTag(source, i);
        if tag.Some? {
          var opening := Slice(source, i, tag.value.end);
          pending := pending + [Heredoc(tag.value.delimiter, tag.value.strip, |segments|, opening)];
          Type(opening);
          i := tag.value.end;
          return;
        }
      }
      if c == '\n' {
        NewlineTurn();
      } else {
        ElseTurn();
      }
    }

    /** One turn of the loop. */
    method Advance()
      requires i < |source|
      modifies this
      ensures State() == Turn(source, old(State()))
    {
      var c := source[i];
      if quote.Some? {
        Type([c]);
        if c == '\\' && quote.value != '\'' && i + 1 < |source| {
          Type([source[i + 1]]);
          i := i + 1;
        } else if c == quote.value {
          quote := None;
        }
        i := i + 1;
        return;
      }
      if c == '\\' && i + 1 < |source| {
        Type([c, source[i + 1]]);
        i := i + 2;
        return;
      }
      if c == '\'' || c == '"' || c == '`' {
        quote := Some(c);
        Type([c]);
        i := i + 1;
        return;
      }
      if c == '#' && (i == 0 || IsSpace(source[i - 1])) {
        var end := LineEnd(source, i);
        Type(source[i..end]);
        i := end;
        return;
      }
      if c == '(' {
        depth := depth + 1;
      } else if c == ')' {
        depth := if depth > 0 then depth - 1 else 0;
      }
      OutsideTurn();
    }
  }
}
