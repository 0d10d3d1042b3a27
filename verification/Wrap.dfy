/**
 Word wrapping of terminal cells. Text becomes cells with a width; `ChunkCells` breaks them into lines at spaces where
 it can and inside a word where it must. Every line fits its limit or cannot be made narrower, no cell but spaces is
 lost, and the lines are slices of the text in order.
 */
module Wrap {
  import opened Seqs

  datatype Cell = Cell(text: string, width: nat)

  predicate IsSpace(cell: Cell) {
    cell.text == " " || cell.text == "\t"
  }

  function Width(cells: seq<Cell>): nat {
    if cells == [] then 0 else Width(cells[..|cells| - 1]) + cells[|cells| - 1].width
  }

  /** How many cells take up room. */
  function Wide(cells: seq<Cell>): nat {
    if cells == [] then 0 else Wide(cells[..|cells| - 1]) + if cells[|cells| - 1].width > 0 then 1 else 0
  }

  /** The cells that are not spaces. */
  function Words(cells: seq<Cell>): seq<Cell> {
    if cells == [] then []
    else
      var last := cells[|cells| - 1];
      Words(cells[..|cells| - 1]) + if last.text == " " || last.text == "\t" then [] else [last]
  }

  predicate Spaces(cells: seq<Cell>) {
    forall i :: 0 <= i < |cells| ==> cells[i].text == " " || cells[i].text == "\t"
  }

  predicate Letters(cells: seq<Cell>) {
    forall i :: 0 <= i < |cells| ==> !IsSpace(cells[i])
  }

  lemma {:induction false} Concat(a: seq<Cell>, b: seq<Cell>)
    ensures Width(a + b) == Width(a) + Width(b)
    ensures Wide(a + b) == Wide(a) + Wide(b)
    ensures Words(a + b) == Words(a) + Words(b)
    decreases |b|
  {
    if b == [] {
      assert a + b == a;
    } else {
      var n := |b| - 1;
      assert (a + b)[..|a + b| - 1] == a + b[..n];
      Concat(a, b[..n]);
    }
  }

  lemma {:induction false} SpacesAreNoWords(cells: seq<Cell>)
    requires Spaces(cells)
    ensures Words(cells) == []
    decreases |cells|
  {
    if cells != [] {
      SpacesAreNoWords(cells[..|cells| - 1]);
    }
  }

  lemma {:induction false} WidthWide(cells: seq<Cell>)
    ensures Width(cells) == 0 <==> Wide(cells) == 0
    ensures (forall c :: c in cells ==> 0 < c.width) && Width(cells) == 0 ==> cells == []
    decreases |cells|
  {
    if cells != [] {
      WidthWide(cells[..|cells| - 1]);
    }
  }

  lemma One(cell: Cell)
    ensures Width([cell]) == cell.width && Wide([cell]) == (if cell.width > 0 then 1 else 0)
    ensures Words([cell]) == if IsSpace(cell) then [] else [cell]
  {
    assert [cell][..0] == [];
  }

  /** The lines with another last line. */
  function WithLast(lines: seq<seq<Cell>>, line: seq<Cell>): seq<seq<Cell>>
    requires lines != []
  {
    lines[..|lines| - 1] + [line]
  }

  lemma WithLastFacts(lines: seq<seq<Cell>>, line: seq<Cell>)
    requires lines != []
    ensures var n := |lines| - 1; var lines' := WithLast(lines, line);
      && |lines'| == |lines| && lines'[n] == line && lines'[..n] == lines[..n] && (forall k :: 0 <= k < n ==> lines'[k] == lines[k])
      && Flat(lines') == Flat(lines[..n]) + line
      && Words(Flat(lines')) == Words(Flat(lines[..n])) + Words(line)
  {
    var n := |lines| - 1;
    FlatAppend(lines[..n], line);
    Concat(Flat(lines[..n]), line);
    assert WithLast(lines, line)[..n] == lines[..n];
  }

  lemma WithSameLast(lines: seq<seq<Cell>>)
    requires lines != []
    ensures WithLast(lines, lines[|lines| - 1]) == lines
  {
  }

  /** A line fits, or holds a single cell that takes up room. */
  predicate Fits(line: seq<Cell>, limit: nat) {
    Width(line) <= limit || Wide(line) == 1
  }

  function Limit(k: nat, first: int, rest: int): nat {
    var l := if k == 0 then first else rest;
    if l < 1 then 1 else l
  }

  function TrimLine(line: seq<Cell>): (r: seq<Cell>)
    ensures r <= line && Spaces(line[|r|..])
    ensures r == [] || !IsSpace(r[|r| - 1])
    decreases |line|
  {
    if line != [] && IsSpace(line[|line| - 1]) then
      var r := TrimLine(line[..|line| - 1]);
      assert forall i :: |r| <= i < |line| - 1 ==> line[i] == line[..|line| - 1][|r|..][i - |r|];
      r
    else line
  }

  lemma TrimFits(line: seq<Cell>, limit: nat)
    requires Fits(line, limit)
    ensures Fits(TrimLine(line), limit) && Words(TrimLine(line)) == Words(line)
  {
    var r := TrimLine(line);
    assert line == r + line[|r|..];
    Concat(r, line[|r|..]);
    SpacesAreNoWords(line[|r|..]);
    WidthWide(r);
  }

  // ---------------------------------------------------------------------------------------------
  // Lines as slices of the text
  // ---------------------------------------------------------------------------------------------

  ghost predicate Positive(cells: seq<Cell>) {
    forall c :: c in cells ==> 0 < c.width
  }

  /** Line `k` is the slice of `cells` at `starts[k]`, in order, and nothing but spaces falls outside of the lines. */
  ghost predicate Laid(cells: seq<Cell>, lines: seq<seq<Cell>>, starts: seq<nat>)
    decreases |lines|
  {
    && |starts| == |lines|
    && if lines == [] then Spaces(cells) else
         var n := |lines| - 1;
         && starts[n] + |lines[n]| <= |cells| && cells[starts[n]..starts[n] + |lines[n]|] == lines[n]
         && Spaces(cells[starts[n] + |lines[n]|..])
         && Laid(cells[..starts[n]], lines[..n], starts[..n])
  }

  /** And nothing falls between the last line and the end of `cells`. */
  ghost predicate Tight(cells: seq<Cell>, lines: seq<seq<Cell>>, starts: seq<nat>) {
    lines != [] && Laid(cells, lines, starts) && starts[|lines| - 1] + |lines[|lines| - 1]| == |cells|
  }

  lemma SpacesConcat(a: seq<Cell>, b: seq<Cell>)
    ensures Spaces(a + b) <==> Spaces(a) && Spaces(b)
  {
    assert forall i :: 0 <= i < |a| ==> a[i] == (a + b)[i];
    assert forall i :: 0 <= i < |b| ==> b[i] == (a + b)[|a| + i];
  }

  lemma LaidPad(cells: seq<Cell>, lines: seq<seq<Cell>>, starts: seq<nat>, spaces: seq<Cell>)
    requires Laid(cells, lines, starts) && Spaces(spaces)
    ensures Laid(cells + spaces, lines, starts)
  {
    if lines == [] {
      SpacesConcat(cells, spaces);
    } else {
      var start := starts[|lines| - 1];
      var end := start + |lines[|lines| - 1]|;
      assert (cells + spaces)[end..] == cells[end..] + spaces;
      SpacesConcat(cells[end..], spaces);
      assert (cells + spaces)[start..end] == cells[start..end];
      assert (cells + spaces)[..start] == cells[..start];
    }
  }

  /** An empty line opened behind what is laid out. */
  lemma LaidNext(cells: seq<Cell>, lines: seq<seq<Cell>>, starts: seq<nat>)
    requires Laid(cells, lines, starts)
    ensures Tight(cells, lines + [[]], starts + [|cells|])
  {
    var lines', starts' := lines + [[]], starts + [|cells|];
    assert cells[..|cells|] == cells && lines'[..|lines|] == lines && starts'[..|lines|] == starts;
    assert cells[|cells|..|cells|] == [] && cells[|cells|..] == [];
  }

  lemma LaidTrim(cells: seq<Cell>, lines: seq<seq<Cell>>, starts: seq<nat>)
    requires lines != [] && Laid(cells, lines, starts)
    ensures Laid(cells, WithLast(lines, TrimLine(lines[|lines| - 1])), starts)
  {
    var n := |lines| - 1;
    var line, trimmed, start := lines[n], TrimLine(lines[n]), starts[n];
    assert WithLast(lines, trimmed)[..n] == lines[..n];
    assert cells[start..start + |trimmed|] == line[..|trimmed|] == trimmed;
    assert cells[start + |trimmed|..] == line[|trimmed|..] + cells[start + |line|..];
    SpacesConcat(line[|trimmed|..], cells[start + |line|..]);
  }

  /** The last line can be emptied if it holds only spaces, and an empty one can start behind more spaces. */
  lemma LaidReset(cells: seq<Cell>, lines: seq<seq<Cell>>, starts: seq<nat>, spaces: seq<Cell>)
    requires lines != [] && Laid(cells, lines, starts) && Spaces(lines[|lines| - 1]) && Spaces(spaces)
    ensures Tight(cells + spaces, WithLast(lines, []), starts[..|lines| - 1] + [|cells + spaces|])
  {
    var n := |lines| - 1;
    var start, end := starts[n], starts[n] + |lines[n]|;
    assert cells[start..] == cells[start..end] + cells[end..];
    SpacesConcat(cells[start..end], cells[end..]);
    SpacesConcat(cells[start..], spaces);
    LaidPad(cells[..start], lines[..n], starts[..n], cells[start..] + spaces);
    assert cells[..start] + (cells[start..] + spaces) == cells + spaces;
    LaidNext(cells + spaces, lines[..n], starts[..n]);
  }

  lemma TightPush(cells: seq<Cell>, lines: seq<seq<Cell>>, starts: seq<nat>, more: seq<Cell>)
    requires Tight(cells, lines, starts)
    ensures Tight(cells + more, WithLast(lines, lines[|lines| - 1] + more), starts)
  {
    var n := |lines| - 1;
    assert WithLast(lines, lines[n] + more)[..n] == lines[..n];
    SliceOfMore(cells, more, starts[n], lines[n]);
  }

  lemma SliceOfMore(cells: seq<Cell>, more: seq<Cell>, start: nat, line: seq<Cell>)
    requires start + |line| == |cells| && cells[start..|cells|] == line
    ensures (cells + more)[..start] == cells[..start] && (cells + more)[start..start + |line + more|] == line + more
    ensures (cells + more)[start + |line + more|..] == []
  {
  }

  // ---------------------------------------------------------------------------------------------
  // No break without need
  // ---------------------------------------------------------------------------------------------

  /** The cells up to the first space. */
  function LeadingWord(cells: seq<Cell>): (r: seq<Cell>)
    ensures r <= cells
    ensures forall i :: 0 <= i < |r| ==> r[i].text != " " && r[i].text != "\t"
    ensures |r| < |cells| ==> cells[|r|].text == " " || cells[|r|].text == "\t"
    decreases |cells|
  {
    if cells == [] || IsSpace(cells[0]) then [] else
      var r := LeadingWord(cells[1..]);
      assert [cells[0]] + r <= cells;
      [cells[0]] + r
  }

  /** Up to the end of the word that opens line `k`, the text would have been too wide for the line before. */
  ghost predicate Needed(text: seq<Cell>, starts: seq<nat>, k: nat, first: int, rest: int)
    requires 0 < k < |starts|
  {
    && starts[k - 1] <= starts[k] <= |text|
    && var limit := if k == 1 then first else rest;
      TooWide(text, starts[k - 1], starts[k], if limit < 1 then 1 else limit)
  }

  ghost predicate TooWide(text: seq<Cell>, start: nat, next: nat, limit: nat)
    requires start <= next <= |text|
  {
    Width(text[start..next]) + Width(LeadingWord(text[next..])) > limit
  }

  /** Every line break was needed. */
  ghost predicate Greedy(text: seq<Cell>, starts: seq<nat>, first: int, rest: int) {
    forall k :: 0 < k < |starts| ==> Needed(text, starts, k, first, rest)
  }

  lemma WidthOfPrefix(a: seq<Cell>, b: seq<Cell>)
    requires a <= b
    ensures Width(a) <= Width(b)
  {
    assert b == a + b[|a|..];
    Concat(a, b[|a|..]);
  }

  /** One more line. */
  lemma GreedyNext(text: seq<Cell>, starts: seq<nat>, start: nat, first: int, rest: int)
    requires starts != [] && Greedy(text, starts, first, rest) && starts[|starts| - 1] <= start <= |text|
    requires TooWide(text, starts[|starts| - 1], start, Limit(|starts| - 1, first, rest))
    ensures Greedy(text, starts + [start], first, rest)
  {
    hide TooWide;
    var starts' := starts + [start];
    forall k | 0 < k < |starts'|
      ensures Needed(text, starts', k, first, rest)
    {
      assert k < |starts| ==> Needed(text, starts, k, first, rest);
    }
  }

  /** The last line starts behind the spaces it would have started with. */
  lemma GreedyMove(text: seq<Cell>, starts: seq<nat>, start: nat, first: int, rest: int)
    requires starts != [] && Greedy(text, starts, first, rest) && starts[|starts| - 1] <= start <= |text|
    requires Spaces(text[starts[|starts| - 1]..start])
    ensures Greedy(text, starts[..|starts| - 1] + [start], first, rest)
  {
    hide TooWide, Spaces;
    var n := |starts| - 1;
    var starts' := starts[..n] + [start];
    forall k | 0 < k < |starts'|
      ensures Needed(text, starts', k, first, rest)
    {
      assert Needed(text, starts, k, first, rest);
      if k == n {
        TooWideMove(text, starts[n - 1], starts[n], start, Limit(n - 1, first, rest));
      }
    }
  }

  lemma TooWideMove(text: seq<Cell>, start: nat, next: nat, next': nat, limit: nat)
    requires start <= next <= next' <= |text| && TooWide(text, start, next, limit) && Spaces(text[next..next'])
    ensures TooWide(text, start, next', limit)
  {
    if next < next' {
      assert text[next..next'][0] == text[next..][0];
      assert LeadingWord(text[next..]) == [];
      assert text[start..next'] == text[start..next] + text[next..next'];
      WidthOfPrefix(text[start..next], text[start..next']);
    }
  }

  // ---------------------------------------------------------------------------------------------
  // The algorithm
  // ---------------------------------------------------------------------------------------------

  /** A run of spaces, or a run of other cells. */
  predicate Uniform(t: seq<Cell>) {
    t != [] && forall i :: 0 <= i < |t| ==> IsSpace(t[i]) == IsSpace(t[0])
  }

  /** Runs of spaces and runs of other cells. */
  method Tokens(cells: seq<Cell>) returns (tokens: seq<seq<Cell>>)
    ensures Flat(tokens) == cells
    ensures forall k :: 0 <= k < |tokens| ==> Uniform(tokens[k])
  {
    tokens := [];
    for i := 0 to |cells|
      invariant Flat(tokens) == cells[..i]
      invariant forall k :: 0 <= k < |tokens| ==> Uniform(tokens[k])
    {
      var n := |tokens|;
      if n > 0 && IsSpace(tokens[n - 1][0]) == IsSpace(cells[i]) {
        PushFlat(tokens, cells[i]);
        tokens := tokens[..n - 1] + [tokens[n - 1] + [cells[i]]];
      } else {
        FlatAppend(tokens, [cells[i]]);
        tokens := tokens + [[cells[i]]];
      }
      assert cells[..i + 1] == cells[..i] + [cells[i]];
    }
    assert cells[..|cells|] == cells;
  }

  lemma PushFlat(tokens: seq<seq<Cell>>, cell: Cell)
    requires tokens != [] && Uniform(tokens[|tokens| - 1]) && IsSpace(tokens[|tokens| - 1][0]) == IsSpace(cell)
    ensures var n := |tokens| - 1;
      Flat(WithLast(tokens, tokens[n] + [cell])) == Flat(tokens) + [cell] && Uniform(tokens[n] + [cell])
  {
    var last := tokens[|tokens| - 1];
    WithSameLast(tokens);
    WithLastFacts(tokens, last);
    WithLastFacts(tokens, last + [cell]);
    UniformPush(last, cell);
    hide Uniform, Flat, IsSpace;
    assert Flat(tokens[..|tokens| - 1]) + (last + [cell]) == (Flat(tokens[..|tokens| - 1]) + last) + [cell];
  }

  lemma UniformPush(t: seq<Cell>, cell: Cell)
    requires Uniform(t) && IsSpace(t[0]) == IsSpace(cell)
    ensures Uniform(t + [cell])
  {
  }

  /** What the lines hold of the cells `done`. */
  ghost predicate Placed(done: seq<Cell>, lines: seq<seq<Cell>>, starts: seq<nat>, used: nat, limit: nat, content: bool, first: int, rest: int) {
    && lines != []
    && limit == Limit(|lines| - 1, first, rest)
    && (forall k :: 0 <= k < |lines| ==> Fits(lines[k], Limit(k, first, rest)))
    && used == Width(lines[|lines| - 1])
    && (!content ==> Spaces(lines[|lines| - 1]))
    && Words(Flat(lines)) == Words(done)
    && (Positive(done) ==> Laid(done, lines, starts))
  }

  /** Where the lines start in the text, of which `done` comes first. */
  ghost predicate Started(text: seq<Cell>, done: seq<Cell>, lines: seq<seq<Cell>>, starts: seq<nat>, used: nat, content: bool, first: int, rest: int) {
    && done <= text && lines != [] && |starts| == |lines|
    && Greedy(text, starts, first, rest)
    && var n := |lines| - 1;
    && starts[n] <= |done|
    && used <= Width(done[starts[n]..])
    && (lines[n] == [] ==> starts[n] == |done|)
    && (!content && n > 0 ==> lines[n] == [])
  }

  /** Another last line with the same words in it. */
  lemma PlacedAgain(done: seq<Cell>, lines: seq<seq<Cell>>, starts: seq<nat>, line: seq<Cell>, starts': seq<nat>, used: nat, limit: nat,
      content: bool, first: int, rest: int)
    requires Placed(done, lines, starts, used, limit, content, first, rest)
    requires Words(line) == Words(lines[|lines| - 1]) && Fits(line, limit) && (content || Spaces(line))
    requires Positive(done) ==> Laid(done, WithLast(lines, line), starts')
    ensures Placed(done, WithLast(lines, line), starts', Width(line), limit, content, first, rest)
  {
    hide Fits, Laid, Words, Flat, Width, Positive, Spaces, Limit;
    WithSameLast(lines);
    WithLastFacts(lines, line);
    WithLastFacts(lines, lines[|lines| - 1]);
  }

  lemma PlacedMore(done: seq<Cell>, lines: seq<seq<Cell>>, starts: seq<nat>, more: seq<Cell>, used: nat, limit: nat, content: bool, first: int, rest: int)
    requires Placed(done, lines, starts, used, limit, content, first, rest) && (Positive(done) ==> Tight(done, lines, starts))
    requires var line := lines[|lines| - 1] + more; Fits(line, limit) && (content || Spaces(line))
    ensures var line := lines[|lines| - 1] + more; var lines' := WithLast(lines, line);
      && Placed(done + more, lines', starts, used + Width(more), limit, content, first, rest)
      && (Positive(done + more) ==> Tight(done + more, lines', starts))
  {
    hide Fits, Laid, Tight, Words, Flat, Width, Positive, Spaces, Limit;
    var last := lines[|lines| - 1];
    TightMore(done, lines, starts, more);
    WithSameLast(lines);
    WithLastFacts(lines, last + more);
    WithLastFacts(lines, last);
    Concat(last, more);
    Concat(done, more);
    assert Words(Flat(lines[..|lines| - 1])) + (Words(last) + Words(more)) == (Words(Flat(lines[..|lines| - 1])) + Words(last)) + Words(more);
  }

  lemma TightMore(done: seq<Cell>, lines: seq<seq<Cell>>, starts: seq<nat>, more: seq<Cell>)
    requires lines != [] && (Positive(done) ==> Tight(done, lines, starts))
    ensures var lines' := WithLast(lines, lines[|lines| - 1] + more);
      Positive(done + more) ==> Tight(done + more, lines', starts) && Laid(done + more, lines', starts)
  {
    hide Laid, Tight;
    PositivePrefix(done, more);
    if Positive(done + more) {
      TightPush(done, lines, starts, more);
      TightIsLaid(done + more, WithLast(lines, lines[|lines| - 1] + more), starts);
    }
  }

  lemma PositivePrefix(done: seq<Cell>, more: seq<Cell>)
    ensures Positive(done + more) ==> Positive(done)
  {
    assert forall c :: c in done ==> c in done + more;
  }

  lemma TightIsLaid(cells: seq<Cell>, lines: seq<seq<Cell>>, starts: seq<nat>)
    requires Tight(cells, lines, starts)
    ensures Laid(cells, lines, starts)
  {
  }

  /** The spaces at the end of the last line can go. */
  lemma PlacedTrim(done: seq<Cell>, lines: seq<seq<Cell>>, starts: seq<nat>, used: nat, limit: nat, content: bool, first: int, rest: int)
    requires Placed(done, lines, starts, used, limit, content, first, rest)
    ensures var line := TrimLine(lines[|lines| - 1]);
      Placed(done, WithLast(lines, line), starts, Width(line), limit, content, first, rest)
  {
    hide Fits, Laid, Words, Flat, Width, Positive, Limit;
    var line := lines[|lines| - 1];
    TrimFits(line, limit);
    if Positive(done) {
      LaidTrim(done, lines, starts);
    }
    assert Spaces(line) ==> Spaces(TrimLine(line));
    PlacedAgain(done, lines, starts, TrimLine(line), starts, used, limit, content, first, rest);
  }

  /** More spaces are left out behind the last line. */
  lemma PlacedPad(done: seq<Cell>, lines: seq<seq<Cell>>, starts: seq<nat>, spaces: seq<Cell>, used: nat, limit: nat, content: bool, first: int, rest: int)
    requires Placed(done, lines, starts, used, limit, content, first, rest) && Spaces(spaces)
    ensures Placed(done + spaces, lines, starts, used, limit, content, first, rest)
  {
    hide Fits, Laid, Flat, Width, Positive, Spaces, Limit;
    PositivePrefix(done, spaces);
    if Positive(done + spaces) {
      LaidPad(done, lines, starts, spaces);
    }
    Concat(done, spaces);
    SpacesAreNoWords(spaces);
  }

  /** A last line of spaces can be emptied. */
  lemma PlacedReset(done: seq<Cell>, lines: seq<seq<Cell>>, starts: seq<nat>, spaces: seq<Cell>, used: nat, limit: nat, content: bool,
      first: int, rest: int)
    requires Placed(done, lines, starts, used, limit, content, first, rest) && Spaces(spaces) && |starts| == |lines|
    requires Spaces(lines[|lines| - 1])
    ensures var starts' := starts[..|lines| - 1] + [|done + spaces|];
      && Placed(done + spaces, WithLast(lines, []), starts', 0, limit, content, first, rest)
      && (Positive(done + spaces) ==> Tight(done + spaces, WithLast(lines, []), starts'))
  {
    hide Laid, Tight, Flat, Positive, Limit;
    var line := lines[|lines| - 1];
    var starts' := starts[..|lines| - 1] + [|done + spaces|];
    SpacesAreNoWords(line);
    PositivePrefix(done, spaces);
    if Positive(done + spaces) {
      LaidReset(done, lines, starts, spaces);
      TightIsLaid(done + spaces, WithLast(lines, []), starts');
    }
    PlacedPad(done, lines, starts, spaces, used, limit, content, first, rest);
    PlacedAgain(done + spaces, lines, starts, [], starts', used, limit, content, first, rest);
  }

  /** If every cell takes up room, a line of no width is empty. */
  lemma EmptyWhenUnused(done: seq<Cell>, lines: seq<seq<Cell>>, starts: seq<nat>)
    requires lines != [] && Width(lines[|lines| - 1]) == 0
    ensures Positive(done) && Laid(done, lines, starts) ==> lines[|lines| - 1] == []
  {
    if Positive(done) && Laid(done, lines, starts) {
      var line := lines[|lines| - 1];
      SliceIsPositive(done, lines, starts);
      hide *;
      WidthWide(line);
    }
  }

  lemma SliceIsPositive(cells: seq<Cell>, lines: seq<seq<Cell>>, starts: seq<nat>)
    requires lines != [] && Laid(cells, lines, starts) && Positive(cells)
    ensures forall c :: c in lines[|lines| - 1] ==> 0 < c.width
  {
    var line, start := lines[|lines| - 1], starts[|lines| - 1];
    forall c | c in line
      ensures 0 < c.width
    {
      var i :| 0 <= i < |line| && line[i] == c;
      assert cells[start..start + |line|][i] == cells[start + i];
    }
  }

  /** What fits behind the last line, and what fits a line of its own. */
  lemma MoreFits(line: seq<Cell>, more: seq<Cell>, limit: nat)
    ensures Width(line) + Width(more) <= limit ==> Fits(line + more, limit)
    ensures Width(line) == 0 && |more| == 1 ==> Fits(line + more, limit)
  {
    Concat(line, more);
    WidthWide(line);
    if |more| == 1 {
      One(more[0]);
      assert more == [more[0]];
    }
  }

  lemma PlacedNext(done: seq<Cell>, lines: seq<seq<Cell>>, starts: seq<nat>, used: nat, limit: nat, content: bool, first: int, rest: int)
    requires Placed(done, lines, starts, used, limit, content, first, rest)
    ensures Placed(done, lines + [[]], starts + [|done|], 0, Limit(1, first, rest), false, first, rest)
    ensures Positive(done) ==> Tight(done, lines + [[]], starts + [|done|])
  {
    hide Laid, Tight, Words, Flat, Positive;
    if Positive(done) {
      LaidNext(done, lines, starts);
      TightIsLaid(done, lines + [[]], starts + [|done|]);
    }
    FlatAppend(lines, []);
    assert Flat(lines) + [] == Flat(lines);
    assert Width([]) == 0 && Fits([], Limit(1, first, rest));
  }

  lemma PlacedFirst(text: seq<Cell>, first: int, rest: int)
    ensures Placed([], [[]], [0], 0, Limit(0, first, rest), false, first, rest) && Tight([], [[]], [0])
    ensures Started(text, [], [[]], [0], 0, false, first, rest)
  {
    var none: seq<seq<Cell>> := [];
    LaidNext([], none, []);
    assert none + [[]] == [[]] && [] + [0] == [0];
    TightIsLaid([], [[]], [0]);
    FlatAppend(none, []);
    assert Flat<Cell>([[]]) == [];
  }

  lemma StartedMore(text: seq<Cell>, done: seq<Cell>, lines: seq<seq<Cell>>, starts: seq<nat>, more: seq<Cell>, used: nat, content: bool,
      first: int, rest: int)
    requires Started(text, done, lines, starts, used, content, first, rest)
    requires done + more <= text && more != [] && (content || |lines| == 1)
    ensures Started(text, done + more, WithLast(lines, lines[|lines| - 1] + more), starts, used + Width(more), content, first, rest)
  {
    hide Greedy, Width, Limit;
    var start := starts[|lines| - 1];
    assert (done + more)[start..] == done[start..] + more;
    Concat(done[start..], more);
  }

  /** Spaces are dropped, and an empty last line starts behind them. */
  lemma StartedReset(text: seq<Cell>, done: seq<Cell>, lines: seq<seq<Cell>>, starts: seq<nat>, spaces: seq<Cell>, used: nat, content: bool,
      first: int, rest: int)
    requires Started(text, done, lines, starts, used, content, first, rest)
    requires done + spaces <= text && Spaces(spaces) && (lines[|lines| - 1] == [] || |lines| == 1)
    ensures var starts' := starts[..|lines| - 1] + [|done + spaces|];
      Started(text, done + spaces, WithLast(lines, []), starts', 0, content, first, rest)
  {
    var n := |lines| - 1;
    if n > 0 {
      assert text[starts[n]..|done + spaces|] == spaces;
      GreedyMove(text, starts, |done + spaces|, first, rest);
    }
  }

  /** Spaces are dropped behind a line of no width. */
  lemma StartedPad(text: seq<Cell>, done: seq<Cell>, lines: seq<seq<Cell>>, starts: seq<nat>, spaces: seq<Cell>, used: nat, content: bool,
      first: int, rest: int)
    requires Started(text, done, lines, starts, used, content, first, rest)
    requires done + spaces <= text && lines[|lines| - 1] != []
    ensures Started(text, done + spaces, lines, starts, used, content, first, rest)
  {
    hide Greedy;
    var start := starts[|lines| - 1];
    assert (done + spaces)[start..] == done[start..] + spaces;
    Concat(done[start..], spaces);
  }

  lemma StartedNext(text: seq<Cell>, done: seq<Cell>, lines: seq<seq<Cell>>, starts: seq<nat>, spaces: seq<Cell>, used: nat, limit: nat, content: bool,
      first: int, rest: int)
    requires Started(text, done, lines, starts, used, content, first, rest) && limit == Limit(|lines| - 1, first, rest)
    requires done + spaces <= text && used + Width(spaces) + Width(LeadingWord(text[|done + spaces|..])) > limit
    ensures Started(text, done + spaces, lines + [[]], starts + [|done + spaces|], 0, false, first, rest)
  {
    hide Greedy, TooWide, Width, LeadingWord, Limit;
    var n := |lines| - 1;
    TooWideAfter(text, done, spaces, starts[n], used, limit);
    GreedyNext(text, starts, |done + spaces|, first, rest);
    assert (done + spaces)[|done + spaces|..] == [];
    NoWidth();
  }

  lemma NoWidth()
    ensures Width([]) == 0
  {
  }

  lemma TooWideAfter(text: seq<Cell>, done: seq<Cell>, spaces: seq<Cell>, start: nat, used: nat, limit: nat)
    requires start <= |done| && done + spaces <= text && used <= Width(done[start..])
    requires used + Width(spaces) + Width(LeadingWord(text[|done + spaces|..])) > limit
    ensures TooWide(text, start, |done + spaces|, limit)
  {
    hide Width, LeadingWord;
    assert text[start..|done + spaces|] == done[start..] + spaces;
    Concat(done[start..], spaces);
  }

  /** The next cells will continue the last line, or start it. */
  ghost predicate Ready(text: seq<Cell>, done: seq<Cell>, lines: seq<seq<Cell>>, starts: seq<nat>, used: nat, limit: nat, content: bool,
      first: int, rest: int) {
    && Placed(done, lines, starts, used, limit, content, first, rest)
    && (Positive(done) ==> Tight(done, lines, starts))
    && Started(text, done, lines, starts, used, content, first, rest)
  }

  lemma ContentIsMore(text: seq<Cell>, done: seq<Cell>, lines: seq<seq<Cell>>, starts: seq<nat>, used: nat, limit: nat, content: bool,
      first: int, rest: int)
    requires Ready(text, done, lines, starts, used, limit, content, first, rest)
    ensures Ready(text, done, lines, starts, used, limit, true, first, rest)
  {
    hide Laid, Tight, Positive, Greedy, Words, Flat, Width, Fits, Limit;
  }

  /** What the last line is, read off its invariants. */
  lemma LastLine(text: seq<Cell>, done: seq<Cell>, lines: seq<seq<Cell>>, starts: seq<nat>, used: nat, limit: nat, content: bool,
      first: int, rest: int)
    requires Ready(text, done, lines, starts, used, limit, content, first, rest)
    ensures lines != [] && |starts| == |lines| && used == Width(lines[|lines| - 1]) && limit == Limit(|lines| - 1, first, rest)
    ensures !content ==> Spaces(lines[|lines| - 1]) && (|lines| > 1 ==> lines[|lines| - 1] == [] && used == 0)
    ensures done <= text
  {
  }

  lemma ReadyFirst(text: seq<Cell>, first: int, rest: int)
    ensures Ready(text, [], [[]], [0], 0, Limit(0, first, rest), false, first, rest)
  {
    hide Placed, Started, Tight;
    PlacedFirst(text, first, rest);
  }

  lemma ReadyNext(text: seq<Cell>, done: seq<Cell>, lines: seq<seq<Cell>>, starts: seq<nat>, used: nat, limit: nat, content: bool,
      first: int, rest: int, dropped: seq<Cell>)
    requires Ready(text, done, lines, starts, used, limit, content, first, rest)
    requires Spaces(dropped) && done + dropped <= text
    requires used + Width(dropped) + Width(LeadingWord(text[|done + dropped|..])) > limit
    ensures lines != []
    ensures Ready(text, done + dropped, WithLast(lines, TrimLine(lines[|lines| - 1])) + [[]], starts + [|done + dropped|], 0, Limit(1, first, rest),
      false, first, rest)
  {
    LastLine(text, done, lines, starts, used, limit, content, first, rest);
    hide Placed, Started, Tight, Laid, Positive, Fits, Words, Flat, Width, Spaces, Greedy, Limit, LeadingWord, TrimLine;
    StartedNext(text, done, lines, starts, dropped, used, limit, content, first, rest);
    StartedOther(text, done + dropped, lines, starts + [|done + dropped|], TrimLine(lines[|lines| - 1]), first, rest);
    var line := TrimLine(lines[|lines| - 1]);
    PlacedTrim(done, lines, starts, used, limit, content, first, rest);
    PlacedPad(done, WithLast(lines, line), starts, dropped, Width(line), limit, content, first, rest);
    PlacedNext(done + dropped, WithLast(lines, line), starts, Width(line), limit, content, first, rest);
  }

  lemma StartedOther(text: seq<Cell>, done: seq<Cell>, lines: seq<seq<Cell>>, starts: seq<nat>, line: seq<Cell>, first: int, rest: int)
    requires lines != [] && Started(text, done, lines + [[]], starts, 0, false, first, rest)
    ensures Started(text, done, WithLast(lines, line) + [[]], starts, 0, false, first, rest)
  {
    hide Greedy;
  }

  lemma ReadyMore(text: seq<Cell>, done: seq<Cell>, lines: seq<seq<Cell>>, starts: seq<nat>, used: nat, limit: nat, content: bool,
      first: int, rest: int, token: seq<Cell>)
    requires Ready(text, done, lines, starts, used, limit, content, first, rest)
    requires lines != [] && token != [] && done + token <= text && Fits(lines[|lines| - 1] + token, limit)
    requires content || (Spaces(lines[|lines| - 1] + token) && |lines| == 1)
    ensures Ready(text, done + token, WithLast(lines, lines[|lines| - 1] + token), starts, used + Width(token), limit, content, first, rest)
  {
    hide Placed, Started, Tight, Laid, Positive, Fits, Words, Flat, Width, Spaces, Greedy, Limit, LeadingWord, TrimLine;
    PlacedMore(done, lines, starts, token, used, limit, content, first, rest);
    StartedMore(text, done, lines, starts, token, used, content, first, rest);
  }

  /** Spaces dropped before an empty line, or with a first line of spaces. */
  lemma ReadyReset(text: seq<Cell>, done: seq<Cell>, lines: seq<seq<Cell>>, starts: seq<nat>, used: nat, limit: nat, content: bool,
      first: int, rest: int, spaces: seq<Cell>)
    requires Ready(text, done, lines, starts, used, limit, content, first, rest)
    requires Spaces(spaces) && done + spaces <= text && lines != [] && (lines[|lines| - 1] == [] || (!content && |lines| == 1))
    ensures |starts| == |lines|
    ensures Ready(text, done + spaces, WithLast(lines, []), starts[..|lines| - 1] + [|done + spaces|], 0, limit, content, first, rest)
  {
    LastLine(text, done, lines, starts, used, limit, content, first, rest);
    assert lines[|lines| - 1] == [] ==> Spaces(lines[|lines| - 1]);
    hide Placed, Started, Tight, Laid, Positive, Fits, Words, Flat, Width, Spaces, Greedy, Limit, LeadingWord, TrimLine;
    PlacedReset(done, lines, starts, spaces, used, limit, content, first, rest);
    StartedReset(text, done, lines, starts, spaces, used, content, first, rest);
  }

  /** Spaces dropped behind a line of no width. */
  lemma ReadyPad(text: seq<Cell>, done: seq<Cell>, lines: seq<seq<Cell>>, starts: seq<nat>, used: nat, limit: nat, content: bool,
      first: int, rest: int, spaces: seq<Cell>)
    requires Ready(text, done, lines, starts, used, limit, content, first, rest)
    requires Spaces(spaces) && done + spaces <= text && lines != [] && lines[|lines| - 1] != [] && used == 0
    ensures Ready(text, done + spaces, lines, starts, used, limit, content, first, rest)
  {
    LastLine(text, done, lines, starts, used, limit, content, first, rest);
    hide Placed, Started, Tight, Laid, Positive, Fits, Words, Flat, Width, Spaces, Greedy, Limit, LeadingWord, TrimLine;
    EmptyWhenUnused(done, lines, starts);
    PositivePrefix(done, spaces);
    ReadyIsLaid(text, done, lines, starts, used, limit, content, first, rest);
    PlacedPad(done, lines, starts, spaces, used, limit, content, first, rest);
    StartedPad(text, done, lines, starts, spaces, used, content, first, rest);
  }

  lemma ReadyIsLaid(text: seq<Cell>, done: seq<Cell>, lines: seq<seq<Cell>>, starts: seq<nat>, used: nat, limit: nat, content: bool,
      first: int, rest: int)
    requires Ready(text, done, lines, starts, used, limit, content, first, rest)
    ensures Positive(done) ==> Laid(done, lines, starts)
  {
    hide Laid, Tight, Started, Positive, Words, Flat, Width, Fits, Limit;
  }

  /** The variables of the algorithm and its closure `next`. */
  class Layout {
    const first: int
    const rest: int
    var lines: seq<seq<Cell>>
    var used: nat
    var limit: nat
    var content: bool
    /** The text, the cells of it that have been placed or dropped so far, and where the lines start in it. */
    ghost const text: seq<Cell>
    ghost var done: seq<Cell>
    ghost var starts: seq<nat>

    constructor (text: seq<Cell>, first: int, rest: int)
      ensures this.text == text && this.first == first && this.rest == rest && done == [] && Valid()
    {
      this.text, this.first, this.rest := text, first, rest;
      lines, used, limit, content := [[]], 0, Limit(0, first, rest), false;
      done, starts := [], [0];
      new;
      ReadyFirst(text, first, rest);
    }

    ghost predicate Valid()
      reads this
    {
      Ready(text, done, lines, starts, used, limit, content, first, rest)
    }

    /** A new line, with the spaces `dropped` in front of it. */
    method Next(ghost dropped: seq<Cell>)
      requires Valid() && Spaces(dropped) && done + dropped <= text
      requires used + Width(dropped) + Width(LeadingWord(text[|done + dropped|..])) > limit
      modifies this
      ensures Valid() && done == old(done) + dropped && used == 0 && !content && lines != [] && lines[|lines| - 1] == []
    {
      hide Ready, Fits, Width, Spaces, Limit, LeadingWord, TrimLine, Flat, Laid, Positive, Words;
      ReadyNext(text, done, lines, starts, used, limit, content, first, rest, dropped);
      lines := WithLast(lines, TrimLine(lines[|lines| - 1])) + [[]];
      used := 0;
      content := false;
      limit := Limit(1, first, rest);
      done := done + dropped;
      starts := starts + [|done|];
    }

    /** Cells added to the last line. */
    method Push(token: seq<Cell>)
      requires Valid() && lines != [] && token != [] && done + token <= text && Fits(lines[|lines| - 1] + token, limit)
      requires content || (Spaces(lines[|lines| - 1] + token) && |lines| == 1)
      modifies this`lines, this`used, this`done
      ensures Valid() && done == old(done) + token
    {
      hide Ready, Fits, Width, Spaces, Limit, LeadingWord, TrimLine, Flat, Laid, Positive, Words;
      ReadyMore(text, done, lines, starts, used, limit, content, first, rest, token);
      lines := WithLast(lines, lines[|lines| - 1] + token);
      used := used + Width(token);
      done := done + token;
    }

    /** A word, or a part of one, added to the last line. */
    method PushWord(token: seq<Cell>)
      requires Valid() && lines != [] && token != [] && done + token <= text && Fits(lines[|lines| - 1] + token, limit)
      modifies this`lines, this`used, this`done, this`content
      ensures Valid() && done == old(done) + token
    {
      hide Ready, Fits, Width, Spaces, Limit, LeadingWord, TrimLine, Flat, Laid, Positive, Words;
      ContentIsMore(text, done, lines, starts, used, limit, content, first, rest);
      content := true;
      Push(token);
    }

    /** Spaces left out at the start of a line. */
    ghost method Skip(spaces: seq<Cell>)
      requires Valid() && Spaces(spaces) && done + spaces <= text && used == 0 && |lines| > 1
      modifies this`done, this`starts
      ensures Valid() && done == old(done) + spaces
    {
      LastLine(text, done, lines, starts, used, limit, content, first, rest);
      hide Ready, Fits, Width, Spaces, Limit, LeadingWord, TrimLine, Flat, Laid, Positive, Words;
      if lines[|lines| - 1] == [] {
        ReadyReset(text, done, lines, starts, used, limit, content, first, rest, spaces);
        assert WithLast(lines, []) == lines;
        done := done + spaces;
        starts := starts[..|lines| - 1] + [|done|];
      } else {
        ReadyPad(text, done, lines, starts, used, limit, content, first, rest, spaces);
        done := done + spaces;
      }
    }

    /** A run of spaces: dropped at the start of a line, or instead of the line end it would run over. */
    method PlaceSpaces(token: seq<Cell>)
      requires Valid() && token != [] && Spaces(token) && done + token <= text
      modifies this
      ensures Valid() && done == old(done) + token
    {
      var width := Width(token);
      if used == 0 && |lines| > 1 {
        Skip(token);
        return;
      }
      LastLine(text, done, lines, starts, used, limit, content, first, rest);
      hide Ready, Fits, Width, Spaces, Limit, LeadingWord, TrimLine, Flat, Laid, Positive, Words;
      if used + width > limit {
        Next(token);
        return;
      }
      MoreFits(lines[|lines| - 1], token, limit);
      SpacesConcat(lines[|lines| - 1], token);
      Push(token);
    }

    /** A word goes on the line, or on the next one, or is cut where it must be. */
    method PlaceWord(token: seq<Cell>)
      requires Valid() && token != [] && Letters(token) && done + token <= text
      modifies this
      ensures Valid() && done == old(done) + token
    {
      hide Ready, Fits, Width, Spaces, Limit, LeadingWord, TrimLine, Flat, Laid, Positive, Words, Letters;
      var width := Width(token);
      Ahead(text, done, token);
      if used + width > limit {
        if content {
          NextWord();
        } else {
          ResetLine();
        }
      }
      if width <= limit - used {
        PutWord(token);
      } else {
        CutWord(token);
      }
    }

    method PutWord(token: seq<Cell>)
      requires Valid() && token != [] && done + token <= text && Width(token) <= limit - used
      modifies this`lines, this`used, this`done, this`content
      ensures Valid() && done == old(done) + token
    {
      LastLine(text, done, lines, starts, used, limit, content, first, rest);
      hide Ready, Fits, Width, Spaces, Limit, LeadingWord, TrimLine, Flat, Laid, Positive, Words, Letters;
      MoreFits(lines[|lines| - 1], token, limit);
      PushWord(token);
    }

    /** A word that is too wide for a line. */
    method CutWord(token: seq<Cell>)
      requires Valid() && Letters(token) && done + token <= text
      modifies this
      ensures Valid() && done == old(done) + token
    {
      for i := 0 to |token|
        invariant Valid() && done == old(done) + token[..i]
      {
        hide Ready;
        assert token[..i + 1] == token[..i] + [token[i]];
        PrefixStep(text, old(done), token, i);
        PlaceCell(token[i]);
      }
      assert token[..|token|] == token;
    }

    /** One cell of a word that is too wide for a line. */
    method PlaceCell(cell: Cell)
      requires Valid() && !IsSpace(cell) && done + [cell] <= text
      modifies this
      ensures Valid() && done == old(done) + [cell]
    {
      One(cell);
      hide Ready, Fits, Width, Spaces, Limit, LeadingWord, TrimLine, Flat, Laid, Positive, Words;
      Ahead(text, done, [cell]);
      LastLine(text, done, lines, starts, used, limit, content, first, rest);
      if used + cell.width > limit && used > 0 {
        NextWord();
      }
      LastLine(text, done, lines, starts, used, limit, content, first, rest);
      MoreFits(lines[|lines| - 1], [cell], limit);
      PushWord([cell]);
    }

    method NextWord()
      requires Valid() && used + Width(LeadingWord(text[|done|..])) > limit
      modifies this
      ensures Valid() && done == old(done) && used == 0 && !content && lines != [] && lines[|lines| - 1] == []
    {
      LastLine(text, done, lines, starts, used, limit, content, first, rest);
      assert done + [] == done && Width([]) == 0;
      hide Ready, Fits, Width, Spaces, Limit, LeadingWord, TrimLine, Flat, Laid, Positive, Words;
      Next([]);
    }

    /** The last line holds only spaces; they are dropped. */
    method ResetLine()
      requires Valid() && !content
      modifies this`lines, this`used, this`starts
      ensures Valid() && used == 0 && lines != [] && lines[|lines| - 1] == []
    {
      LastLine(text, done, lines, starts, used, limit, content, first, rest);
      assert done + [] == done && Spaces([]);
      hide Ready, Fits, Width, Spaces, Limit, LeadingWord, TrimLine, Flat, Laid, Positive, Words;
      ReadyReset(text, done, lines, starts, used, limit, content, first, rest, []);
      lines := WithLast(lines, []);
      used := 0;
      starts := starts[..|lines| - 1] + [|done|];
    }
  }

  lemma PrefixStep(text: seq<Cell>, done: seq<Cell>, token: seq<Cell>, i: nat)
    requires done + token <= text && i < |token|
    ensures done + token[..i] + [token[i]] <= text
  {
  }

  /** A token of a word is no wider than what is ahead of it up to the next space. */
  lemma Ahead(text: seq<Cell>, done: seq<Cell>, token: seq<Cell>)
    requires done + token <= text && Letters(token)
    ensures Width(token) <= Width(LeadingWord(text[|done|..]))
  {
    var ahead := text[|done|..];
    assert ahead[..|token|] == (done + token)[|done|..] == token;
    assert forall i :: 0 <= i < |token| ==> ahead[i] == token[i];
    WidthOfPrefix(token, LeadingWord(ahead));
  }

  /** Runs of spaces and runs of other cells. */
  lemma TokenKind(token: seq<Cell>)
    requires Uniform(token)
    ensures token != [] && (IsSpace(token[0]) ==> Spaces(token))
    ensures !IsSpace(token[0]) ==> Letters(token)
  {
  }

  lemma {:induction false} FlatPrefix(tokens: seq<seq<Cell>>, i: nat)
    requires i <= |tokens|
    ensures Flat(tokens[..i]) <= Flat(tokens)
    decreases |tokens| - i
  {
    if i < |tokens| {
      assert tokens[..i + 1] == tokens[..i] + [tokens[i]];
      FlatAppend(tokens[..i], tokens[i]);
      FlatPrefix(tokens, i + 1);
    } else {
      assert tokens[..i] == tokens;
    }
  }

  /**
   `chunkCells`. Main result: every line fits its limit or holds a single cell that takes up room; no cell but spaces is
   lost; if every cell takes up room, line `k` is the slice of the text at `starts[k]`, in order, with nothing but spaces
   between; and no line breaks before the next word, or what is left of it, would have run over.
   */
  method ChunkCells(cells: seq<Cell>, first: int, rest: int) returns (lines: seq<seq<Cell>>, ghost starts: seq<nat>)
    ensures lines != []
    ensures forall k :: 0 <= k < |lines| ==>
      Width(lines[k]) <= 1 || Width(lines[k]) <= (if k == 0 then first else rest) || Wide(lines[k]) == 1
    ensures Words(Flat(lines)) == Words(cells)
    ensures Positive(cells) ==> Laid(cells, lines, starts)
    ensures |starts| == |lines| && Greedy(cells, starts, first, rest)
  {
    var tokens := Tokens(cells);
    var layout := new Layout(cells, first, rest);
    hide Ready, Laid, Positive, Greedy, Words, Width, Fits, Spaces, Limit, LeadingWord, IsSpace, Uniform, Letters;
    for i := 0 to |tokens|
      invariant fresh(layout) && layout.Valid() && layout.first == first && layout.rest == rest && layout.text == cells
      invariant layout.done == Flat(tokens[..i])
    {
      assert tokens[..i + 1] == tokens[..i] + [tokens[i]];
      FlatAppend(tokens[..i], tokens[i]);
      FlatPrefix(tokens, i + 1);
      TokenKind(tokens[i]);
      if IsSpace(tokens[i][0]) {
        layout.PlaceSpaces(tokens[i]);
      } else {
        layout.PlaceWord(tokens[i]);
      }
    }
    assert tokens[..|tokens|] == tokens;
    lines := layout.lines;
    starts := layout.starts;
    Finish(cells, lines, starts, layout.used, layout.limit, layout.content, first, rest);
    if |lines| > 1 {
      lines := WithLast(lines, TrimLine(lines[|lines| - 1]));
    }
    FitsIs(lines, first, rest);
  }

  lemma FitsIs(lines: seq<seq<Cell>>, first: int, rest: int)
    requires forall k :: 0 <= k < |lines| ==> Fits(lines[k], Limit(k, first, rest))
    ensures forall k :: 0 <= k < |lines| ==>
      Width(lines[k]) <= 1 || Width(lines[k]) <= (if k == 0 then first else rest) || Wide(lines[k]) == 1
  {
    hide Width, Wide;
    assert forall k :: 0 <= k < |lines| ==> Fits(lines[k], Limit(k, first, rest));
  }

  lemma Finish(text: seq<Cell>, lines: seq<seq<Cell>>, starts: seq<nat>, used: nat, limit: nat, content: bool, first: int, rest: int)
    requires Ready(text, text, lines, starts, used, limit, content, first, rest)
    ensures lines != [] && |starts| == |lines| && Greedy(text, starts, first, rest)
    ensures Wrapped(text, lines, starts, first, rest) && Wrapped(text, WithLast(lines, TrimLine(lines[|lines| - 1])), starts, first, rest)
  {
    hide Fits, Laid, Words, Flat, Width, Positive, Limit, TrimLine, Greedy;
    PlacedTrim(text, lines, starts, used, limit, content, first, rest);
  }

  ghost predicate Wrapped(text: seq<Cell>, lines: seq<seq<Cell>>, starts: seq<nat>, first: int, rest: int) {
    && lines != [] && (forall k :: 0 <= k < |lines| ==> Fits(lines[k], Limit(k, first, rest)))
    && Words(Flat(lines)) == Words(text)
    && (Positive(text) ==> Laid(text, lines, starts))
  }
}
