/**
 The diff view. A numbered diff is read back into rows, rows far from any change are dropped, deletions and additions are
 paired into blocks, and a preview takes the first rows.

 The printer of such diffs is not part of the repository; `Printed` is its format: a prefix, the padded number of the line in
 the old file (in the new one for added lines), a space and the text; a run of lines left out becomes one line of dots.
 */
module DiffView {
  import opened Wrappers
  import opened Strings
  import opened Seqs

  const CONTEXT_LINES := 3

  datatype Row = Ctx(oldNo: nat, newNo: int, text: string) | Add(newNo: int, text: string) | Del(oldNo: nat, text: string)

  type Hunk = seq<Row>

  // ---------------------------------------------------------------------------------------------
  // One line: /^([+\- ]) *(\d*) (.*)$/s
  // ---------------------------------------------------------------------------------------------

  /** The line splits into a prefix, `i` spaces, `j` digits, a space and the rest. */
  ghost predicate Splits(line: string, i: nat, j: nat) {
    && 1 + i + j < |line|
    && (line[0] == '+' || line[0] == '-' || line[0] == ' ')
    && (forall k :: 1 <= k < 1 + i ==> line[k] == ' ')
    && (forall k :: 1 + i <= k < 1 + i + j ==> IsDigit(line[k]))
    && line[1 + i + j] == ' '
  }

  datatype Match = Match(prefix: char, digits: string, raw: string)

  /** The first position from `from` on without a space. */
  function SpaceEnd(s: string, from: nat): (r: nat)
    requires from <= |s|
    ensures from <= r <= |s| && (forall k :: from <= k < r ==> s[k] == ' ') && (r < |s| ==> s[r] != ' ')
    decreases |s| - from
  {
    if from < |s| && s[from] == ' ' then SpaceEnd(s, from + 1) else from
  }

  function DigitEnd(s: string, from: nat): (r: nat)
    requires from <= |s|
    ensures from <= r <= |s| && (forall k :: from <= k < r ==> IsDigit(s[k])) && (r < |s| ==> !IsDigit(s[r]))
    decreases |s| - from
  {
    if from < |s| && IsDigit(s[from]) then DigitEnd(s, from + 1) else from
  }

  /** What the regular expression finds: as many spaces as can be, then as many digits. */
  function MatchLine(line: string): Option<Match> {
    if line == "" || !(line[0] == '+' || line[0] == '-' || line[0] == ' ') then None else
      var i := SpaceEnd(line, 1);
      var j := DigitEnd(line, i);
      if i < j < |line| && line[j] == ' ' then Some(Match(line[0], line[i..j], line[j + 1..]))
      else if i > 1 then Some(Match(line[0], "", line[i..]))
      else None
  }

  lemma SpaceEndCovers(s: string, from: nat, end: nat)
    requires from <= end <= |s| && forall k :: from <= k < end ==> s[k] == ' '
    ensures SpaceEnd(s, from) >= end
    decreases end - from
  {
  }

  lemma DigitEndCovers(s: string, from: nat, end: nat)
    requires from <= end <= |s| && forall k :: from <= k < end ==> IsDigit(s[k])
    ensures DigitEnd(s, from) >= end
    decreases end - from
  {
  }

  /** `MatchLine` is the regular expression: of all ways to split the line, the greediest. */
  lemma MatchIsGreediest(line: string)
    ensures MatchLine(line).None? ==> forall i: nat, j: nat :: !Splits(line, i, j)
    ensures MatchLine(line).Some? ==> exists i: nat, j: nat ::
      Greediest(line, i, j) && MatchLine(line).value == Match(line[0], line[1 + i..1 + i + j], line[2 + i + j..])
  {
    if line != "" && (line[0] == '+' || line[0] == '-' || line[0] == ' ') {
      var s := SpaceEnd(line, 1);
      var d := DigitEnd(line, s);
      forall i: nat, j: nat | Splits(line, i, j)
        ensures 1 + i <= s && (1 + i < s ==> j == 0) && (1 + i == s ==> 0 < j == d - s)
      {
        SpaceEndCovers(line, 1, 1 + i);
        DigitEndCovers(line, 1 + i, 1 + i + j);
        assert 1 + i < s ==> line[1 + i] == ' ';
      }
      if s < d < |line| && line[d] == ' ' {
        assert Greediest(line, s - 1, d - s);
      } else if s > 1 {
        assert line[s - 1] == ' ' && Greediest(line, s - 2, 0);
      }
    }
  }

  ghost predicate Greediest(line: string, i: nat, j: nat) {
    && Splits(line, i, j)
    && forall i': nat, j': nat :: Splits(line, i', j') ==> i' < i || (i' == i && j' <= j)
  }

  // ---------------------------------------------------------------------------------------------
  // Reading
  // ---------------------------------------------------------------------------------------------

  /** The sections read so far, and how many more lines the new file has by then. */
  datatype Reading = Reading(sections: seq<seq<Row>>, delta: int)

  function Push(sections: seq<seq<Row>>, row: Row): seq<seq<Row>>
    requires sections != []
  {
    sections[..|sections| - 1] + [sections[|sections| - 1] + [row]]
  }

  function ReadLine(clean: string -> string, r: Reading, line: string): (r': Reading)
    requires r.sections != []
    ensures r'.sections != []
  {
    var m := MatchLine(line);
    if m.None? then r
    else if m.value.digits == "" then Reading(r.sections + [[]], r.delta)
    else
      var number, text := Number(m.value.digits), clean(m.value.raw);
      if m.value.prefix == '+' then Reading(Push(r.sections, Add(number, text)), r.delta + 1)
      else if m.value.prefix == '-' then Reading(Push(r.sections, Del(number, text)), r.delta - 1)
      else Reading(Push(r.sections, Ctx(number, number + r.delta, text)), r.delta)
  }

  function Read(clean: string -> string, lines: seq<string>): (r: Reading)
    ensures r.sections != []
  {
    if lines == [] then Reading([[]], 0) else ReadLine(clean, Read(clean, lines[..|lines| - 1]), lines[|lines| - 1])
  }

  // ---------------------------------------------------------------------------------------------
  // Printing an edit script
  // ---------------------------------------------------------------------------------------------

  /** One line of the old or the new file, or of both. Lines that did not change can be left out. */
  datatype Edit = Same(text: string, shown: bool) | Deleted(text: string) | Added(text: string)

  function OldLines(script: seq<Edit>): nat {
    if script == [] then 0 else OldLines(script[..|script| - 1]) + if script[|script| - 1].Added? then 0 else 1
  }

  function NewLines(script: seq<Edit>): nat {
    if script == [] then 0 else NewLines(script[..|script| - 1]) + if script[|script| - 1].Deleted? then 0 else 1
  }

  predicate Hidden(script: seq<Edit>) {
    script != [] && script[|script| - 1].Same? && !script[|script| - 1].shown
  }

  function Blanks(n: nat): (r: string)
    ensures |r| == n && forall k :: 0 <= k < n ==> r[k] == ' '
  {
    if n == 0 then "" else Blanks(n - 1) + " "
  }

  function Padded(number: nat, width: nat): string {
    var digits := Decimal(number);
    if |digits| < width then Blanks(width - |digits|) + digits else digits
  }

  function PrintedLine(prefix: char, number: nat, width: nat, text: string): string {
    [prefix] + Padded(number, width) + " " + text
  }

  function Dots(width: nat): string {
    " " + Blanks(width) + " ..."
  }

  function Printed(script: seq<Edit>, width: nat): seq<string> {
    if script == [] then [] else
      var past, e := script[..|script| - 1], script[|script| - 1];
      var before := Printed(past, width);
      match e
      case Same(text, shown) =>
        if shown then before + [PrintedLine(' ', OldLines(past) + 1, width, text)]
        else if Hidden(past) then before
        else before + [Dots(width)]
      case Deleted(text) => before + [PrintedLine('-', OldLines(past) + 1, width, text)]
      case Added(text) => before + [PrintedLine('+', NewLines(past) + 1, width, text)]
  }

  /** The rows that the diff stands for, with the line numbers of both files, in sections between the lines left out. */
  function Meant(clean: string -> string, script: seq<Edit>): (r: seq<seq<Row>>)
    ensures r != []
  {
    if script == [] then [[]] else
      var past, e := script[..|script| - 1], script[|script| - 1];
      var before := Meant(clean, past);
      match e
      case Same(text, shown) =>
        if shown then Push(before, Ctx(OldLines(past) + 1, NewLines(past) + 1, clean(text)))
        else if Hidden(past) then before
        else before + [[]]
      case Deleted(text) => Push(before, Del(OldLines(past) + 1, clean(text)))
      case Added(text) => Push(before, Add(NewLines(past) + 1, clean(text)))
  }

  lemma PaddedShape(number: nat, width: nat)
    ensures var digits, p := Decimal(number), Padded(number, width); var n := |p| - |digits|;
      n >= 0 && p[n..] == digits && forall k :: 0 <= k < n ==> p[k] == ' '
  {
  }

  lemma MatchPrinted(prefix: char, number: nat, width: nat, text: string)
    requires prefix == '+' || prefix == '-' || prefix == ' '
    ensures MatchLine(PrintedLine(prefix, number, width, text)) == Some(Match(prefix, Decimal(number), text))
  {
    hide Padded, MatchLine, Decimal;
    PaddedShape(number, width);
    var p, digits := Padded(number, width), Decimal(number);
    MatchNumbered(prefix, p[..|p| - |digits|], digits, text);
    assert p[..|p| - |digits|] + digits == p;
  }

  lemma MatchNumbered(prefix: char, pad: string, digits: string, text: string)
    requires prefix == '+' || prefix == '-' || prefix == ' '
    requires (forall k :: 0 <= k < |pad| ==> pad[k] == ' ') && digits != "" && forall k :: 0 <= k < |digits| ==> IsDigit(digits[k])
    ensures MatchLine([prefix] + (pad + digits) + " " + text) == Some(Match(prefix, digits, text))
  {
    var line := [prefix] + (pad + digits) + " " + text;
    var s, d := 1 + |pad|, 1 + |pad| + |digits|;
    assert forall k :: 1 <= k < s ==> line[k] == pad[k - 1];
    assert line[s..d] == digits;
    assert forall k :: s <= k < d ==> line[k] == digits[k - s];
    SpaceEndIs(line, 1, s);
    DigitEndIs(line, s, d);
    assert line[d + 1..] == text;
  }

  lemma SpaceEndIs(s: string, from: nat, end: nat)
    requires from <= end < |s| && (forall k :: from <= k < end ==> s[k] == ' ') && s[end] != ' '
    ensures SpaceEnd(s, from) == end
  {
  }

  lemma DigitEndIs(s: string, from: nat, end: nat)
    requires from <= end < |s| && (forall k :: from <= k < end ==> IsDigit(s[k])) && !IsDigit(s[end])
    ensures DigitEnd(s, from) == end
  {
  }

  lemma MatchDots(width: nat)
    ensures MatchLine(Dots(width)) == Some(Match(' ', "", "..."))
  {
    var line := Dots(width);
    assert forall k :: 0 <= k < width ==> line[1 + k] == Blanks(width)[k];
    assert line[1 + width] == ' ' && line[2 + width] == '.';
    SpaceEndIs(line, 1, 2 + width);
    assert line[2 + width..] == "...";
  }

  lemma ReadPrintedLine(clean: string -> string, r: Reading, prefix: char, number: nat, width: nat, text: string)
    requires r.sections != [] && (prefix == '+' || prefix == '-' || prefix == ' ')
    ensures ReadLine(clean, r, PrintedLine(prefix, number, width, text)) ==
      if prefix == '+' then Reading(Push(r.sections, Add(number, clean(text))), r.delta + 1)
      else if prefix == '-' then Reading(Push(r.sections, Del(number, clean(text))), r.delta - 1)
      else Reading(Push(r.sections, Ctx(number, number + r.delta, clean(text))), r.delta)
  {
    hide MatchLine, PrintedLine, Decimal, Push, Number;
    MatchPrinted(prefix, number, width, text);
    NumberOfDecimal(number);
  }

  lemma ReadDots(clean: string -> string, r: Reading, width: nat)
    requires r.sections != []
    ensures ReadLine(clean, r, Dots(width)) == Reading(r.sections + [[]], r.delta)
  {
    hide MatchLine, Dots;
    MatchDots(width);
  }

  /**
   Main result. Reading what was printed, line by line: every row gets its true line numbers, with any lines left out, and
   the sections are what lies between them.
   */
  lemma {:induction false} ReadOfPrinted(clean: string -> string, script: seq<Edit>, width: nat)
    ensures Read(clean, Printed(script, width)) == Reading(Meant(clean, script), NewLines(script) - OldLines(script))
    decreases |script|
  {
    if script != [] {
      var past, e := script[..|script| - 1], script[|script| - 1];
      ReadOfPrinted(clean, past, width);
      hide Read, Meant, Printed, OldLines, NewLines;
      assert past + [e] == script;
      if e.Same? {
        ReadOneMoreSame(clean, past, e.text, e.shown, width);
      } else {
        ReadOneMoreChange(clean, past, e, width);
      }
    }
  }

  lemma ReadOneMoreSame(clean: string -> string, past: seq<Edit>, text: string, shown: bool, width: nat)
    requires Read(clean, Printed(past, width)) == Reading(Meant(clean, past), NewLines(past) - OldLines(past))
    ensures var script := past + [Same(text, shown)];
      Read(clean, Printed(script, width)) == Reading(Meant(clean, script), NewLines(script) - OldLines(script))
  {
    hide Read, ReadLine, PrintedLine, Dots, Push;
    var before, r := Printed(past, width), Read(clean, Printed(past, width));
    assert (past + [Same(text, shown)])[..|past|] == past;
    if shown {
      ReadAppend(clean, before, PrintedLine(' ', OldLines(past) + 1, width, text));
      ReadPrintedLine(clean, r, ' ', OldLines(past) + 1, width, text);
    } else {
      ReadAppend(clean, before, Dots(width));
      ReadDots(clean, r, width);
    }
  }

  lemma ReadOneMoreChange(clean: string -> string, past: seq<Edit>, e: Edit, width: nat)
    requires Read(clean, Printed(past, width)) == Reading(Meant(clean, past), NewLines(past) - OldLines(past)) && !e.Same?
    ensures Read(clean, Printed(past + [e], width)) == Reading(Meant(clean, past + [e]), NewLines(past + [e]) - OldLines(past + [e]))
  {
    hide Read, ReadLine, PrintedLine, Dots, Push;
    var before, r := Printed(past, width), Read(clean, Printed(past, width));
    assert (past + [e])[..|past|] == past;
    if e.Added? {
      ReadAppend(clean, before, PrintedLine('+', NewLines(past) + 1, width, e.text));
      ReadPrintedLine(clean, r, '+', NewLines(past) + 1, width, e.text);
    } else {
      ReadAppend(clean, before, PrintedLine('-', OldLines(past) + 1, width, e.text));
      ReadPrintedLine(clean, r, '-', OldLines(past) + 1, width, e.text);
    }
  }

  lemma ReadAppend(clean: string -> string, before: seq<string>, line: string)
    ensures Read(clean, before + [line]) == ReadLine(clean, Read(clean, before), line)
  {
    assert (before + [line])[..|before|] == before;
  }

  lemma {:induction false} PrintedHasNoNewline(script: seq<Edit>, width: nat)
    requires forall e :: e in script ==> '\n' !in e.text
    ensures forall line :: line in Printed(script, width) ==> '\n' !in line
    decreases |script|
  {
    if script != [] {
      var past, e := script[..|script| - 1], script[|script| - 1];
      PrintedHasNoNewline(past, width);
      assert e in script;
      LineHasNoNewline(OldLines(past) + 1, width, e.text);
      LineHasNoNewline(NewLines(past) + 1, width, e.text);
      assert '\n' !in Dots(width);
      hide PrintedLine, Dots;
    }
  }

  lemma LineHasNoNewline(number: nat, width: nat, text: string)
    requires '\n' !in text
    ensures forall prefix :: prefix != '\n' ==> '\n' !in PrintedLine(prefix, number, width, text)
  {
    hide Decimal;
    assert '\n' !in Padded(number, width);
  }

  /** Main result, for the diff as one string. */
  lemma ReadOfPrintedText(clean: string -> string, script: seq<Edit>, width: nat)
    requires forall e :: e in script ==> '\n' !in e.text
    ensures Read(clean, Lines(Joined(Printed(script, width)))).sections == Meant(clean, script)
  {
    ReadOfPrinted(clean, script, width);
    PrintedHasNoNewline(script, width);
    hide Meant, Printed;
    if Printed(script, width) != [] {
      LinesOfJoined(Printed(script, width));
    } else {
      assert [""][..0] == [];
    }
  }

  // ---------------------------------------------------------------------------------------------
  // Context
  // ---------------------------------------------------------------------------------------------

  predicate IsChange(row: Row) {
    !row.Ctx?
  }

  ghost predicate ChangeNear(rows: seq<Row>, i: int, j: nat) {
    j < |rows| && IsChange(rows[j]) && i - 3 <= j <= i + 3
  }

  /** There is a change within three rows. */
  ghost predicate Near(rows: seq<Row>, i: int) {
    exists j: nat :: ChangeNear(rows, i, j)
  }

  /** There is one among the first `n` rows. */
  ghost predicate NearBy(rows: seq<Row>, n: nat, i: int) {
    exists j: nat :: j < n && ChangeNear(rows, i, j)
  }

  /** The rows near a change, in runs without a gap. */
  ghost function Runs(rows: seq<Row>, n: nat): seq<Hunk>
    requires n <= |rows|
  {
    if n == 0 then [] else
      var before := Runs(rows, n - 1);
      if !Near(rows, n - 1) then before
      else if n == 1 || !Near(rows, n - 2) || before == [] then before + [[rows[n - 1]]]
      else before[..|before| - 1] + [before[|before| - 1] + [rows[n - 1]]]
  }

  ghost function Trimmed(rows: seq<Row>): seq<Hunk> {
    Runs(rows, |rows|)
  }

  /** Hunk `k` is the slice of the rows at `starts[k]`. */
  ghost predicate IsSlice(rows: seq<Row>, n: nat, hunk: Hunk, start: nat) {
    && hunk != [] && start + |hunk| <= n <= |rows| && rows[start..start + |hunk|] == hunk
    && forall i :: start <= i < start + |hunk| ==> Near(rows, i)
  }

  ghost predicate Slices(rows: seq<Row>, n: nat, hunks: seq<Hunk>, starts: seq<nat>) {
    |starts| == |hunks| && forall k :: 0 <= k < |hunks| ==> IsSlice(rows, n, hunks[k], starts[k])
  }

  /** There is a gap between two hunks. */
  ghost predicate Apart(hunks: seq<Hunk>, starts: seq<nat>) {
    |starts| == |hunks| && forall k, l :: 0 <= k < l < |hunks| ==> starts[k] + |hunks[k]| < starts[l]
  }

  ghost predicate InHunk(hunks: seq<Hunk>, starts: seq<nat>, k: int, i: nat) {
    |starts| == |hunks| && 0 <= k < |hunks| && starts[k] <= i < starts[k] + |hunks[k]|
  }

  ghost predicate InSome(hunks: seq<Hunk>, starts: seq<nat>, i: nat) {
    exists k :: InHunk(hunks, starts, k, i)
  }

  /** The hunks are slices with a gap between two of them, and the rows near a change are all in one. */
  ghost predicate Cut(rows: seq<Row>, n: nat, hunks: seq<Hunk>, starts: seq<nat>) {
    && Slices(rows, n, hunks, starts)
    && Apart(hunks, starts)
    && forall i: nat :: i < n && Near(rows, i) ==> InSome(hunks, starts, i)
  }

  ghost predicate EndsAt(hunks: seq<Hunk>, starts: seq<nat>, end: nat) {
    |starts| == |hunks| && hunks != [] && starts[|hunks| - 1] + |hunks[|hunks| - 1]| == end
  }

  ghost predicate EndsBefore(hunks: seq<Hunk>, starts: seq<nat>, end: nat) {
    |starts| == |hunks| && (hunks != [] ==> starts[|hunks| - 1] + |hunks[|hunks| - 1]| < end)
  }

  lemma CutNone(rows: seq<Row>)
    ensures Cut(rows, 0, [], [])
  {
  }

  lemma CutMayOpen(rows: seq<Row>, n: nat, hunks: seq<Hunk>, starts: seq<nat>)
    requires 0 < n <= |rows| && Cut(rows, n - 1, hunks, starts)
    ensures n == 1 ==> EndsBefore(hunks, starts, n - 1)
    ensures EndsAt(hunks, starts, n - 1) ==> hunks != []
  {
    hide Near;
    assert n == 1 && hunks != [] ==> IsSlice(rows, n - 1, hunks[0], starts[0]);
  }

  /** Main result. Trimming keeps every change and exactly the rows within three of one, in maximal runs. */
  lemma {:induction false} RunsAreCut(rows: seq<Row>, n: nat) returns (starts: seq<nat>)
    requires n <= |rows|
    ensures Cut(rows, n, Runs(rows, n), starts)
    ensures n > 0 && Near(rows, n - 1) ==> EndsAt(Runs(rows, n), starts, n)
    ensures n > 0 && !Near(rows, n - 1) ==> EndsBefore(Runs(rows, n), starts, n)
  {
    hide Near, Cut, EndsAt, EndsBefore;
    if n == 0 {
      starts := [];
      CutNone(rows);
    } else {
      var before := RunsAreCut(rows, n - 1);
      var hunks := Runs(rows, n - 1);
      CutMayOpen(rows, n, hunks, before);
      if !Near(rows, n - 1) {
        starts := before;
        CutSkips(rows, n, hunks, before);
      } else if n == 1 || !Near(rows, n - 2) {
        starts := before + [n - 1];
        CutOpens(rows, n, hunks, before);
      } else {
        starts := before;
        CutGrows(rows, n, hunks, before);
      }
    }
  }

  lemma CutSkips(rows: seq<Row>, n: nat, hunks: seq<Hunk>, starts: seq<nat>)
    requires 0 < n <= |rows| && Cut(rows, n - 1, hunks, starts) && !Near(rows, n - 1)
    ensures Cut(rows, n, hunks, starts)
    ensures EndsBefore(hunks, starts, n)
  {
    hide Near, InSome;
    assert hunks != [] ==> IsSlice(rows, n - 1, hunks[|hunks| - 1], starts[|hunks| - 1]);
    forall k | 0 <= k < |hunks|
      ensures IsSlice(rows, n, hunks[k], starts[k])
    {
      assert IsSlice(rows, n - 1, hunks[k], starts[k]);
    }
  }

  lemma CutOpens(rows: seq<Row>, n: nat, hunks: seq<Hunk>, starts: seq<nat>)
    requires 0 < n <= |rows| && Cut(rows, n - 1, hunks, starts) && Near(rows, n - 1)
    requires EndsBefore(hunks, starts, n - 1)
    ensures Cut(rows, n, hunks + [[rows[n - 1]]], starts + [n - 1]) && EndsAt(hunks + [[rows[n - 1]]], starts + [n - 1], n)
  {
    hide Near, Slices, Apart, InSome;
    var hunks', starts' := hunks + [[rows[n - 1]]], starts + [n - 1];
    OpenedSlices(rows, n, hunks, starts);
    OpenedApart(hunks, starts, [rows[n - 1]], n - 1);
    forall i: nat | i < n && Near(rows, i)
      ensures InSome(hunks', starts', i)
    {
      assert i < n - 1 ==> InSome(hunks, starts, i);
      InOpened(hunks, starts, rows[n - 1], n - 1, i);
    }
  }

  lemma OpenedSlices(rows: seq<Row>, n: nat, hunks: seq<Hunk>, starts: seq<nat>)
    requires 0 < n <= |rows| && Slices(rows, n - 1, hunks, starts) && Near(rows, n - 1)
    ensures Slices(rows, n, hunks + [[rows[n - 1]]], starts + [n - 1])
  {
    hide Near;
    var hunks', starts' := hunks + [[rows[n - 1]]], starts + [n - 1];
    forall k | 0 <= k < |hunks'|
      ensures IsSlice(rows, n, hunks'[k], starts'[k])
    {
      assert k < |hunks| ==> IsSlice(rows, n - 1, hunks[k], starts[k]);
    }
  }

  lemma OpenedApart(hunks: seq<Hunk>, starts: seq<nat>, hunk: Hunk, start: nat)
    requires Apart(hunks, starts) && EndsBefore(hunks, starts, start)
    ensures Apart(hunks + [hunk], starts + [start])
  {
    var hunks', starts' := hunks + [hunk], starts + [start];
    var last := |hunks| - 1;
    forall k, l | 0 <= k < l < |hunks'|
      ensures starts'[k] + |hunks'[k]| < starts'[l]
    {
      assert k < last ==> starts[k] + |hunks[k]| < starts[last];
      assert l <= last ==> starts[k] + |hunks[k]| < starts[l];
    }
  }

  lemma InOpened(hunks: seq<Hunk>, starts: seq<nat>, row: Row, start: nat, i: nat)
    requires |starts| == |hunks| && (i == start || InSome(hunks, starts, i))
    ensures InSome(hunks + [[row]], starts + [start], i)
  {
    var hunks', starts' := hunks + [[row]], starts + [start];
    if i == start {
      assert InHunk(hunks', starts', |hunks|, i);
    } else {
      var k :| InHunk(hunks, starts, k, i);
      assert InHunk(hunks', starts', k, i);
    }
  }

  lemma CutGrows(rows: seq<Row>, n: nat, hunks: seq<Hunk>, starts: seq<nat>)
    requires 0 < n <= |rows| && Cut(rows, n - 1, hunks, starts) && Near(rows, n - 1) && EndsAt(hunks, starts, n - 1)
    ensures var hunks' := hunks[..|hunks| - 1] + [hunks[|hunks| - 1] + [rows[n - 1]]];
      Cut(rows, n, hunks', starts) && EndsAt(hunks', starts, n)
  {
    hide Near, Slices, Apart, InSome;
    var hunks' := hunks[..|hunks| - 1] + [hunks[|hunks| - 1] + [rows[n - 1]]];
    GrownSlices(rows, n, hunks, starts);
    GrownApart(hunks, starts, rows[n - 1]);
    forall i: nat | i < n && Near(rows, i)
      ensures InSome(hunks', starts, i)
    {
      assert i < n - 1 ==> InSome(hunks, starts, i);
      InGrown(hunks, starts, rows[n - 1], n - 1, i);
    }
  }

  lemma GrownSlices(rows: seq<Row>, n: nat, hunks: seq<Hunk>, starts: seq<nat>)
    requires 0 < n <= |rows| && Slices(rows, n - 1, hunks, starts) && Near(rows, n - 1) && EndsAt(hunks, starts, n - 1)
    ensures Slices(rows, n, hunks[..|hunks| - 1] + [hunks[|hunks| - 1] + [rows[n - 1]]], starts)
  {
    hide Near;
    var m := |hunks| - 1;
    var hunks' := hunks[..m] + [hunks[m] + [rows[n - 1]]];
    forall k | 0 <= k < |hunks'|
      ensures IsSlice(rows, n, hunks'[k], starts[k])
    {
      assert IsSlice(rows, n - 1, hunks[k], starts[k]);
      if k == m {
        assert rows[starts[m]..n] == rows[starts[m]..n - 1] + [rows[n - 1]];
      }
    }
  }

  lemma GrownApart(hunks: seq<Hunk>, starts: seq<nat>, row: Row)
    requires hunks != [] && Apart(hunks, starts)
    ensures Apart(hunks[..|hunks| - 1] + [hunks[|hunks| - 1] + [row]], starts)
  {
    var hunks' := hunks[..|hunks| - 1] + [hunks[|hunks| - 1] + [row]];
    forall k, l | 0 <= k < l < |hunks'|
      ensures starts[k] + |hunks'[k]| < starts[l]
    {
      assert starts[k] + |hunks[k]| < starts[l];
    }
  }

  lemma InGrown(hunks: seq<Hunk>, starts: seq<nat>, row: Row, end: nat, i: nat)
    requires EndsAt(hunks, starts, end) && (i == end || InSome(hunks, starts, i))
    ensures InSome(hunks[..|hunks| - 1] + [hunks[|hunks| - 1] + [row]], starts, i)
  {
    var hunks' := hunks[..|hunks| - 1] + [hunks[|hunks| - 1] + [row]];
    if i == end {
      assert InHunk(hunks', starts, |hunks| - 1, i);
    } else {
      var k :| InHunk(hunks, starts, k, i);
      assert InHunk(hunks', starts, k, i);
    }
  }

  /** What one more row does to the runs. */
  lemma RunsNext(rows: seq<Row>, n: nat)
    requires n < |rows| && (n > 0 && Near(rows, n - 1) ==> Runs(rows, n) != [])
    ensures var before, row := Runs(rows, n), rows[n];
      Runs(rows, n + 1) == if !Near(rows, n) then before
        else if n == 0 || !Near(rows, n - 1) then before + [[row]]
        else before[..|before| - 1] + [before[|before| - 1] + [row]]
  {
    hide Near;
  }

  lemma NearByAll(rows: seq<Row>, i: int)
    ensures NearBy(rows, |rows|, i) <==> Near(rows, i)
  {
  }

  lemma NearByMore(rows: seq<Row>, n: nat, i: int)
    ensures NearBy(rows, n + 1, i) <==> NearBy(rows, n, i) || ChangeNear(rows, i, n)
  {
  }

  /** Marks the rows around a change. */
  method MarkNear(rows: seq<Row>, index: nat, keep: array<bool>)
    requires index < |rows| == keep.Length && IsChange(rows[index])
    modifies keep
    ensures forall i :: 0 <= i < |rows| ==> (keep[i] <==> old(keep[i]) || ChangeNear(rows, i, index))
  {
    var near := if index < CONTEXT_LINES then 0 else index - CONTEXT_LINES;
    var last := if |rows| - 1 < index + CONTEXT_LINES then |rows| - 1 else index + CONTEXT_LINES;
    ghost var from := near;
    while near <= last
      invariant from <= near <= last + 1
      invariant forall i :: 0 <= i < |rows| ==> (keep[i] <==> old(keep[i]) || from <= i < near)
    {
      keep[near] := true;
      near := near + 1;
    }
  }

  /** Marks the rows to keep. */
  method Marked(rows: seq<Row>) returns (keep: array<bool>)
    ensures fresh(keep) && keep.Length == |rows| && forall i :: 0 <= i < |rows| ==> (keep[i] <==> Near(rows, i))
  {
    hide Near, NearBy;
    keep := new bool[|rows|](_ => false);
    forall i
      ensures !NearBy(rows, 0, i)
      ensures NearBy(rows, |rows|, i) <==> Near(rows, i)
    {
      NearByNone(rows, i);
      NearByAll(rows, i);
    }
    for index := 0 to |rows|
      invariant forall i :: 0 <= i < |rows| ==> (keep[i] <==> NearBy(rows, index, i))
    {
      forall i
        ensures NearBy(rows, index + 1, i) <==> NearBy(rows, index, i) || ChangeNear(rows, i, index)
      {
        NearByMore(rows, index, i);
      }
      if !rows[index].Ctx? {
        MarkNear(rows, index, keep);
      } else {
        assert forall i :: !ChangeNear(rows, i, index);
      }
    }
  }

  /** `trimContext`: marks the rows to keep, then collects them. */
  method TrimContext(rows: seq<Row>) returns (hunks: seq<Hunk>)
    ensures hunks == Trimmed(rows)
  {
    hide Near;
    var keep := Marked(rows);
    hunks := [];
    assert Runs(rows, 0) == [];
    hide Runs;
    for index := 0 to |rows|
      invariant forall i :: 0 <= i < |rows| ==> (keep[i] <==> Near(rows, i))
      invariant hunks == Runs(rows, index)
      invariant index > 0 && Near(rows, index - 1) ==> hunks != []
    {
      RunsNext(rows, index);
      if keep[index] {
        if index == 0 || !keep[index - 1] {
          hunks := hunks + [[]];
          assert hunks[|hunks| - 1] + [rows[index]] == [rows[index]];
        }
        hunks := hunks[..|hunks| - 1] + [hunks[|hunks| - 1] + [rows[index]]];
      }
    }
  }

  lemma NearByNone(rows: seq<Row>, i: int)
    ensures !NearBy(rows, 0, i)
  {
  }

  /** The hunks of all sections. */
  ghost function AllTrimmed(sections: seq<seq<Row>>): seq<Hunk> {
    if sections == [] then [] else AllTrimmed(sections[..|sections| - 1]) + Trimmed(sections[|sections| - 1])
  }

  lemma MatchHasDigits(line: string)
    ensures MatchLine(line).Some? ==> forall k :: 0 <= k < |MatchLine(line).value.digits| ==> IsDigit(MatchLine(line).value.digits[k])
  {
  }

  /** `parsePiDiff`; `clean` stands for the removal of control characters. */
  method ParsePiDiff(diff: string, clean: string -> string) returns (hunks: seq<Hunk>)
    ensures hunks == AllTrimmed(Read(clean, Lines(diff)).sections)
  {
    var lines := Lines(diff);
    var sections: seq<seq<Row>> := [[]];
    var delta: int := 0;
    hide Trimmed, Lines, MatchLine;
    for i := 0 to |lines|
      invariant Reading(sections, delta) == Read(clean, lines[..i])
    {
      assert lines[..i + 1][..i] == lines[..i];
      MatchHasDigits(lines[i]);
      var m := MatchLine(lines[i]);
      if m.None? {
        continue;
      }
      var text := clean(m.value.raw);
      if m.value.digits == "" {
        sections := sections + [[]];
        continue;
      }
      var number := Number(m.value.digits);
      var last := |sections| - 1;
      if m.value.prefix == '+' {
        sections := sections[..last] + [sections[last] + [Add(number, text)]];
        delta := delta + 1;
      } else if m.value.prefix == '-' {
        sections := sections[..last] + [sections[last] + [Del(number, text)]];
        delta := delta - 1;
      } else {
        sections := sections[..last] + [sections[last] + [Ctx(number, number + delta, text)]];
      }
    }
    assert lines[..|lines|] == lines;
    hunks := [];
    for i := 0 to |sections|
      invariant hunks == AllTrimmed(sections[..i])
    {
      assert sections[..i + 1][..i] == sections[..i];
      var more := TrimContext(sections[i]);
      hunks := hunks + more;
    }
    assert sections[..|sections|] == sections;
  }

  // ---------------------------------------------------------------------------------------------
  // Blocks
  // ---------------------------------------------------------------------------------------------

  datatype Block = Context(row: Row) | Change(dels: seq<Row>, adds: seq<Row>)

  function OldSide(hunk: Hunk): seq<Row> {
    if hunk == [] then [] else OldSide(hunk[..|hunk| - 1]) + if hunk[|hunk| - 1].Add? then [] else [hunk[|hunk| - 1]]
  }

  function NewSide(hunk: Hunk): seq<Row> {
    if hunk == [] then [] else NewSide(hunk[..|hunk| - 1]) + if hunk[|hunk| - 1].Del? then [] else [hunk[|hunk| - 1]]
  }

  function OldOf(blocks: seq<Block>): seq<Row> {
    if blocks == [] then [] else
      OldOf(blocks[..|blocks| - 1]) + match blocks[|blocks| - 1] case Context(row) => [row] case Change(dels, _) => dels
  }

  function NewOf(blocks: seq<Block>): seq<Row> {
    if blocks == [] then [] else
      NewOf(blocks[..|blocks| - 1]) + match blocks[|blocks| - 1] case Context(row) => [row] case Change(_, adds) => adds
  }

  predicate WellFormed(block: Block) {
    match block
    case Context(row) => row.Ctx?
    case Change(dels, adds) =>
      && (dels != [] || adds != [])
      && (forall row :: row in dels ==> row.Del?) && (forall row :: row in adds ==> row.Add?)
  }

  /** Blocks are of the right rows, none is empty, and two changes never follow each other. */
  predicate Blocked(blocks: seq<Block>) {
    && (forall k :: 0 <= k < |blocks| ==> WellFormed(blocks[k]))
    && (forall k :: 0 < k < |blocks| ==> blocks[k].Context? || blocks[k - 1].Context?)
  }

  lemma SidesAppend(blocks: seq<Block>, block: Block)
    ensures OldOf(blocks + [block]) == OldOf(blocks) + (match block case Context(row) => [row] case Change(dels, _) => dels)
    ensures NewOf(blocks + [block]) == NewOf(blocks) + (match block case Context(row) => [row] case Change(_, adds) => adds)
  {
    assert (blocks + [block])[..|blocks|] == blocks;
  }

  /** A change that has grown by a row. */
  function Grown(block: Block, row: Row): Block
    requires block.Change?
  {
    if row.Del? then Change(block.dels + [row], block.adds) else Change(block.dels, block.adds + [row])
  }

  lemma SidesGrow(blocks: seq<Block>, row: Row)
    requires blocks != [] && blocks[|blocks| - 1].Change? && IsChange(row)
    ensures var more := blocks[..|blocks| - 1] + [Grown(blocks[|blocks| - 1], row)];
      && OldOf(more) == OldOf(blocks) + (if row.Del? then [row] else [])
      && NewOf(more) == NewOf(blocks) + (if row.Del? then [] else [row])
  {
    var init, last := blocks[..|blocks| - 1], blocks[|blocks| - 1];
    SidesAppend(init, Grown(last, row));
    SidesAppend(init, last);
    assert init + [last] == blocks;
    assert (OldOf(init) + last.dels) + [row] == OldOf(init) + (last.dels + [row]);
    assert (NewOf(init) + last.adds) + [row] == NewOf(init) + (last.adds + [row]);
  }

  lemma BlockedGrow(blocks: seq<Block>, row: Row)
    requires blocks != [] && blocks[|blocks| - 1].Change? && IsChange(row) && Blocked(blocks)
    ensures Blocked(blocks[..|blocks| - 1] + [Grown(blocks[|blocks| - 1], row)])
  {
    assert WellFormed(blocks[|blocks| - 1]);
    assert WellFormed(Grown(blocks[|blocks| - 1], row));
  }

  lemma BlockedAppend(blocks: seq<Block>, block: Block)
    requires Blocked(blocks) && WellFormed(block)
    requires blocks == [] || block.Context? || blocks[|blocks| - 1].Context?
    ensures Blocked(blocks + [block])
  {
    hide WellFormed;
  }

  /** `toBlocks`. Main result: both files keep their rows in order, and changes are gathered as far as they reach. */
  method ToBlocks(hunk: Hunk) returns (blocks: seq<Block>)
    ensures OldOf(blocks) == OldSide(hunk) && NewOf(blocks) == NewSide(hunk)
    ensures Blocked(blocks)
  {
    hide Blocked;
    blocks := [];
    BlockedNone();
    var change := false;
    for i := 0 to |hunk|
      invariant OldOf(blocks) == OldSide(hunk[..i]) && NewOf(blocks) == NewSide(hunk[..i])
      invariant Blocked(blocks) && (change <==> blocks != [] && blocks[|blocks| - 1].Change?)
    {
      var row := hunk[i];
      assert hunk[..i + 1][..i] == hunk[..i];
      if row.Ctx? {
        change := false;
        SidesAppend(blocks, Context(row));
        BlockedAppend(blocks, Context(row));
        blocks := blocks + [Context(row)];
        continue;
      }
      var last := if change then blocks[|blocks| - 1] else Change([], []);
      if change {
        SidesGrow(blocks, row);
        BlockedGrow(blocks, row);
        blocks := blocks[..|blocks| - 1] + [Grown(last, row)];
      } else {
        SidesAppend(blocks, Grown(last, row));
        BlockedAppend(blocks, Grown(last, row));
        blocks := blocks + [Grown(last, row)];
        change := true;
      }
    }
    assert hunk[..|hunk|] == hunk;
  }

  lemma BlockedNone()
    ensures Blocked([])
  {
  }

  // ---------------------------------------------------------------------------------------------
  // The first rows
  // ---------------------------------------------------------------------------------------------

  function NonEmpty(hunks: seq<Hunk>): (r: seq<Hunk>)
    ensures forall h :: h in r ==> h != []
  {
    if hunks == [] then [] else
      NonEmpty(hunks[..|hunks| - 1]) + if hunks[|hunks| - 1] == [] then [] else [hunks[|hunks| - 1]]
  }

  lemma {:induction false} NonEmptyKeepsRows(hunks: seq<Hunk>)
    ensures Flat(NonEmpty(hunks)) == Flat(hunks)
    decreases |hunks|
  {
    if hunks != [] {
      var init, last := hunks[..|hunks| - 1], hunks[|hunks| - 1];
      NonEmptyKeepsRows(init);
      assert last == [] ==> Flat(init) + last == Flat(init) && NonEmpty(init) + [] == NonEmpty(init);
      FlatAppend(NonEmpty(init), last);
    }
  }

  /** All but the last are the hunks themselves, and the last is the beginning of one. */
  ghost predicate Beginning(taken: seq<Hunk>, hunks: seq<Hunk>) {
    && |taken| <= |hunks|
    && (forall k :: 0 <= k < |taken| - 1 ==> taken[k] == hunks[k])
    && (taken != [] ==> taken[|taken| - 1] <= hunks[|taken| - 1])
  }

  lemma {:induction false} NonEmptyPrefix(hunks: seq<Hunk>, n: nat)
    requires n <= |hunks|
    ensures NonEmpty(hunks[..n]) <= NonEmpty(hunks)
    decreases |hunks|
  {
    if n < |hunks| {
      NonEmptyPrefix(hunks[..|hunks| - 1], n);
      assert hunks[..|hunks| - 1][..n] == hunks[..n];
    } else {
      assert hunks[..n] == hunks;
    }
  }

  lemma NonEmptyBeginning(taken: seq<Hunk>, hunks: seq<Hunk>)
    requires Beginning(taken, hunks)
    ensures Beginning(NonEmpty(taken), NonEmpty(hunks))
  {
    if taken != [] {
      var n := |taken| - 1;
      assert taken[..n] == hunks[..n];
      assert hunks[..n + 1][..n] == hunks[..n];
      NonEmptyPrefix(hunks, n + 1);
      NonEmptyPrefix(hunks, n);
      assert taken[n] != [] ==> NonEmpty(hunks[..n + 1]) == NonEmpty(hunks[..n]) + [hunks[n]];
    }
  }

  function Max(a: int, b: int): int {
    if a < b then b else a
  }

  /**
   `takeRows`. Main result: exactly the first `limit` rows, in their hunks, none of them empty; and what is hidden is the
   rest. For a negative limit, which no caller passes, the count of hidden rows is too high if there is a hunk at all.
   */
  method TakeRows(hunks: seq<Hunk>, limit: int) returns (shown: seq<Hunk>, hidden: int)
    ensures Flat(shown) <= Flat(hunks) && |Flat(shown)| == (if limit < |Flat(hunks)| then Max(0, limit) else |Flat(hunks)|)
    ensures Beginning(shown, NonEmpty(hunks)) && forall h :: h in shown ==> h != []
    ensures |Flat(shown)| + hidden == |Flat(hunks)| <==> limit >= 0 || hunks == []
  {
    var taken: seq<Hunk> := [];
    var left := limit;
    hidden := 0;
    TakingNone(hunks, limit);
    hide Taking;
    for i := 0 to |hunks|
      invariant Taking(hunks, limit, i, taken, left, hidden)
    {
      var hunk := hunks[i];
      TakingMore(hunks, limit, i, taken, left, hidden);
      if left > 0 {
        taken := taken + [if |hunk| < left then hunk else hunk[..left]];
      }
      hidden := hidden + Max(0, |hunk| - left);
      left := Max(0, left - |hunk|);
    }
    TakenAll(hunks, limit, taken, left, hidden);
    shown := NonEmpty(taken);
    NonEmptyKeepsRows(taken);
    NonEmptyBeginning(taken, hunks);
  }

  /** What `TakeRows` has done after `i` hunks. */
  ghost predicate Taking(hunks: seq<Hunk>, limit: int, i: nat, taken: seq<Hunk>, left: int, hidden: int)
    requires i <= |hunks|
  {
    && Beginning(taken, hunks) && |taken| <= i
    && (left > 0 ==> taken == hunks[..i])
    && Flat(taken) <= Flat(hunks[..i])
    && |Flat(taken)| == Max(0, limit) - Max(0, left)
    && (i > 0 ==> left >= 0) && (i == 0 ==> left == limit)
    && |Flat(taken)| + hidden == |Flat(hunks[..i])| + if i > 0 && limit < 0 then -limit else 0
  }

  lemma TakingNone(hunks: seq<Hunk>, limit: int)
    ensures Taking(hunks, limit, 0, [], limit, 0)
  {
  }

  lemma TakingMore(hunks: seq<Hunk>, limit: int, i: nat, taken: seq<Hunk>, left: int, hidden: int)
    requires i < |hunks| && Taking(hunks, limit, i, taken, left, hidden)
    ensures var hunk := hunks[i];
      var taken' := if left > 0 then taken + [if |hunk| < left then hunk else hunk[..left]] else taken;
      Taking(hunks, limit, i + 1, taken', Max(0, left - |hunk|), hidden + Max(0, |hunk| - left))
  {
    hide Flat, Beginning;
    var hunk := hunks[i];
    assert hunks[..i + 1] == hunks[..i] + [hunk];
    FlatAppend(hunks[..i], hunk);
    var piece := if left <= 0 then [] else if |hunk| < left then hunk else hunk[..left];
    BeginningMore(taken, hunks, i, piece, left);
    if left > 0 {
      FlatAppend(hunks[..i], piece);
      PrefixMore(Flat(hunks[..i]), piece, hunk);
      assert |Flat(taken + [piece])| == |Flat(hunks[..i])| + |piece|;
    } else {
      PrefixStays(Flat(taken), Flat(hunks[..i]), hunk);
    }
  }

  lemma PrefixStays(a: seq<Row>, b: seq<Row>, c: seq<Row>)
    requires a <= b
    ensures a <= b + c
  {
  }

  lemma PrefixMore(a: seq<Row>, b: seq<Row>, c: seq<Row>)
    requires b <= c
    ensures a + b <= a + c
  {
  }

  lemma BeginningMore(taken: seq<Hunk>, hunks: seq<Hunk>, i: nat, piece: Hunk, left: int)
    requires i < |hunks| && (left > 0 ==> taken == hunks[..i]) && piece <= hunks[i] && Beginning(taken, hunks)
    ensures left > 0 ==> Beginning(taken + [piece], hunks)
  {
  }

  lemma TakenAll(hunks: seq<Hunk>, limit: int, taken: seq<Hunk>, left: int, hidden: int)
    requires Taking(hunks, limit, |hunks|, taken, left, hidden)
    ensures Beginning(taken, hunks) && Flat(taken) <= Flat(hunks)
    ensures |Flat(taken)| == (if limit < |Flat(hunks)| then Max(0, limit) else |Flat(hunks)|)
    ensures |Flat(taken)| + hidden == |Flat(hunks)| <==> limit >= 0 || hunks == []
  {
    hide Flat, Beginning;
    assert hunks[..|hunks|] == hunks;
  }
}
