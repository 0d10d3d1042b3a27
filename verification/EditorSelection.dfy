/**
 Selecting and deleting in the prompt box. A selection remembers the text it was made in and is dropped when that has
 changed. Deleting it leaves what was before and after it, with the cursor in between.
 */
module EditorSelection {
  import opened Wrappers
  import opened Strings

  datatype Position = Position(line: nat, col: nat)

  /** What the mouse is on: a grapheme, or an empty place at the end of a row. */
  datatype Cell = Cell(line: nat, start: nat, end: nat)

  datatype Selection = Selection(start: Position, end: Position, text: string)

  /** Negative, zero or positive, as `left` is before, at or after `right`. */
  function Compare(left: Position, right: Position): int {
    if left.line != right.line then left.line - right.line else left.col - right.col
  }

  predicate InText(lines: seq<string>, p: Position) {
    p.line < |lines| && p.col <= |lines[p.line]|
  }

  predicate IsText(lines: seq<string>) {
    lines != [] && forall line :: line in lines ==> '\n' !in line
  }

  // ---------------------------------------------------------------------------------------------
  // The document around a position
  // ---------------------------------------------------------------------------------------------

  /** The text before a position. */
  function Head(lines: seq<string>, p: Position): string
    requires InText(lines, p)
  {
    Joined(lines[..p.line] + [lines[p.line][..p.col]])
  }

  /** The text after a position. */
  function Tail(lines: seq<string>, p: Position): string
    requires InText(lines, p)
  {
    Joined([lines[p.line][p.col..]] + lines[p.line + 1..])
  }

  /** The text from one position to another. */
  function Between(lines: seq<string>, start: Position, end: Position): string
    requires InText(lines, start) && InText(lines, end) && Compare(start, end) <= 0
  {
    if start.line == end.line then lines[start.line][start.col..end.col]
    else Joined([lines[start.line][start.col..]] + lines[start.line + 1..end.line] + [lines[end.line][..end.col]])
  }

  /** The document is the text before `start`, then `text`, then what is after `end`. */
  predicate IsBetween(lines: seq<string>, start: Position, text: string, end: Position) {
    && InText(lines, start) && InText(lines, end) && Compare(start, end) <= 0
    && Joined(lines) == Head(lines, start) + text + Tail(lines, end)
  }

  /** Two texts put together: the last line of one and the first of the other become one. */
  lemma {:induction false} JoinedSeam(a: seq<string>, x: string, y: string, b: seq<string>)
    ensures Joined(a + [x]) + Joined([y] + b) == Joined(a + [x + y] + b)
    decreases |a|
  {
    if a == [] {
      assert [] + [x] == [x] && [] + [x + y] + b == [x + y] + b;
      assert ([y] + b)[1..] == b && ([x + y] + b)[1..] == b;
    } else {
      JoinedSeam(a[1..], x, y, b);
      assert (a + [x])[1..] == a[1..] + [x];
      assert (a + [x + y] + b)[1..] == a[1..] + [x + y] + b;
      assert (a[0] + "\n" + Joined(a[1..] + [x])) + Joined([y] + b) == a[0] + "\n" + (Joined(a[1..] + [x]) + Joined([y] + b));
    }
  }

  /** Main result. The document is what is before the selection, the selection, and what is after it. */
  lemma DocumentSplits(lines: seq<string>, start: Position, end: Position)
    requires InText(lines, start) && InText(lines, end) && Compare(start, end) <= 0
    ensures IsBetween(lines, start, Between(lines, start, end), end)
  {
    if start.line == end.line {
      SplitsInLine(lines, start, end.col);
    } else {
      SplitsAcross(lines, start, end);
    }
  }

  lemma SplitsInLine(lines: seq<string>, start: Position, col: nat)
    requires InText(lines, start) && start.col <= col <= |lines[start.line]|
    ensures Joined(lines) == Head(lines, start) + lines[start.line][start.col..col] + Tail(lines, Position(start.line, col))
  {
    hide Joined;
    var a, b, line := lines[..start.line], lines[start.line + 1..], lines[start.line];
    var middle := line[start.col..col];
    JoinedSeam(a, line[..start.col], middle, []);
    JoinedOne(middle);
    assert [middle] + [] == [middle] && a + [line[..start.col] + middle] + [] == a + [line[..start.col] + middle];
    assert line[..start.col] + middle == line[..col];
    JoinedSeam(a, line[..col], line[col..], b);
    assert line[..col] + line[col..] == line;
    assert a + [line] + b == lines;
  }

  lemma JoinedOne(line: string)
    ensures Joined([line]) == line
  {
  }

  lemma SplitsAcross(lines: seq<string>, start: Position, end: Position)
    requires InText(lines, start) && InText(lines, end) && start.line < end.line
    ensures Joined(lines) == Head(lines, start) + Between(lines, start, end) + Tail(lines, end)
  {
    hide Joined;
    var first, last := lines[start.line], lines[end.line];
    var a, middle, b := lines[..start.line], lines[start.line + 1..end.line], lines[end.line + 1..];
    LinesSplit(lines, start.line, end.line);
    LineSplits(first, start.col);
    LineSplits(last, end.col);
    JoinedAcross(a, first[..start.col], first[start.col..], middle, last[..end.col], last[end.col..], b);
  }

  lemma LineSplits(line: string, col: nat)
    requires col <= |line|
    ensures line[..col] + line[col..] == line
  {
  }

  lemma LinesSplit(lines: seq<string>, i: nat, j: nat)
    requires i < j < |lines|
    ensures lines[..i] + [lines[i]] + lines[i + 1..j] + [lines[j]] + lines[j + 1..] == lines
  {
  }

  lemma JoinedAcross(a: seq<string>, x: string, y: string, middle: seq<string>, z: string, w: string, b: seq<string>)
    ensures Joined(a + [x]) + Joined([y] + middle + [z]) + Joined([w] + b) == Joined(a + [x + y] + middle + [z + w] + b)
  {
    hide Joined;
    JoinedSeam(a, x, y, middle + [z]);
    assert [y] + (middle + [z]) == [y] + middle + [z];
    assert a + [x + y] + (middle + [z]) == (a + [x + y] + middle) + [z];
    JoinedSeam(a + [x + y] + middle, z, w, b);
  }

  /** The lines without a selection. */
  function Without(lines: seq<string>, start: Position, end: Position): seq<string>
    requires InText(lines, start) && InText(lines, end) && Compare(start, end) <= 0
  {
    lines[..start.line] + [lines[start.line][..start.col] + lines[end.line][end.col..]] + lines[end.line + 1..]
  }

  /** Main result. Deleting leaves what was before and after, and the start of the selection is the seam. */
  lemma DeletingLeavesTheRest(lines: seq<string>, start: Position, end: Position)
    requires InText(lines, start) && InText(lines, end) && Compare(start, end) <= 0
    ensures var lines' := Without(lines, start, end);
      && InText(lines', start) && Joined(lines') == Head(lines, start) + Tail(lines, end)
      && Head(lines', start) == Head(lines, start) && Tail(lines', start) == Tail(lines, end)
  {
    var a, b := lines[..start.line], lines[end.line + 1..];
    var x, y := lines[start.line][..start.col], lines[end.line][end.col..];
    var lines' := Without(lines, start, end);
    JoinedSeam(a, x, y, b);
    assert lines'[..start.line] == a && lines'[start.line] == x + y && lines'[start.line + 1..] == b;
    assert (x + y)[..start.col] == x && (x + y)[start.col..] == y;
  }

  lemma WithoutIsText(lines: seq<string>, start: Position, end: Position)
    requires InText(lines, start) && InText(lines, end) && Compare(start, end) <= 0 && IsText(lines)
    ensures IsText(Without(lines, start, end))
  {
    assert lines[start.line] in lines && lines[end.line] in lines;
  }

  // ---------------------------------------------------------------------------------------------
  // Dragging
  // ---------------------------------------------------------------------------------------------

  function StartOf(cell: Cell): Position {
    Position(cell.line, cell.start)
  }

  function EndOf(cell: Cell): Position {
    Position(cell.line, cell.end)
  }

  predicate Forward(anchor: Cell, cell: Cell) {
    Compare(EndOf(cell), StartOf(anchor)) > 0
  }

  function DragStart(anchor: Cell, cell: Cell): Position {
    if Forward(anchor, cell) then StartOf(anchor) else StartOf(cell)
  }

  function DragEnd(anchor: Cell, cell: Cell): Position {
    if Forward(anchor, cell) then EndOf(cell) else EndOf(anchor)
  }

  /** One cell ends before the other starts, or they are the same. */
  predicate Disjoint(a: Cell, b: Cell) {
    a == b || Compare(EndOf(a), StartOf(b)) <= 0 || Compare(EndOf(b), StartOf(a)) <= 0
  }

  /** Main result. A drag selects from a start to an end not before it; and of two graphemes, both and all in between. */
  lemma DragIsOrdered(anchor: Cell, cell: Cell)
    requires anchor.start <= anchor.end && cell.start <= cell.end
    ensures Compare(DragStart(anchor, cell), DragEnd(anchor, cell)) <= 0
    ensures Disjoint(anchor, cell) ==>
      && Compare(DragStart(anchor, cell), StartOf(anchor)) <= 0 && Compare(DragStart(anchor, cell), StartOf(cell)) <= 0
      && Compare(DragEnd(anchor, cell), EndOf(anchor)) >= 0 && Compare(DragEnd(anchor, cell), EndOf(cell)) >= 0
      && DragStart(anchor, cell) in {StartOf(anchor), StartOf(cell)} && DragEnd(anchor, cell) in {EndOf(anchor), EndOf(cell)}
  {
  }

  // ---------------------------------------------------------------------------------------------
  // The editor
  // ---------------------------------------------------------------------------------------------

  class Editor {
    var lines: seq<string>
    var cursor: Position
    /** The entry of the editor in the table of selections. */
    var selection: Option<Selection>

    constructor (lines: seq<string>)
      requires IsText(lines)
      ensures Valid() && this.lines == lines && selection == None
    {
      this.lines, cursor, selection := lines, Position(0, 0), None;
    }

    /** A selection fits the text it was made in, whatever the text is by now. */
    ghost predicate Valid()
      reads this
    {
      && IsText(lines) && InText(lines, cursor)
      && (selection.Some? ==> var s := selection.value; InText(Lines(s.text), s.start) && InText(Lines(s.text), s.end))
    }

    /** Whatever else changes the text, such as typing. */
    method Change(lines: seq<string>, cursor: Position)
      requires Valid() && IsText(lines) && InText(lines, cursor)
      modifies this`lines, this`cursor
      ensures Valid() && this.lines == lines && this.cursor == cursor
    {
      this.lines, this.cursor := lines, cursor;
    }

    /** The selection, dropped if the text is not the one it was made in, or if nothing is selected. */
    method ActiveSelection() returns (active: Option<Selection>)
      requires Valid()
      modifies this`selection
      ensures Valid() && active == selection
      ensures active == if old(selection).Some? && old(selection).value.text == Joined(lines)
        && Compare(old(selection).value.start, old(selection).value.end) < 0 then old(selection) else None
      ensures active.Some? ==> InText(lines, active.value.start) && InText(lines, active.value.end)
    {
      LinesOfJoined(lines);
      if selection.Some? && (selection.value.text != Joined(lines) || Compare(selection.value.start, selection.value.end) >= 0) {
        selection := None;
      }
      active := selection;
    }

    method Select(start: Position, end: Position, cursor: Position)
      requires Valid() && InText(lines, start) && InText(lines, end) && InText(lines, cursor)
      modifies this`selection, this`cursor
      ensures Valid() && selection == Some(Selection(start, end, Joined(lines))) && this.cursor == cursor
    {
      LinesOfJoined(lines);
      selection := Some(Selection(start, end, Joined(lines)));
      this.cursor := cursor;
    }

    method SelectedText() returns (text: Option<string>)
      requires Valid()
      modifies this`selection
      ensures Valid()
      ensures selection == if old(selection).Some? && old(selection).value.text == Joined(lines)
        && Compare(old(selection).value.start, old(selection).value.end) < 0 then old(selection) else None
      ensures selection.None? ==> text.None?
      ensures selection.Some? ==> text.Some? && IsBetween(lines, selection.value.start, text.value, selection.value.end)
    {
      var active := ActiveSelection();
      if active.None? {
        return None;
      }
      var start, end := active.value.start, active.value.end;
      DocumentSplits(lines, start, end);
      if start.line == end.line {
        return Some(lines[start.line][start.col..end.col]);
      }
      text := Some(Joined([lines[start.line][start.col..]] + lines[start.line + 1..end.line] + [lines[end.line][..end.col]]));
    }

    /** Deletes the active selection. */
    method DeleteSelection(active: Selection)
      requires Valid() && InText(lines, active.start) && InText(lines, active.end) && Compare(active.start, active.end) < 0
      modifies this
      ensures Valid() && selection == None && cursor == active.start
      ensures InText(old(lines), active.start) && InText(old(lines), active.end)
      ensures Joined(lines) == Head(old(lines), active.start) + Tail(old(lines), active.end)
      ensures Head(lines, cursor) == Head(old(lines), active.start) && Tail(lines, cursor) == Tail(old(lines), active.end)
    {
      var start, end := active.start, active.end;
      DeletingLeavesTheRest(lines, start, end);
      WithoutIsText(lines, start, end);
      selection := None;
      lines := lines[..start.line] + [lines[start.line][..start.col] + lines[end.line][end.col..]] + lines[end.line + 1..];
      cursor := start;
    }

    method DragTo(anchor: Cell, cell: Cell)
      requires Valid() && anchor.start <= anchor.end && cell.start <= cell.end
      requires InText(lines, EndOf(anchor)) && InText(lines, EndOf(cell))
      modifies this`selection, this`cursor
      ensures Valid() && selection == Some(Selection(DragStart(anchor, cell), DragEnd(anchor, cell), Joined(lines)))
      ensures cursor == if Forward(anchor, cell) then selection.value.end else selection.value.start
    {
      if Compare(EndOf(cell), StartOf(anchor)) > 0 {
        Select(StartOf(anchor), EndOf(cell), EndOf(cell));
        return;
      }
      Select(StartOf(cell), EndOf(anchor), StartOf(cell));
    }

    /** Selects the longest run of white space, or of anything else, around a place. */
    method SelectWord(cell: Cell)
      requires Valid() && cell.line < |lines|
      modifies this`selection, this`cursor
      ensures Valid()
      ensures var text := lines[cell.line];
        if cell.start >= |text| then selection == old(selection) && cursor == old(cursor)
        else selection.Some? && var s := selection.value;
          && s.start.line == s.end.line == cell.line && s.start.col <= cell.start < s.end.col <= |text|
          && IsRun(text, s.start.col, s.end.col) && s.text == Joined(lines) && cursor == s.end
    {
      var text := lines[cell.line];
      if cell.start >= |text| {
        return;
      }
      var space := IsSpace(text[cell.start]);
      var start: nat, end: nat := cell.start, cell.start;
      while start > 0 && IsSpace(text[start - 1]) == space
        invariant start <= cell.start
        invariant forall k :: start <= k <= cell.start ==> IsSpace(text[k]) == space
      {
        start := start - 1;
      }
      while end < |text| && IsSpace(text[end]) == space
        invariant cell.start <= end <= |text|
        invariant forall k :: cell.start <= k < end ==> IsSpace(text[k]) == space
      {
        end := end + 1;
      }
      Select(Position(cell.line, start), Position(cell.line, end), Position(cell.line, end));
    }

    method SelectAll()
      requires Valid()
      modifies this`selection, this`cursor
      ensures Valid() && selection.Some? && var s := selection.value;
        && s.text == Joined(lines) && InText(lines, s.start) && InText(lines, s.end) && Compare(s.start, s.end) <= 0
        && Head(lines, s.start) == "" && Tail(lines, s.end) == ""
    {
      var last := |lines| - 1;
      var end := Position(last, |lines[last]|);
      assert lines[0][..0] == "" && lines[last][|lines[last]|..] == "" && lines[last + 1..] == [];
      assert lines[..0] + [lines[0][..0]] == [""];
      assert [lines[last][|lines[last]|..]] + lines[last + 1..] == [""];
      Select(Position(0, 0), end, end);
    }
  }

  /** All white space or none, and as long as can be. */
  predicate IsRun(text: string, start: nat, end: nat)
    requires start < end <= |text|
  {
    && (forall k :: start <= k < end ==> IsSpace(text[k]) == IsSpace(text[start]))
    && (start > 0 ==> IsSpace(text[start - 1]) != IsSpace(text[start]))
    && (end < |text| ==> IsSpace(text[end]) != IsSpace(text[start]))
  }
}
