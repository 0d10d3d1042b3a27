/**
 Evidence packing. The rows that a scan found are gathered into files per asset type, none over 400 KiB; the files are sent
 in batches of at most 100 files and 512 KiB; and the report follows only when every file is known to be stored.
 */
module Discovery {
  import opened Wrappers
  import opened Seqs
  import opened Strings

  const MAX_FILE_BYTES: nat := 400 * 1024
  const MAX_BATCH_BYTES: nat := 512 * 1024
  const MAX_BATCH_FILES: nat := 100

  type byte = x: int | 0 <= x < 256

  type Bytes = seq<byte>

  datatype EvidenceFile = EvidenceFile(path: string, content: Option<Bytes>)

  // ---------------------------------------------------------------------------------------------
  // Paths
  // ---------------------------------------------------------------------------------------------

  function SurfacePath(assetType: string, chunk: nat): string {
    "surface/" + assetType + "-" + Decimal(chunk) + ".ndjson"
  }

  lemma {:induction false} DecimalIsInjective(a: nat, b: nat)
    requires Decimal(a) == Decimal(b)
    ensures a == b
  {
    NumberOfDecimal(a);
    NumberOfDecimal(b);
  }

  /** The last dash of a path comes before its chunk number, whatever dashes and digits the asset type has. */
  lemma NameIsInjective(t: string, d: string, t': string, d': string)
    requires t + "-" + d == t' + "-" + d'
    requires (forall k :: 0 <= k < |d| ==> IsDigit(d[k])) && forall k :: 0 <= k < |d'| ==> IsDigit(d'[k])
    ensures t == t' && d == d'
  {
    var s := t + "-" + d;
    NoDashBehind(t, d);
    NoDashBehind(t', d');
    assert s[|t|] == '-' && s[|t'|] == '-';
    assert t == s[..|t|] && d == s[|t| + 1..];
    assert t' == s[..|t'|] && d' == s[|t'| + 1..];
  }

  lemma NoDashBehind(t: string, d: string)
    requires forall k :: 0 <= k < |d| ==> IsDigit(d[k])
    ensures var s := t + "-" + d;
      forall k :: |t| < k < |s| ==> s[k] != '-'
  {
    assert forall k :: |t| < k < |t + "-" + d| ==> (t + "-" + d)[k] == d[k - |t| - 1];
  }

  /** Different asset types or chunk numbers have different paths. */
  lemma PathIsInjective(t: string, c: nat, t': string, c': nat)
    requires SurfacePath(t, c) == SurfacePath(t', c')
    ensures t == t' && c == c'
  {
    var p, p' := SurfacePath(t, c), SurfacePath(t', c');
    var name, name' := t + "-" + Decimal(c), t' + "-" + Decimal(c');
    assert p == "surface/" + name + ".ndjson" && p' == "surface/" + name' + ".ndjson";
    assert name == p[8..|p| - 7] && name' == p'[8..|p'| - 7];
    NameIsInjective(t, Decimal(c), t', Decimal(c'));
    DecimalIsInjective(c, c');
  }

  // ---------------------------------------------------------------------------------------------
  // Rows
  // ---------------------------------------------------------------------------------------------

  /**
   A line of the candidates file, as far as the checks look at it: it could not be read, is blank, is no JSON, is no
   object; or an object with its asset type, if it has a non-empty one, whether the other fields are in order, and its
   compact form.
   */
  datatype Line = Unreadable | Blank | NoJson | NoObject | Candidate(assetType: Option<string>, normalized: bool, row: Bytes)

  datatype Reason = ReadError | NotJson | NotObject | NoAssetType | UnsafeAssetType | NotNormalized | TooLarge

  predicate SafeChar(c: char) {
    'a' <= c <= 'z' || '0' <= c <= '9' || c == '_' || c == '-'
  }

  predicate Safe(assetType: string) {
    forall i :: 0 <= i < |assetType| ==> SafeChar(assetType[i])
  }

  /** The first check that a line fails. */
  function Fault(line: Line): Option<Reason> {
    match line
    case Unreadable => Some(ReadError)
    case Blank => None
    case NoJson => Some(NotJson)
    case NoObject => Some(NotObject)
    case Candidate(assetType, normalized, row) =>
      if assetType.None? || assetType.value == "" then Some(NoAssetType)
      else if !Safe(assetType.value) then Some(UnsafeAssetType)
      else if !normalized then Some(NotNormalized)
      else if |row| + 1 > MAX_FILE_BYTES then Some(TooLarge)
      else None
  }

  /** A line that can be packed: an object with a safe asset type, in order, and not over the limit with its newline. */
  predicate Packable(line: Line) {
    && line.Candidate? && line.assetType.Some? && line.assetType.value != "" && line.normalized && |line.row| < 409600
    && forall c :: c in line.assetType.value ==> c in SMALL + DIGITS + "_-"
  }

  /** What the checks accept, and what they blame otherwise: the first of the faults in their order. */
  lemma FaultExactly(line: Line)
    ensures Fault(line).None? <==> line.Blank? || Packable(line)
    ensures Fault(line) == Some(ReadError) <==> line.Unreadable?
    ensures Fault(line) == Some(NotJson) <==> line.NoJson?
    ensures Fault(line) == Some(NotObject) <==> line.NoObject?
    ensures Fault(line) == Some(NoAssetType) <==> line.Candidate? && (line.assetType == None || line.assetType == Some(""))
    ensures line.Candidate? && line.assetType.Some? && line.assetType.value != "" ==>
      var safe := forall c :: c in line.assetType.value ==> c in SMALL + DIGITS + "_-";
      && (Fault(line) == Some(UnsafeAssetType) <==> !safe)
      && (Fault(line) == Some(NotNormalized) <==> safe && !line.normalized)
      && (Fault(line) == Some(TooLarge) <==> safe && line.normalized && |line.row| >= 409600)
  {
    if line.Candidate? && line.assetType.Some? {
      SafeIs(line.assetType.value);
    }
  }

  lemma SafeIs(assetType: string)
    ensures Safe(assetType) <==> forall c :: c in assetType ==> c in SMALL + DIGITS + "_-"
  {
    hide SafeChar;
    forall c: char
      ensures SafeChar(c) <==> c in SMALL + DIGITS + "_-"
    {
      SafeCharIs(c);
    }
    assert forall i :: 0 <= i < |assetType| ==> assetType[i] in assetType;
  }

  lemma SafeCharIs(c: char)
    ensures SafeChar(c) <==> c in SMALL + DIGITS + "_-"
  {
    SmallAre(c);
    DigitsAre(c);
    assert "_-" == ['_', '-'];
    hide SMALL, DIGITS;
  }

  const NEWLINE: byte := 10

  /** A row with its newline. */
  function Ended(row: Bytes): Bytes {
    row + [NEWLINE]
  }

  function AllEnded(rows: seq<Bytes>): Bytes {
    if rows == [] then [] else AllEnded(rows[..|rows| - 1]) + Ended(rows[|rows| - 1])
  }

  /** The rows of a file, each up to its newline. */
  function RowsRead(content: Bytes, row: Bytes): seq<Bytes>
    decreases |content|
  {
    if content == [] then []
    else if content[0] == 10 then [row] + RowsRead(content[1..], [])
    else RowsRead(content[1..], row + [content[0]])
  }

  lemma {:induction false} RowRead(row: Bytes, k: nat, rest: Bytes)
    requires 10 !in row && k <= |row|
    ensures RowsRead(row[k..] + [10] + rest, row[..k]) == [row] + RowsRead(rest, [])
    decreases |row| - k
  {
    var content := row[k..] + [10] + rest;
    if k == |row| {
      assert row[..k] == row && content[1..] == rest;
    } else {
      assert content[1..] == row[k + 1..] + [10] + rest;
      assert row[..k] + [row[k]] == row[..k + 1];
      RowRead(row, k + 1, rest);
    }
  }

  lemma {:induction false} EndedRowsRead(rows: seq<Bytes>, rest: Bytes)
    requires forall i :: 0 <= i < |rows| ==> 10 !in rows[i]
    ensures RowsRead(AllEnded(rows) + rest, []) == rows + RowsRead(rest, [])
    decreases |rows|
  {
    if rows == [] {
      assert AllEnded(rows) + rest == rest;
    } else {
      var n := |rows| - 1;
      assert AllEnded(rows) + rest == AllEnded(rows[..n]) + (rows[n] + [10] + rest);
      EndedRowsRead(rows[..n], rows[n] + [10] + rest);
      RowRead(rows[n], 0, rest);
      assert rows[n][0..] == rows[n] && rows[n][..0] == [];
      assert rows[..n] + [rows[n]] == rows;
    }
  }

  /** Main result. Rows without a newline in them are read back from the file they are in. */
  lemma RowsReadBack(rows: seq<Bytes>)
    requires forall i :: 0 <= i < |rows| ==> 10 !in rows[i]
    ensures RowsRead(AllEnded(rows), []) == rows
  {
    EndedRowsRead(rows, []);
    assert AllEnded(rows) + [] == AllEnded(rows) && rows + RowsRead([], []) == rows;
  }

  /** The rows of one asset type, in order. */
  function RowsOf(lines: seq<Line>, assetType: string): seq<Bytes> {
    if lines == [] then [] else
      var last := lines[|lines| - 1];
      RowsOf(lines[..|lines| - 1], assetType) +
      if last.Candidate? && last.assetType == Some(assetType) then [last.row] else []
  }

  function CountCandidates(lines: seq<Line>): nat {
    if lines == [] then 0 else CountCandidates(lines[..|lines| - 1]) + if lines[|lines| - 1].Candidate? then 1 else 0
  }

  // ---------------------------------------------------------------------------------------------
  // Chunks
  // ---------------------------------------------------------------------------------------------

  datatype Chunk = Chunk(index: nat, content: Bytes)

  /** What a file is: the rows it holds of its asset type, and its number. */
  datatype Tag = Tag(assetType: string, chunk: nat, rows: seq<Bytes>)

  function TagsOf(tags: seq<Tag>, assetType: string): seq<Tag> {
    if tags == [] then [] else
      TagsOf(tags[..|tags| - 1], assetType) + if tags[|tags| - 1].assetType == assetType then [tags[|tags| - 1]] else []
  }

  function RowsIn(tags: seq<Tag>): seq<Bytes> {
    if tags == [] then [] else RowsIn(tags[..|tags| - 1]) + tags[|tags| - 1].rows
  }

  /** A file is what its tag says, within the limit, and not empty. */
  ghost predicate Tagged(file: EvidenceFile, tag: Tag) {
    && file == EvidenceFile("surface/" + tag.assetType + "-" + Decimal(tag.chunk) + ".ndjson", Some(AllEnded(tag.rows)))
    && tag.rows != [] && |AllEnded(tag.rows)| <= 409600
  }

  /** The files of one type are numbered from 1, and each was full: the next row did not fit. */
  ghost predicate Sequence(tags: seq<Tag>) {
    && (forall k :: 0 <= k < |tags| ==> tags[k].chunk == k + 1 && tags[k].rows != [])
    && forall k :: 0 < k < |tags| ==> Full(tags[k - 1], tags[k])
  }

  predicate Full(before: Tag, next: Tag) {
    next.rows != [] && |AllEnded(before.rows)| + |Ended(next.rows[0])| > 409600
  }

  ghost predicate AllTagged(files: seq<EvidenceFile>, tags: seq<Tag>) {
    |tags| == |files| && forall k :: 0 <= k < |files| ==> Tagged(files[k], tags[k])
  }

  /** The files are what the tags say, and the tags hold the rows of every type in order. */
  ghost predicate Packed(files: seq<EvidenceFile>, tags: seq<Tag>, lines: seq<Line>) {
    AllTagged(files, tags) && forall t :: PackedType(tags, lines, t)
  }

  ghost predicate PackedType(tags: seq<Tag>, lines: seq<Line>, t: string) {
    Sequence(TagsOf(tags, t)) && RowsIn(TagsOf(tags, t)) == RowsOf(lines, t)
  }

  /** The chunk of this type is still open, with `rows` in it. */
  ghost predicate OpenType(tags: seq<Tag>, lines: seq<Line>, t: string, chunk: Chunk, rows: seq<Bytes>) {
    && rows != [] && chunk.content == AllEnded(rows) && |chunk.content| <= MAX_FILE_BYTES
    && Sequence(TagsOf(tags, t) + [Tag(t, chunk.index, rows)])
    && RowsIn(TagsOf(tags, t)) + rows == RowsOf(lines, t)
  }

  ghost predicate NewType(tags: seq<Tag>, lines: seq<Line>, t: string) {
    TagsOf(tags, t) == [] && RowsOf(lines, t) == []
  }

  /** While lines are read: a type has an open chunk, or nothing yet. */
  ghost predicate Filling(tags: seq<Tag>, lines: seq<Line>, chunks: map<string, Chunk>, open: map<string, seq<Bytes>>) {
    && open.Keys == chunks.Keys
    && forall t :: if t in chunks then OpenType(tags, lines, t, chunks[t], open[t]) else NewType(tags, lines, t)
  }

  /** While the open chunks are closed: those in `left` are still open. */
  ghost predicate Closing(tags: seq<Tag>, lines: seq<Line>, chunks: map<string, Chunk>, open: map<string, seq<Bytes>>, left: set<string>) {
    && left <= chunks.Keys == open.Keys
    && forall t :: if t in left then OpenType(tags, lines, t, chunks[t], open[t]) else PackedType(tags, lines, t)
  }

  lemma TagsOfMore(tags: seq<Tag>, tag: Tag, t: string)
    ensures TagsOf(tags + [tag], t) == TagsOf(tags, t) + if tag.assetType == t then [tag] else []
  {
    assert (tags + [tag])[..|tags|] == tags;
  }

  lemma RowsInMore(tags: seq<Tag>, tag: Tag)
    ensures RowsIn(tags + [tag]) == RowsIn(tags) + tag.rows
  {
    assert (tags + [tag])[..|tags|] == tags;
  }

  lemma RowsOfMore(lines: seq<Line>, line: Line, t: string)
    ensures RowsOf(lines + [line], t) == RowsOf(lines, t) + if line.Candidate? && line.assetType == Some(t) then [line.row] else []
  {
    assert (lines + [line])[..|lines|] == lines;
  }

  lemma AllEndedMore(rows: seq<Bytes>, row: Bytes)
    ensures AllEnded(rows + [row]) == AllEnded(rows) + Ended(row)
  {
    assert (rows + [row])[..|rows|] == rows;
  }

  lemma AllEndedOne(row: Bytes)
    ensures AllEnded([row]) == Ended(row)
  {
    assert [row][..0] == [];
  }

  lemma TaggedMore(files: seq<EvidenceFile>, tags: seq<Tag>, file: EvidenceFile, tag: Tag)
    requires AllTagged(files, tags) && Tagged(file, tag)
    ensures AllTagged(files + [file], tags + [tag])
  {
  }

  /** The last chunk of a sequence grows: what made it follow the one before was its first row. */
  lemma SequenceGrows(tags: seq<Tag>, t: string, index: nat, rows: seq<Bytes>, row: Bytes)
    requires rows != [] && Sequence(tags + [Tag(t, index, rows)])
    ensures Sequence(tags + [Tag(t, index, rows + [row])])
  {
    hide AllEnded, Ended;
    var before, after := tags + [Tag(t, index, rows)], tags + [Tag(t, index, rows + [row])];
    forall k | 0 < k < |after|
      ensures Full(after[k - 1], after[k])
    {
      assert Full(before[k - 1], before[k]);
    }
    assert forall k :: 0 <= k < |after| ==> after[k].chunk == before[k].chunk;
  }

  lemma SequenceOpens(tags: seq<Tag>, t: string, index: nat, rows: seq<Bytes>, row: Bytes)
    requires Sequence(tags + [Tag(t, index, rows)]) && |AllEnded(rows)| + |Ended(row)| > MAX_FILE_BYTES
    ensures Sequence(tags + [Tag(t, index, rows)] + [Tag(t, index + 1, [row])])
  {
    hide AllEnded, Ended;
    var before := tags + [Tag(t, index, rows)];
    var after := before + [Tag(t, index + 1, [row])];
    assert before[|tags|].chunk == |tags| + 1;
    forall k | 0 < k < |after|
      ensures Full(after[k - 1], after[k])
    {
      assert k < |before| ==> Full(before[k - 1], before[k]);
    }
  }

  lemma SequenceOfOne(t: string, row: Bytes)
    ensures Sequence([] + [Tag(t, 1, [row])])
  {
  }

  /** A line without a row changes nothing. */
  lemma FillSkips(tags: seq<Tag>, lines: seq<Line>, chunks: map<string, Chunk>, open: map<string, seq<Bytes>>, line: Line)
    requires Filling(tags, lines, chunks, open) && !line.Candidate?
    ensures Filling(tags, lines + [line], chunks, open)
  {
    hide Sequence, AllEnded, TagsOf, RowsIn, RowsOf;
    forall t
      ensures RowsOf(lines + [line], t) == RowsOf(lines, t)
    {
      RowsOfMore(lines, line, t);
    }
  }

  /** A row for type `a`: another type is as before. */
  lemma OtherStays(tags: seq<Tag>, lines: seq<Line>, line: Line, a: string, tags': seq<Tag>, t: string)
    requires t != a && line.Candidate? && line.assetType == Some(a)
    requires tags' == tags || exists tag: Tag :: tag.assetType == a && tags' == tags + [tag]
    ensures TagsOf(tags', t) == TagsOf(tags, t) && RowsOf(lines + [line], t) == RowsOf(lines, t)
    ensures NewType(tags, lines, t) ==> NewType(tags', lines + [line], t)
    ensures forall chunk, rows :: OpenType(tags, lines, t, chunk, rows) ==> OpenType(tags', lines + [line], t, chunk, rows)
  {
    hide Sequence, AllEnded, RowsIn;
    RowsOfMore(lines, line, t);
    if tags' != tags {
      TagsOfMore(tags, tags'[|tags|], t);
      assert tags' == tags + [tags'[|tags|]];
    }
  }

  lemma FillOthers(tags: seq<Tag>, lines: seq<Line>, chunks: map<string, Chunk>, open: map<string, seq<Bytes>>,
      line: Line, a: string, tags': seq<Tag>, chunk: Chunk, rows: seq<Bytes>)
    requires Filling(tags, lines, chunks, open) && line.Candidate? && line.assetType == Some(a)
    requires tags' == tags || exists tag: Tag :: tag.assetType == a && tags' == tags + [tag]
    requires OpenType(tags', lines + [line], a, chunk, rows)
    ensures Filling(tags', lines + [line], chunks[a := chunk], open[a := rows])
  {
    hide OpenType, NewType, TagsOf, RowsOf;
    forall t | t != a
      ensures if t in chunks then OpenType(tags', lines + [line], t, chunks[t], open[t]) else NewType(tags', lines + [line], t)
    {
      OtherStays(tags, lines, line, a, tags', t);
    }
  }

  lemma OpenFirst(tags: seq<Tag>, lines: seq<Line>, a: string, line: Line)
    requires NewType(tags, lines, a) && line.Candidate? && line.assetType == Some(a) && |Ended(line.row)| <= MAX_FILE_BYTES
    ensures OpenType(tags, lines + [line], a, Chunk(1, Ended(line.row)), [line.row])
  {
    RowsOfMore(lines, line, a);
    AllEndedOne(line.row);
    SequenceOfOne(a, line.row);
  }

  lemma OpenMore(tags: seq<Tag>, lines: seq<Line>, a: string, line: Line, chunk: Chunk, rows: seq<Bytes>)
    requires OpenType(tags, lines, a, chunk, rows) && line.Candidate? && line.assetType == Some(a)
    requires |chunk.content| + |Ended(line.row)| <= MAX_FILE_BYTES
    ensures OpenType(tags, lines + [line], a, Chunk(chunk.index, chunk.content + Ended(line.row)), rows + [line.row])
  {
    hide Sequence, AllEnded, TagsOf, RowsIn, RowsOf, Ended;
    RowsOfMore(lines, line, a);
    AllEndedMore(rows, line.row);
    SequenceGrows(TagsOf(tags, a), a, chunk.index, rows, line.row);
  }

  lemma OpenNext(tags: seq<Tag>, lines: seq<Line>, a: string, line: Line, chunk: Chunk, rows: seq<Bytes>)
    requires OpenType(tags, lines, a, chunk, rows) && line.Candidate? && line.assetType == Some(a)
    requires |chunk.content| + |Ended(line.row)| > MAX_FILE_BYTES >= |Ended(line.row)|
    ensures var tag := Tag(a, chunk.index, rows);
      && OpenType(tags + [tag], lines + [line], a, Chunk(chunk.index + 1, Ended(line.row)), [line.row])
      && Tagged(EvidenceFile(SurfacePath(a, chunk.index), Some(chunk.content)), tag)
  {
    hide Sequence, AllEnded, TagsOf, RowsIn, RowsOf, Ended, Decimal;
    var tag := Tag(a, chunk.index, rows);
    RowsOfMore(lines, line, a);
    AllEndedOne(line.row);
    TagsOfMore(tags, tag, a);
    RowsInMore(TagsOf(tags, a), tag);
    SequenceOpens(TagsOf(tags, a), a, chunk.index, rows, line.row);
  }

  lemma CloseOne(tags: seq<Tag>, lines: seq<Line>, chunks: map<string, Chunk>, open: map<string, seq<Bytes>>, left: set<string>, tag: Tag)
    requires Closing(tags, lines, chunks, open, left) && tag.assetType in left && PackedType(tags + [tag], lines, tag.assetType)
    ensures Closing(tags + [tag], lines, chunks, open, left - {tag.assetType})
  {
    hide OpenType, PackedType;
    forall t | t in left && t != tag.assetType
      ensures OpenType(tags + [tag], lines, t, chunks[t], open[t])
    {
      CloseOtherOpen(tags, lines, tag, t, chunks[t], open[t]);
    }
    forall t | t !in left
      ensures PackedType(tags + [tag], lines, t)
    {
      CloseOther(tags, lines, tag, t);
    }
  }

  lemma ClosingOpen(tags: seq<Tag>, lines: seq<Line>, chunks: map<string, Chunk>, open: map<string, seq<Bytes>>, left: set<string>, t: string)
    requires Closing(tags, lines, chunks, open, left) && t in left
    ensures OpenType(tags, lines, t, chunks[t], open[t])
  {
    hide OpenType, PackedType;
  }

  lemma CloseThis(tags: seq<Tag>, lines: seq<Line>, a: string, chunk: Chunk, rows: seq<Bytes>)
    requires OpenType(tags, lines, a, chunk, rows)
    ensures var tag := Tag(a, chunk.index, rows);
      && PackedType(tags + [tag], lines, a) && chunk.content != []
      && Tagged(EvidenceFile(SurfacePath(a, chunk.index), Some(chunk.content)), tag)
  {
    var tag := Tag(a, chunk.index, rows);
    assert AllEnded(rows) != [];
    hide Sequence, AllEnded, RowsOf, Decimal, RowsIn, TagsOf;
    RowsInMore(TagsOf(tags, a), tag);
    TagsOfMore(tags, tag, a);
  }

  lemma CloseOther(tags: seq<Tag>, lines: seq<Line>, tag: Tag, t: string)
    requires t != tag.assetType
    ensures PackedType(tags, lines, t) ==> PackedType(tags + [tag], lines, t)
  {
    hide Sequence, RowsIn, RowsOf, TagsOf;
    TagsOfMore(tags, tag, t);
    assert TagsOf(tags, t) + [] == TagsOf(tags, t);
  }

  lemma CloseOtherOpen(tags: seq<Tag>, lines: seq<Line>, tag: Tag, t: string, chunk: Chunk, rows: seq<Bytes>)
    requires t != tag.assetType && OpenType(tags, lines, t, chunk, rows)
    ensures OpenType(tags + [tag], lines, t, chunk, rows)
  {
    hide Sequence, AllEnded, RowsIn, RowsOf, TagsOf;
    TagsOfMore(tags, tag, t);
    assert TagsOf(tags, t) + [] == TagsOf(tags, t);
  }

  lemma StartClosing(tags: seq<Tag>, lines: seq<Line>, chunks: map<string, Chunk>, open: map<string, seq<Bytes>>)
    requires Filling(tags, lines, chunks, open)
    ensures Closing(tags, lines, chunks, open, chunks.Keys) && open.Keys == chunks.Keys
  {
    hide AllEnded, TagsOf, RowsOf;
    forall t | t !in chunks
      ensures PackedType(tags, lines, t)
    {
      assert NewType(tags, lines, t);
    }
  }

  datatype Outcome = Failed(line: nat, reason: Reason) | CountMismatch | Surfaces(files: seq<EvidenceFile>)

  lemma CountMore(lines: seq<Line>, i: nat)
    requires i < |lines|
    ensures CountCandidates(lines[..i + 1]) == CountCandidates(lines[..i]) + if lines[i].Candidate? then 1 else 0
    ensures lines[..i + 1] == lines[..i] + [lines[i]]
  {
    assert lines[..i + 1][..i] == lines[..i];
  }

  /**
   The packing part of `cyber_discovery_artifacts`. Main result: it fails with the first fault of the first bad line, or
   when the report counts other candidates; otherwise each file is within the limit, the files of a type are numbered
   from 1 and hold its rows in order, and no file could have taken the row after its last.
   */
  method DiscoverySurfaces(lines: seq<Line>, total: nat) returns (outcome: Outcome, ghost tags: seq<Tag>)
    ensures outcome.Failed? ==>
      && outcome.line < |lines| && Fault(lines[outcome.line]) == Some(outcome.reason)
      && forall k :: 0 <= k < outcome.line ==> Fault(lines[k]).None?
    ensures !outcome.Failed? <==> forall k :: 0 <= k < |lines| ==> lines[k].Blank? || Packable(lines[k])
    ensures !outcome.Failed? ==> (outcome.Surfaces? <==> CountCandidates(lines) == total)
    ensures outcome.Surfaces? ==> Packed(outcome.files, tags, lines)
  {
    hide AllTagged, Filling, PackedType, TagsOf, Fault, Packable;
    forall line
      ensures Fault(line).None? <==> line.Blank? || Packable(line)
    {
      FaultExactly(line);
    }
    var surfaces: seq<EvidenceFile> := [];
    var count := 0;
    assert CountCandidates([]) == 0;
    var chunks: map<string, Chunk> := map[];
    ghost var open: map<string, seq<Bytes>> := map[];
    tags := [];
    FillNone();
    hide CountCandidates;
    for i := 0 to |lines|
      invariant forall k :: 0 <= k < i ==> Fault(lines[k]).None?
      invariant count == CountCandidates(lines[..i])
      invariant AllTagged(surfaces, tags) && Filling(tags, lines[..i], chunks, open)
    {
      CountMore(lines, i);
      var fault := Fault(lines[i]);
      if fault.Some? {
        return Failed(i, fault.value), tags;
      }
      if lines[i].Candidate? {
        count := count + 1;
        surfaces, chunks, tags, open := AddRow(lines[..i], lines[i], surfaces, chunks, tags, open);
      } else {
        FillSkips(tags, lines[..i], chunks, open, lines[i]);
      }
    }
    assert lines[..|lines|] == lines;
    surfaces, tags := CloseChunks(lines, surfaces, chunks, tags, open);
    if count != total {
      return CountMismatch, tags;
    }
    outcome := Surfaces(surfaces);
  }

  /** What is left in the chunks becomes files, too. */
  method CloseChunks(ghost lines: seq<Line>, surfaces: seq<EvidenceFile>, chunks: map<string, Chunk>, ghost tags: seq<Tag>,
      ghost open: map<string, seq<Bytes>>)
    returns (surfaces': seq<EvidenceFile>, ghost tags': seq<Tag>)
    requires AllTagged(surfaces, tags) && Filling(tags, lines, chunks, open)
    ensures AllTagged(surfaces', tags') && forall t :: PackedType(tags', lines, t)
  {
    hide AllTagged, Filling, Closing, OpenType, NewType, PackedType, Tagged, Sequence, TagsOf, AllEnded;
    surfaces', tags' := surfaces, tags;
    StartClosing(tags, lines, chunks, open);
    var left := chunks.Keys;
    while left != {}
      invariant AllTagged(surfaces', tags') && Closing(tags', lines, chunks, open, left) && left <= chunks.Keys == open.Keys
      decreases left
    {
      var t :| t in left;
      ghost var tag := Tag(t, chunks[t].index, open[t]);
      ClosingOpen(tags', lines, chunks, open, left, t);
      CloseThis(tags', lines, t, chunks[t], open[t]);
      CloseOne(tags', lines, chunks, open, left, tag);
      if chunks[t].content != [] {
        var file := EvidenceFile(SurfacePath(t, chunks[t].index), Some(chunks[t].content));
        TaggedMore(surfaces', tags', file, tag);
        surfaces' := surfaces' + [file];
        tags' := tags' + [tag];
      }
      left := left - {t};
    }
    ClosedAll(tags', lines, chunks, open);
  }

  /** A row goes into the chunk of its type, which is closed before if it would grow too large. */
  method AddRow(ghost before: seq<Line>, line: Line, surfaces: seq<EvidenceFile>, chunks: map<string, Chunk>,
      ghost tags: seq<Tag>, ghost open: map<string, seq<Bytes>>)
    returns (surfaces': seq<EvidenceFile>, chunks': map<string, Chunk>, ghost tags': seq<Tag>, ghost open': map<string, seq<Bytes>>)
    requires line.Candidate? && Fault(line).None?
    requires AllTagged(surfaces, tags) && Filling(tags, before, chunks, open)
    ensures AllTagged(surfaces', tags') && Filling(tags', before + [line], chunks', open') && open'.Keys == chunks'.Keys
  {
    var a := line.assetType.value;
    var chunk := if a in chunks then chunks[a] else Chunk(1, []);
    assert a in chunks ==> OpenType(tags, before, a, chunks[a], open[a]);
    assert a !in chunks ==> NewType(tags, before, a);
    assert |Ended(line.row)| == |line.row| + 1;
    hide Filling, OpenType, NewType, Tagged, AllTagged, Ended;
    surfaces', tags' := surfaces, tags;
    ghost var rows := if a in chunks then open[a] + [line.row] else [line.row];
    if a !in chunks {
      assert [] + Ended(line.row) == Ended(line.row);
      OpenFirst(tags, before, a, line);
    } else if |chunk.content| + |line.row| + 1 <= MAX_FILE_BYTES {
      OpenMore(tags, before, a, line, chunk, open[a]);
    } else {
      OpenNext(tags, before, a, line, chunk, open[a]);
    }
    if |chunk.content| + |line.row| + 1 > MAX_FILE_BYTES {
      var file := EvidenceFile(SurfacePath(a, chunk.index), Some(chunk.content));
      TaggedMore(surfaces, tags, file, Tag(a, chunk.index, open[a]));
      surfaces' := surfaces + [file];
      tags' := tags + [Tag(a, chunk.index, open[a])];
      rows := [line.row];
      chunk := Chunk(chunk.index + 1, []);
      assert [] + Ended(line.row) == Ended(line.row);
    }
    chunk := Chunk(chunk.index, chunk.content + Ended(line.row));
    FillOthers(tags, before, chunks, open, line, a, tags', chunk, rows);
    chunks' := chunks[a := chunk];
    open' := open[a := rows];
    KeysOfFilling(tags', before + [line], chunks', open');
  }

  lemma KeysOfFilling(tags: seq<Tag>, lines: seq<Line>, chunks: map<string, Chunk>, open: map<string, seq<Bytes>>)
    requires Filling(tags, lines, chunks, open)
    ensures open.Keys == chunks.Keys
  {
  }

  lemma FillNone()
    ensures Filling([], [], map[], map[]) && AllTagged([], [])
  {
  }

  lemma ClosedAll(tags: seq<Tag>, lines: seq<Line>, chunks: map<string, Chunk>, open: map<string, seq<Bytes>>)
    requires Closing(tags, lines, chunks, open, {})
    ensures forall t :: PackedType(tags, lines, t)
  {
    hide PackedType;
  }

  // ---------------------------------------------------------------------------------------------
  // Distinct paths
  // ---------------------------------------------------------------------------------------------

  lemma {:induction false} TagPosition(tags: seq<Tag>, i: nat)
    requires i < |tags|
    ensures var t := tags[i].assetType; var p := |TagsOf(tags[..i], t)|;
      p < |TagsOf(tags, t)| && TagsOf(tags, t)[p] == tags[i]
    decreases |tags|
  {
    var n := |tags| - 1;
    if i < n {
      TagPosition(tags[..n], i);
      assert tags[..n][..i] == tags[..i];
    }
  }

  lemma {:induction false} MoreTags(tags: seq<Tag>, i: nat, j: nat)
    requires i < j <= |tags|
    ensures |TagsOf(tags[..i], tags[i].assetType)| < |TagsOf(tags[..j], tags[i].assetType)|
    decreases j
  {
    assert tags[..j][..j - 1] == tags[..j - 1];
    if i < j - 1 {
      MoreTags(tags, i, j - 1);
    }
  }

  /** Main result. No two files have the same path. */
  lemma PathsAreDistinct(files: seq<EvidenceFile>, tags: seq<Tag>, lines: seq<Line>, i: nat, j: nat)
    requires Packed(files, tags, lines) && i < j < |files|
    ensures files[i].path != files[j].path
  {
    hide AllEnded, Decimal;
    assert Tagged(files[i], tags[i]) && Tagged(files[j], tags[j]);
    ChunksDiffer(tags, lines, i, j);
    if files[i].path == files[j].path {
      PathIsInjective(tags[i].assetType, tags[i].chunk, tags[j].assetType, tags[j].chunk);
    }
  }

  lemma ChunksDiffer(tags: seq<Tag>, lines: seq<Line>, i: nat, j: nat)
    requires i < j < |tags| && PackedType(tags, lines, tags[i].assetType)
    ensures tags[i].assetType == tags[j].assetType ==> tags[i].chunk != tags[j].chunk
  {
    hide TagsOf, RowsOf, RowsIn, Full;
    TagPosition(tags, i);
    TagPosition(tags, j);
    MoreTags(tags, i, j);
  }

  // ---------------------------------------------------------------------------------------------
  // Batches
  // ---------------------------------------------------------------------------------------------

  function Size(file: EvidenceFile): nat {
    if file.content.Some? then |file.content.value| else 0
  }

  function TotalSize(files: seq<EvidenceFile>): nat {
    if files == [] then 0 else TotalSize(files[..|files| - 1]) + Size(files[|files| - 1])
  }

  /** What a file holds, and what files hold one behind the other. */
  function ContentOf(file: EvidenceFile): Bytes {
    if file.content.Some? then file.content.value else []
  }

  function Contents(files: seq<EvidenceFile>): Bytes {
    if files == [] then [] else Contents(files[..|files| - 1]) + ContentOf(files[|files| - 1])
  }

  lemma {:induction false} TotalSizeIsLength(files: seq<EvidenceFile>)
    ensures TotalSize(files) == |Contents(files)|
    decreases |files|
  {
    if files != [] {
      TotalSizeIsLength(files[..|files| - 1]);
    }
  }

  datatype Answer = Lost | Receipt(written: seq<string>, skipped: seq<string>)

  /** Nothing was skipped, and the files written are those that were sent. */
  ghost predicate Stored(files: seq<EvidenceFile>, answer: Answer) {
    && answer.Receipt? && answer.skipped == []
    && forall path :: path in answer.written <==> exists f :: f in files && f.path == path
  }

  /** The other end, which may answer anything. */
  class Server {
    const answer: (nat, seq<EvidenceFile>) -> Answer
    var sent: seq<seq<EvidenceFile>>

    constructor (answer: (nat, seq<EvidenceFile>) -> Answer)
      ensures this.answer == answer && sent == []
    {
      this.answer, sent := answer, [];
    }

    method SubmitEvidence(files: seq<EvidenceFile>) returns (a: Answer)
      modifies this`sent
      ensures sent == old(sent) + [files] && a == answer(|old(sent)|, files)
    {
      a := answer(|sent|, files);
      sent := sent + [files];
    }
  }

  /** `ensure_complete_receipt`. */
  method EnsureCompleteReceipt(files: seq<EvidenceFile>, answer: Answer) returns (ok: bool)
    ensures ok <==> Stored(files, answer)
  {
    if answer.Lost? {
      return false;
    }
    var expected := set f | f in files :: f.path;
    var written := set path | path in answer.written;
    assert forall path :: path in expected <==> exists f :: f in files && f.path == path;
    assert forall path :: path in written <==> path in answer.written;
    assert written == expected <==> forall path :: path in written <==> path in expected;
    ok := answer.skipped == [] && written == expected;
  }

  /** Batch `k` was answered with a full receipt. */
  ghost predicate Accepted(server: Server, first: nat, batches: seq<seq<EvidenceFile>>, k: nat)
    requires k < |batches|
  {
    Stored(batches[k], server.answer(first + k, batches[k]))
  }

  ghost predicate AllAccepted(server: Server, first: nat, batches: seq<seq<EvidenceFile>>) {
    forall k :: 0 <= k < |batches| ==> Accepted(server, first, batches, k)
  }

  /** At most 100 files, which together hold at most 524288 bytes. */
  predicate WithinLimits(batch: seq<EvidenceFile>) {
    batch != [] && |batch| <= 100 && |Contents(batch)| <= 524288
  }

  /** The next file did not fit. */
  predicate NoRoom(batch: seq<EvidenceFile>, file: EvidenceFile) {
    |batch| >= 100 || |Contents(batch) + ContentOf(file)| > 524288
  }

  /** Each batch is within the limits, and none could have taken the file after its last. */
  ghost predicate Batched(batches: seq<seq<EvidenceFile>>) {
    && (forall k :: 0 <= k < |batches| ==> WithinLimits(batches[k]))
    && forall k :: 0 < k < |batches| ==> batches[k] != [] && NoRoom(batches[k - 1], batches[k][0])
  }

  ghost predicate Oversized(files: seq<EvidenceFile>) {
    exists f :: f in files && |ContentOf(f)| > 524288
  }

  lemma TotalSizeMore(batch: seq<EvidenceFile>, file: EvidenceFile)
    ensures TotalSize(batch + [file]) == TotalSize(batch) + Size(file)
    ensures Contents(batch + [file]) == Contents(batch) + ContentOf(file)
  {
    assert (batch + [file])[..|batch|] == batch;
  }

  /** The batch being filled can follow those that were sent. */
  ghost predicate Follows(batches: seq<seq<EvidenceFile>>, batch: seq<EvidenceFile>) {
    Batched(batches) && (batch != [] ==> Batched(batches + [batch]))
  }

  lemma FollowsMore(batches: seq<seq<EvidenceFile>>, batch: seq<EvidenceFile>, file: EvidenceFile)
    requires Follows(batches, batch) && Size(file) <= MAX_BATCH_BYTES
    requires batch != [] ==> !NoRoom(batch, file)
    requires batch == [] ==> batches == [] || NoRoom(batches[|batches| - 1], file)
    ensures Follows(batches, batch + [file])
  {
    TotalSizeMore(batch, file);
    hide Contents;
    assert Contents([]) == [] by {
      NoSize();
    }
    var before, after := batches + [batch], batches + [batch + [file]];
    forall k | 0 <= k < |after|
      ensures WithinLimits(after[k])
    {
      assert batch != [] ==> WithinLimits(before[k]);
      assert k < |batches| ==> WithinLimits(batches[k]);
    }
    forall k | 0 < k < |after|
      ensures after[k] != [] && NoRoom(after[k - 1], after[k][0])
    {
      assert batch != [] ==> NoRoom(before[k - 1], before[k][0]);
      assert k < |batches| ==> NoRoom(batches[k - 1], batches[k][0]);
    }
  }

  lemma NoSize()
    ensures TotalSize([]) == 0 && Contents([]) == []
  {
  }

  lemma AcceptedMore(server: Server, first: nat, batches: seq<seq<EvidenceFile>>, batch: seq<EvidenceFile>)
    requires AllAccepted(server, first, batches) && Stored(batch, server.answer(first + |batches|, batch))
    ensures AllAccepted(server, first, batches + [batch])
  {
    hide Stored;
    forall k | 0 <= k < |batches + [batch]|
      ensures Accepted(server, first, batches + [batch], k)
    {
      assert k < |batches| ==> Accepted(server, first, batches, k);
    }
  }

  /**
   `cyber_publish_discovery`. Main result: the batches within the limits hold the files in order; the report is sent
   after all files, each batch having got a full receipt, and never else; and the call succeeds if and only if the
   report was sent and stored.
   */
  method PublishDiscovery(server: Server, surfaces: seq<EvidenceFile>, report: EvidenceFile)
    returns (ok: bool, ghost batches: seq<seq<EvidenceFile>>, ghost reported: bool)
    modifies server`sent
    ensures server.sent == old(server.sent) + batches + if reported then [[report]] else []
    ensures Batched(batches) && Flat(batches) <= surfaces
    ensures reported ==> Flat(batches) == surfaces && AllAccepted(server, |old(server.sent)|, batches)
    ensures !reported ==> Oversized(surfaces) || (batches != [] && !Accepted(server, |old(server.sent)|, batches, |batches| - 1))
    ensures ok <==> reported && Stored([report], server.answer(|old(server.sent)| + |batches|, [report]))
  {
    hide Batched, AllAccepted, Accepted, Stored, NoRoom, Follows, TotalSize, Contents, Flat;
    var batch: seq<EvidenceFile> := [];
    var batchBytes := 0;
    ghost var start := server.sent;
    batches, reported := [], false;
    StartsEmpty(server, |start|);
    assert start + [] == start;
    for i := 0 to |surfaces|
      invariant server.sent == start + batches && AllAccepted(server, |start|, batches)
      invariant Follows(batches, batch) && batchBytes == TotalSize(batch) && (batches != [] ==> batch != [])
      invariant Flat(batches) + batch == surfaces[..i]
    {
      var file := surfaces[i];
      assert surfaces[..i + 1] == surfaces[..i] + [file];
      var fileBytes := Size(file);
      if fileBytes > MAX_BATCH_BYTES {
        assert file in surfaces;
        FollowsIsBatched(batches, batch);
        return false, batches, false;
      }
      RoomIs(batch, file);
      if batch != [] && (|batch| >= MAX_BATCH_FILES || batchBytes + fileBytes > MAX_BATCH_BYTES) {
        SentBatch(batches, batch);
        FollowsIsBatched(batches, batch);
        var stored := SubmitSurfaceBatch(server, start, batches, batch);
        batches := batches + [batch];
        if !stored {
          assert surfaces[..i] <= surfaces;
          return false, batches, false;
        }
        batch := [];
        batchBytes := 0;
        NoSize();
      }
      FollowsMore(batches, batch, file);
      TotalSizeMore(batch, file);
      batchBytes := batchBytes + fileBytes;
      batch := batch + [file];
    }
    assert surfaces[..|surfaces|] == surfaces;
    FollowsIsBatched(batches, batch);
    if batch != [] {
      var stored := SubmitSurfaceBatch(server, start, batches, batch);
      batches := batches + [batch];
      if !stored {
        return false, batches, false;
      }
    }
    reported := true;
    var answer := server.SubmitEvidence([report]);
    ok := EnsureCompleteReceipt([report], answer);
  }

  method SubmitSurfaceBatch(server: Server, ghost start: seq<seq<EvidenceFile>>, ghost batches: seq<seq<EvidenceFile>>, batch: seq<EvidenceFile>)
    returns (stored: bool)
    requires server.sent == start + batches && AllAccepted(server, |start|, batches)
    modifies server`sent
    ensures server.sent == start + (batches + [batch]) && Flat(batches + [batch]) == Flat(batches) + batch
    ensures stored <==> Accepted(server, |start|, batches + [batch], |batches|)
    ensures stored ==> AllAccepted(server, |start|, batches + [batch])
  {
    hide Stored, AllAccepted, Flat;
    FlatAppend(batches, batch);
    assert (batches + [batch])[|batches|] == batch;
    assert start + (batches + [batch]) == (start + batches) + [batch];
    var answer := server.SubmitEvidence(batch);
    stored := EnsureCompleteReceipt(batch, answer);
    if stored {
      AcceptedMore(server, |start|, batches, batch);
    }
  }

  lemma StartsEmpty(server: Server, first: nat)
    ensures AllAccepted(server, first, []) && Follows([], []) && TotalSize([]) == 0 && Flat<EvidenceFile>([]) == []
  {
  }

  lemma FollowsIsBatched(batches: seq<seq<EvidenceFile>>, batch: seq<EvidenceFile>)
    requires Follows(batches, batch)
    ensures Batched(batches) && (batch != [] ==> Batched(batches + [batch]))
  {
  }

  lemma SentBatch(batches: seq<seq<EvidenceFile>>, batch: seq<EvidenceFile>)
    requires Follows(batches, batch) && batch != []
    ensures Follows(batches + [batch], [])
  {
    hide Batched;
  }

  lemma RoomIs(batch: seq<EvidenceFile>, file: EvidenceFile)
    ensures NoRoom(batch, file) <==> |batch| >= MAX_BATCH_FILES || TotalSize(batch) + Size(file) > MAX_BATCH_BYTES
  {
    TotalSizeIsLength(batch);
  }
}
