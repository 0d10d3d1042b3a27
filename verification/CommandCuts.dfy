/**
 Where `splitCommand` cuts. The command is read as a row of items: quotations, escapes, comments, parentheses, heredoc
 tags, line ends with their heredocs, operators and plain characters, each told by its own form in the source. The items
 fall into groups at the operators and behind the line ends, and the segments are these groups.
 */
module CommandCuts {
  import opened Strings
  import opened Wrappers
  import opened Seqs
  import opened CommandBlock

  // ---------------------------------------------------------------------------------------------
  // Items
  // ---------------------------------------------------------------------------------------------

  datatype Kind =
    | Quotation
    | Escaped
    | Comment
    | Paren
    | HereString
    | Tagged(delimiter: string, strip: bool)
    | EndOfLine
    | Semicolons
    | Operator
    | Plain

  /** The item takes the source from `from` up to `to`. */
  datatype Item = Item(kind: Kind, from: nat, to: nat)

  /** A heredoc that waits for its lines: its delimiter, and whether tabs in front of it do not count. */
  type Mark = (string, bool)

  predicate StartsWith(source: string, i: nat, word: string) {
    i + |word| <= |source| && source[i..i + |word|] == word
  }

  predicate QuoteMark(c: char) {
    c == '\'' || c == '"' || c == '`'
  }

  /** Behind the closing quote; a backslash takes the next character with it, but not between single quotes. */
  function QuotationEnd(source: string, i: nat, quote: char): (r: nat)
    requires i <= |source|
    ensures i <= r <= |source|
    decreases |source| - i
  {
    if i == |source| then i
    else if source[i] == '\\' && quote != '\'' && i + 1 < |source| then QuotationEnd(source, i + 2, quote)
    else if source[i] == quote then i + 1
    else QuotationEnd(source, i + 1, quote)
  }

  /** A number sign that begins a word. */
  predicate BeginsComment(source: string, i: nat)
    requires i < |source|
  {
    source[i] == '#' && (i == 0 || IsSpace(source[i - 1]))
  }

  /** Behind the lines of the heredocs that wait, which begin at `next`. */
  function LinesEnd(source: string, waiting: seq<Mark>, next: nat): (r: nat)
    ensures next <= r
    decreases |waiting|
  {
    if waiting == [] then next
    else LinesEnd(source, waiting[1..], ReadLines(source, next, waiting[0].0, waiting[0].1).next)
  }

  predicate BeginsTag(source: string, i: nat) {
    StartsWith(source, i, "<<") && !StartsWith(source, i, "<<<") && ReadHeredocTag(source, i).Some?
  }

  /** An item of the source, outside of parentheses if `depth` is 0. */
  predicate IsItem(source: string, depth: nat, waiting: seq<Mark>, it: Item) {
    it.from < it.to <= |source| &&
    var c, text := source[it.from], source[it.from..it.to];
    match it.kind
    case Quotation => QuoteMark(c) && it.to == QuotationEnd(source, it.from + 1, c)
    case Escaped => c == '\\' && |text| == 2
    case Comment => BeginsComment(source, it.from) && '\n' !in text && (it.to < |source| ==> source[it.to] == '\n')
    case Paren => text == "(" || text == ")"
    case HereString => depth == 0 && text == "<<<"
    case Tagged(delimiter, strip) =>
      && depth == 0 && BeginsTag(source, it.from)
      && var tag := ReadHeredocTag(source, it.from).value;
      tag.delimiter == delimiter && tag.strip == strip && it.to == if tag.end <= |source| then tag.end else |source|
    case EndOfLine =>
      && depth == 0 && c == '\n'
      && var end := LinesEnd(source, waiting, it.from + 1);
      it.to == if end <= |source| then end else |source|
    case Semicolons => depth == 0 && text == ";;"
    case Operator =>
      && depth == 0
      && (text == "&&" || text == "||" || text == "|&" || text == ";" || text == "|")
      && (text == ";" ==> !StartsWith(source, it.from, ";;"))
      && (text == "|" ==> !StartsWith(source, it.from, "||") && !StartsWith(source, it.from, "|&"))
    case Plain =>
      && |text| == 1 && !QuoteMark(c) && (c == '\\' ==> it.to == |source|) && !BeginsComment(source, it.from)
      && c != '(' && c != ')'
      && (depth == 0 ==>
            && c != '\n' && c != ';' && c != '|' && !StartsWith(source, it.from, "&&")
            && !StartsWith(source, it.from, "<<<") && !BeginsTag(source, it.from))
  }

  function DepthBehind(source: string, depth: nat, it: Item): nat {
    if it.kind.Paren? && StartsWith(source, it.from, "(") then depth + 1
    else if it.kind.Paren? && depth > 0 then depth - 1
    else depth
  }

  function WaitingBehind(waiting: seq<Mark>, it: Item): seq<Mark> {
    match it.kind
    case Tagged(delimiter, strip) => waiting + [(delimiter, strip)]
    case EndOfLine => []
    case _ => waiting
  }

  /** The source from `from` on, read as items. */
  predicate Lexes(source: string, items: seq<Item>, from: nat, depth: nat, waiting: seq<Mark>)
    decreases |items|
  {
    if items == [] then from == |source|
    else
      && items[0].from == from && IsItem(source, depth, waiting, items[0])
      && Lexes(source, items[1..], items[0].to, DepthBehind(source, depth, items[0]), WaitingBehind(waiting, items[0]))
  }

  // ---------------------------------------------------------------------------------------------
  // Groups
  // ---------------------------------------------------------------------------------------------

  function ItemText(source: string, it: Item): string {
    Slice(source, it.from, it.to)
  }

  predicate IsWhite(source: string, it: Item) {
    it.kind.Plain? && it.from < |source| && IsSpace(source[it.from])
  }

  predicate IsBlank(source: string, it: Item) {
    it.kind.Plain? && (StartsWith(source, it.from, " ") || StartsWith(source, it.from, "\t"))
  }

  predicate Leads(group: seq<Item>) {
    group != [] && group[0].kind.Operator?
  }

  /** Nothing has come yet: behind an operator only white space and line ends, and otherwise only blanks. */
  predicate Opening(source: string, group: seq<Item>) {
    if Leads(group) then forall k :: 0 < k < |group| ==> group[k].kind.EndOfLine? || IsWhite(source, group[k])
    else forall k :: 0 <= k < |group| ==> IsBlank(source, group[k])
  }

  /** A new group begins at every operator, and behind every line end unless nothing has come before it. */
  function Groups(source: string, items: seq<Item>): (groups: seq<seq<Item>>)
    ensures groups != []
  {
    if items == [] then [[]]
    else
      var groups, it := Groups(source, items[..|items| - 1]), items[|items| - 1];
      var n := |groups| - 1;
      if it.kind.Operator? then groups + [[it]]
      else if it.kind.EndOfLine? && !Opening(source, groups[n]) then groups[..n] + [groups[n] + [it], []]
      else groups[..n] + [groups[n] + [it]]
  }

  /** An operator is followed by a space, a line end counts as a space, and blanks are skipped until something comes. */
  function GroupText(source: string, group: seq<Item>): string {
    if group == [] then ""
    else
      var before, it := group[..|group| - 1], group[|group| - 1];
      if it.kind.Operator? then ItemText(source, it) + " "
      else if it.kind.EndOfLine? then GroupText(source, before) + " "
      else if IsBlank(source, it) && Opening(source, before) then GroupText(source, before)
      else GroupText(source, before) + ItemText(source, it)
  }

  /** Blanks at the end are cut off, and what is blank is left out. */
  function Closed(text: string): seq<string> {
    var t := TrimBlanks(text);
    if Blank(t) then [] else [t]
  }

  function SegmentTexts(source: string, groups: seq<seq<Item>>): seq<string> {
    if groups == [] then []
    else SegmentTexts(source, groups[..|groups| - 1]) + Closed(GroupText(source, groups[|groups| - 1]))
  }

  function TextList(segments: seq<Segment>): seq<string> {
    seq(|segments|, i requires 0 <= i < |segments| => segments[i].text)
  }

  // ---------------------------------------------------------------------------------------------
  // The groups are cut where they should be, and nowhere else
  // ---------------------------------------------------------------------------------------------

  /** The group ends with a line end that comes after something. */
  predicate EndsAtLine(source: string, group: seq<Item>) {
    group != [] && group[|group| - 1].kind.EndOfLine? && !Opening(source, group[..|group| - 1])
  }

  /** Operators only lead, and only a line end before which nothing has come is inside. */
  predicate Whole(source: string, group: seq<Item>) {
    && (forall k :: 0 < k < |group| ==> !group[k].kind.Operator?)
    && (forall k :: 0 <= k < |group| - 1 && group[k].kind.EndOfLine? ==> Opening(source, group[..k]))
  }

  ghost predicate WellCut(source: string, groups: seq<seq<Item>>) {
    && (forall g :: 0 <= g < |groups| ==> Whole(source, groups[g]))
    && (forall g :: 0 < g < |groups| ==> Leads(groups[g]) || EndsAtLine(source, groups[g - 1]))
  }

  /**
   Main result about the cuts. The groups are the items in order; an operator is always the first of its group; a line end
   is the last of its group unless nothing has come before it; and a group begins nowhere else.
   */
  lemma {:induction false} GroupsAreCut(source: string, items: seq<Item>)
    ensures Flat(Groups(source, items)) == items && WellCut(source, Groups(source, items))
    ensures !EndsAtLine(source, Groups(source, items)[|Groups(source, items)| - 1])
  {
    hide *;
    if items == [] {
      NoGroups(source);
    } else {
      var m := |items| - 1;
      var groups := Groups(source, items[..m]);
      GroupsAreCut(source, items[..m]);
      GroupsNext(source, items);
      Grown(source, groups, items[m]);
      assert items == items[..m] + [items[m]];
    }
  }

  /** What the next item makes of the groups so far. */
  function Regrouped(source: string, groups: seq<seq<Item>>, it: Item): seq<seq<Item>>
    requires groups != []
  {
    var n := |groups| - 1;
    if it.kind.Operator? then groups + [[it]]
    else if it.kind.EndOfLine? && !Opening(source, groups[n]) then groups[..n] + [groups[n] + [it]] + [[]]
    else groups[..n] + [groups[n] + [it]]
  }

  lemma GroupsNext(source: string, items: seq<Item>)
    requires items != []
    ensures Groups(source, items) == Regrouped(source, Groups(source, items[..|items| - 1]), items[|items| - 1])
  {
    hide Opening;
    var groups, it := Groups(source, items[..|items| - 1]), items[|items| - 1];
    var n := |groups| - 1;
    assert groups[..n] + [groups[n] + [it], []] == groups[..n] + [groups[n] + [it]] + [[]];
  }

  lemma NoGroups(source: string)
    ensures Flat(Groups(source, [])) == [] && WellCut(source, Groups(source, []))
    ensures !EndsAtLine(source, Groups(source, [])[|Groups(source, [])| - 1])
  {
    FlatAppend<Item>([], []);
    assert Groups(source, []) == [] + [[]];
  }

  lemma Grown(source: string, groups: seq<seq<Item>>, it: Item)
    requires groups != [] && WellCut(source, groups) && !EndsAtLine(source, groups[|groups| - 1])
    ensures var r := Regrouped(source, groups, it);
      r != [] && Flat(r) == Flat(groups) + [it] && WellCut(source, r) && !EndsAtLine(source, r[|r| - 1])
  {
    hide Opening, Flat, EndsAtLine, Whole, Leads;
    var n := |groups| - 1;
    var first, last := groups[..n], groups[n];
    assert groups == first + [last];
    FlatAppend(first, last);
    if it.kind.Operator? {
      FlatAppend(groups, [it]);
      OneOperator(source, it);
    } else {
      var more := first + [last + [it]];
      FlatAppend(first, last + [it]);
      assert Flat(first) + (last + [it]) == Flat(first) + last + [it];
      OneMore(source, last, it);
      assert WellCut(source, more);
      if it.kind.EndOfLine? && !Opening(source, last) {
        FlatAppend(more, []);
        NoItems(source);
      }
    }
  }

  lemma OneOperator(source: string, it: Item)
    requires it.kind.Operator?
    ensures Whole(source, [it]) && Leads([it]) && !EndsAtLine(source, [it])
  {
  }

  lemma NoItems(source: string)
    ensures Whole(source, []) && !EndsAtLine(source, [])
  {
  }

  lemma OneMore(source: string, group: seq<Item>, it: Item)
    requires Whole(source, group) && !EndsAtLine(source, group) && !it.kind.Operator?
    ensures Whole(source, group + [it]) && (Leads(group) ==> Leads(group + [it]))
    ensures EndsAtLine(source, group + [it]) <==> it.kind.EndOfLine? && !Opening(source, group)
  {
    hide Opening;
    var more := group + [it];
    assert more[..|group|] == group;
    forall k | 0 <= k < |more| - 1 && more[k].kind.EndOfLine?
      ensures Opening(source, more[..k])
    {
      assert more[..k] == group[..k];
    }
  }

  // ---------------------------------------------------------------------------------------------
  // When nothing has come yet, told by the text
  // ---------------------------------------------------------------------------------------------

  lemma {:induction false} TrimStartIs(text: string, k: nat)
    requires k < |text| && Blank(text[..k]) && !IsSpace(text[k])
    ensures TrimStart(text) == text[k..]
    decreases k
  {
    if k > 0 {
      assert IsSpace(text[..k][0]) && text[1..][..k - 1] == text[..k][1..];
      TrimStartIs(text[1..], k - 1);
    }
  }

  lemma {:induction false} TrimEndKeeps(text: string, k: nat)
    requires k < |text| && !IsSpace(text[k])
    ensures k < |TrimEnd(text)|
    decreases |text|
  {
    if k < |text| - 1 {
      TrimEndKeeps(text[..|text| - 1], k);
    }
  }

  lemma {:induction false} TrimEndOfBlank(text: string, blank: string)
    requires Blank(blank) && text != "" && !IsSpace(text[|text| - 1])
    ensures TrimEnd(text + blank) == text
    decreases |blank|
  {
    if blank == "" {
      assert text + blank == text;
    } else {
      var n := |blank| - 1;
      assert (text + blank)[..|text + blank| - 1] == text + blank[..n];
      TrimEndOfBlank(text, blank[..n]);
    }
  }

  predicate IsOperator(op: string) {
    op == "&&" || op == "||" || op == "|&" || op == ";" || op == "|"
  }

  /** The text of a group in which nothing has come yet. */
  predicate Fresh(op: string, text: string) {
    if op == "" then text == "" else StartsWith(text, 0, op + " ") && Blank(text[|op|..])
  }

  /** At `k` begins what no operator begins with, given the character behind the text. */
  predicate Solid(text: string, k: nat, next: Option<char>)
    requires k < |text|
  {
    var second := if k + 1 < |text| then Some(text[k + 1]) else next;
    match text[k]
    case '&' => second != Some('&')
    case ';' => k + 1 < |text| && second == Some(';')
    case '|' => false
    case _ => !IsSpace(text[k])
  }

  ghost predicate SolidSomewhere(text: string, next: Option<char>) {
    exists k :: 0 <= k < |text| && Blank(text[..k]) && Solid(text, k, next)
  }

  /** The text of a group in which something has come. */
  ghost predicate Going(op: string, text: string, next: Option<char>) {
    if op == "" then text != "" && (Blank(text) || SolidSomewhere(text, next))
    else StartsWith(text, 0, op + " ") && !Blank(text[|op|..])
  }

  lemma FreshIsStart(op: string, text: string)
    requires Fresh(op, text) && (op == "" || IsOperator(op))
    ensures AtStart(text)
  {
    if op != "" {
      assert text == op + text[|op|..] && !IsSpace(op[0]) && !IsSpace(op[|op| - 1]);
      assert text[..0] == "" && text[0] == op[0];
      TrimStartIs(text, 0);
      TrimEndOfBlank(op, text[|op|..]);
    }
  }

  lemma SolidIsNotStart(text: string, k: nat, next: Option<char>)
    requires k < |text| && Blank(text[..k]) && Solid(text, k, next)
    ensures !AtStart(text)
  {
    TrimStartIs(text, k);
    var rest := text[k..];
    TrimEndKeeps(rest, 0);
    var r := TrimEnd(rest);
    assert r[0] == text[k] && (|r| > 1 ==> r[1] == text[k + 1]);
    if text[k] == ';' {
      TrimEndKeeps(rest, 1);
    }
  }

  lemma GoingIsNotStart(op: string, text: string, next: Option<char>)
    requires Going(op, text, next) && (op == "" || IsOperator(op))
    ensures !AtStart(text)
  {
    if op == "" {
      if Blank(text) {
        assert Trim(text) == "";
      } else {
        var k :| 0 <= k < |text| && Blank(text[..k]) && Solid(text, k, next);
        SolidIsNotStart(text, k, next);
      }
    } else {
      var k :| |op| <= k < |text| && !IsSpace(text[k]);
      assert text[0] == op[0] && text[|op|] == ' ' && text[..0] == "";
      TrimStartIs(text, 0);
      assert text[0..] == text;
      TrimEndKeeps(text, k);
    }
  }

  // ---------------------------------------------------------------------------------------------
  // The text of a group, item by item
  // ---------------------------------------------------------------------------------------------

  function OperatorOf(source: string, group: seq<Item>): string {
    if Leads(group) then ItemText(source, group[0]) else ""
  }

  function CharBehind(source: string, i: nat): Option<char> {
    if i < |source| then Some(source[i]) else None
  }

  /** The scanner's text is the text of the group, and tells whether anything has come in it. */
  ghost predicate Tracks(source: string, group: seq<Item>, text: string, from: nat, depth: nat) {
    var op := OperatorOf(source, group);
    && (Leads(group) ==> IsOperator(op)) && text == GroupText(source, group)
    && if Opening(source, group) then depth == 0 && Fresh(op, text)
       else Going(op, text, CharBehind(source, from)) && (op == "" && Blank(text) ==> depth == 0)
  }

  lemma TracksStart(source: string, group: seq<Item>, text: string, from: nat, depth: nat)
    requires Tracks(source, group, text, from, depth)
    ensures AtStart(text) <==> Opening(source, group)
  {
    hide Opening, Fresh, Going, AtStart, IsOperator, GroupText;
    if Opening(source, group) {
      FreshIsStart(OperatorOf(source, group), text);
    } else {
      GoingIsNotStart(OperatorOf(source, group), text, CharBehind(source, from));
    }
  }

  /** The text when the item stays in the group. */
  function TextBehind(source: string, text: string, it: Item): string {
    if it.kind.EndOfLine? then text + " "
    else if IsBlank(source, it) && AtStart(text) then text
    else text + ItemText(source, it)
  }

  lemma GroupGrows(source: string, group: seq<Item>, it: Item)
    requires !it.kind.Operator?
    ensures OperatorOf(source, group + [it]) == OperatorOf(source, group)
    ensures Opening(source, group + [it]) <==>
      Opening(source, group) && if Leads(group) then it.kind.EndOfLine? || IsWhite(source, it) else IsBlank(source, it)
    ensures GroupText(source, group + [it]) ==
      if it.kind.EndOfLine? then GroupText(source, group) + " "
      else if IsBlank(source, it) && Opening(source, group) then GroupText(source, group)
      else GroupText(source, group) + ItemText(source, it)
  {
    var more := group + [it];
    assert more[..|group|] == group && more[|group|] == it;
    hide IsBlank, IsWhite, GroupText;
    GroupTextNext(source, group, it);
    assert forall k :: 0 <= k < |group| ==> more[k] == group[k];
  }

  lemma GroupTextNext(source: string, group: seq<Item>, it: Item)
    requires !it.kind.Operator?
    ensures GroupText(source, group + [it]) ==
      if it.kind.EndOfLine? then GroupText(source, group) + " "
      else if IsBlank(source, it) && Opening(source, group) then GroupText(source, group)
      else GroupText(source, group) + ItemText(source, it)
  {
    hide IsBlank, Opening;
    assert (group + [it])[..|group|] == group;
  }

  /** White space makes an item of its own outside of quotes, and then stands alone. */
  lemma ItemTextIs(source: string, depth: nat, waiting: seq<Mark>, it: Item)
    requires IsItem(source, depth, waiting, it)
    ensures ItemText(source, it) == source[it.from..it.to] && ItemText(source, it) != "" && ItemText(source, it)[0] == source[it.from]
    ensures IsSpace(source[it.from]) && !it.kind.EndOfLine? ==> it.kind.Plain? && ItemText(source, it) == [source[it.from]]
    ensures IsWhite(source, it) ==> IsSpace(source[it.from])
    ensures IsBlank(source, it) <==> it.kind.Plain? && (source[it.from] == ' ' || source[it.from] == '\t')
  {
  }

  lemma PairStarts(source: string, i: nat, a: char, b: char)
    ensures StartsWith(source, i, [a, b]) <==> CharAt(source, i, a) && CharAt(source, i + 1, b)
  {
    if i + 2 <= |source| {
      assert source[i..i + 2] == [source[i], source[i + 1]];
    }
  }

  lemma ItemIsSolid(source: string, waiting: seq<Mark>, it: Item)
    requires IsItem(source, 0, waiting, it) && !it.kind.Operator? && !it.kind.EndOfLine? && !IsSpace(source[it.from])
    ensures var text := ItemText(source, it); text != "" && Solid(text, 0, CharBehind(source, it.to))
  {
    PairStarts(source, it.from, '&', '&');
  }

  lemma FirstText(source: string, waiting: seq<Mark>, it: Item)
    requires IsItem(source, 0, waiting, it) && !it.kind.Operator? && !it.kind.EndOfLine?
    ensures Going("", ItemText(source, it), CharBehind(source, it.to))
  {
    var text := ItemText(source, it);
    ItemTextIs(source, 0, waiting, it);
    if !IsSpace(source[it.from]) {
      ItemIsSolid(source, waiting, it);
      assert text[..0] == "" && Blank(text[..0]);
    }
  }

  /** Behind text in which something has come, whatever follows. */
  lemma GoesOn(op: string, text: string, more: string, next: Option<char>)
    requires op != "" && Going(op, text, if more == "" then next else Some(more[0]))
    ensures Going(op, text + more, next)
  {
    var k :| |op| <= k < |text| && !IsSpace(text[k]);
    assert (text + more)[k] == text[k];
    assert (text + more)[..|op| + 1] == text[..|op| + 1];
  }

  lemma SolidGoesOn(text: string, more: string, next: Option<char>)
    requires more != "" && SolidSomewhere(text, Some(more[0]))
    ensures SolidSomewhere(text + more, next)
  {
    var k :| 0 <= k < |text| && Blank(text[..k]) && Solid(text, k, Some(more[0]));
    assert (text + more)[..k] == text[..k] && Solid(text + more, k, next);
  }

  lemma BlankGoesOn(text: string, more: string, next: Option<char>)
    requires Blank(text) && more != "" && (Blank(more) || Solid(more, 0, next))
    ensures Going("", text + more, next)
  {
    var all := text + more;
    if !Blank(more) {
      assert all[..|text|] == text && all[|text|] == more[0] && (|more| > 1 ==> all[|text| + 1] == more[1]);
      assert Solid(all, |text|, next);
    }
  }

  lemma FreshGoesOn(op: string, text: string, more: string)
    requires op != "" && Fresh(op, text) && Blank(more)
    ensures Fresh(op, text + more)
  {
    assert (text + more)[|op|..] == text[|op|..] + more;
    assert (text + more)[..|op| + 1] == text[..|op| + 1];
  }

  lemma FreshBegins(op: string, text: string, more: string, next: Option<char>)
    requires op != "" && Fresh(op, text) && more != "" && !IsSpace(more[0])
    ensures Going(op, text + more, next)
  {
    assert (text + more)[..|op| + 1] == text[..|op| + 1];
    assert (text + more)[|op|..][|text| - |op|] == more[0];
  }

  lemma OpeningTracks(source: string, group: seq<Item>, text: string, waiting: seq<Mark>, it: Item)
    requires Tracks(source, group, text, it.from, 0) && Opening(source, group)
    requires IsItem(source, 0, waiting, it) && !it.kind.Operator?
    ensures Tracks(source, group + [it], TextBehind(source, text, it), it.to, DepthBehind(source, 0, it))
  {
    GroupGrows(source, group, it);
    TracksStart(source, group, text, it.from, 0);
    DepthAndBlank(source, waiting, it);
    OpeningText(source, OperatorOf(source, group), text, waiting, it);
    hide Opening, GroupText, AtStart, ItemText, IsItem, IsBlank, IsWhite, Fresh, Going, CharBehind, DepthBehind, IsOperator, Blank;
    assert OperatorOf(source, group) == "" <==> !Leads(group) by {
      OperatorsAreSome(OperatorOf(source, group));
    }
    assert Leads(group) <==> Leads(group + [it]);
  }

  lemma OperatorsAreSome(op: string)
    ensures IsOperator(op) ==> op != ""
  {
  }

  /** The first item of a group, or of what follows its operator. */
  lemma OpeningText(source: string, op: string, text: string, waiting: seq<Mark>, it: Item)
    requires IsItem(source, 0, waiting, it) && !it.kind.Operator? && Fresh(op, text)
    ensures var behind := if it.kind.EndOfLine? then text + " " else if IsBlank(source, it) then text else text + ItemText(source, it);
      if (if op == "" then IsBlank(source, it) else it.kind.EndOfLine? || IsWhite(source, it)) then Fresh(op, behind)
      else Going(op, behind, CharBehind(source, it.to))
  {
    ItemTextIs(source, 0, waiting, it);
    var u, next := ItemText(source, it), CharBehind(source, it.to);
    hide ItemText, IsItem, SolidSomewhere;
    assert "" + u == u;
    if op == "" {
      if !it.kind.EndOfLine? && !IsBlank(source, it) {
        FirstText(source, waiting, it);
      }
    } else if it.kind.EndOfLine? {
      FreshGoesOn(op, text, " ");
    } else if IsSpace(source[it.from]) {
      FreshGoesOn(op, text, u);
    } else {
      FreshBegins(op, text, u, next);
    }
  }

  /** A parenthesis is not blank, and nothing else changes the depth. */
  lemma DepthAndBlank(source: string, waiting: seq<Mark>, it: Item)
    requires IsItem(source, 0, waiting, it)
    ensures it.kind.EndOfLine? || IsBlank(source, it) || IsWhite(source, it) ==> DepthBehind(source, 0, it) == 0
    ensures forall before: string :: Blank(before + ItemText(source, it)) ==> DepthBehind(source, 0, it) == 0
  {
    if it.kind.Paren? {
      forall before: string
        ensures !Blank(before + ItemText(source, it))
      {
        assert (before + ItemText(source, it))[|before|] == source[it.from];
      }
    }
  }

  lemma GoingTracks(source: string, group: seq<Item>, text: string, depth: nat, waiting: seq<Mark>, it: Item)
    requires Tracks(source, group, text, it.from, depth) && !Opening(source, group)
    requires IsItem(source, depth, waiting, it) && !it.kind.Operator? && !it.kind.EndOfLine?
    ensures Tracks(source, group + [it], TextBehind(source, text, it), it.to, DepthBehind(source, depth, it))
  {
    GroupGrows(source, group, it);
    TracksStart(source, group, text, it.from, depth);
    GoingText(source, OperatorOf(source, group), text, depth, waiting, it);
    hide Opening, GroupText, AtStart, ItemText, IsItem, IsBlank, IsWhite, Fresh, Going, CharBehind, DepthBehind, IsOperator, Blank;
    assert Leads(group) <==> Leads(group + [it]) by {
      assert group != [];
    }
  }

  lemma GoingText(source: string, op: string, text: string, depth: nat, waiting: seq<Mark>, it: Item)
    requires IsItem(source, depth, waiting, it) && !it.kind.Operator? && !it.kind.EndOfLine?
    requires Going(op, text, CharBehind(source, it.from)) && (op == "" && Blank(text) ==> depth == 0)
    ensures var behind := text + ItemText(source, it);
      && Going(op, behind, CharBehind(source, it.to))
      && (op == "" && Blank(behind) ==> DepthBehind(source, depth, it) == 0)
  {
    ItemTextIs(source, depth, waiting, it);
    var u, next := ItemText(source, it), CharBehind(source, it.to);
    if op != "" {
      hide ItemText, IsItem, SolidSomewhere;
      GoesOn(op, text, u, next);
    } else if Blank(text) {
      DepthAndBlank(source, waiting, it);
      if !IsSpace(source[it.from]) {
        ItemIsSolid(source, waiting, it);
      }
      hide ItemText, IsItem, SolidSomewhere, Solid, DepthBehind;
      BlankGoesOn(text, u, next);
    } else {
      hide ItemText, IsItem, SolidSomewhere, Solid, DepthBehind;
      SolidGoesOn(text, u, next);
      NotBlankBehind(text, u);
    }
  }

  lemma NotBlankBehind(text: string, more: string)
    requires !Blank(text)
    ensures !Blank(text + more) && text + more != ""
  {
    var k :| 0 <= k < |text| && !IsSpace(text[k]);
    assert (text + more)[k] == text[k];
  }

  // ---------------------------------------------------------------------------------------------
  // The scanner takes the source item by item
  // ---------------------------------------------------------------------------------------------

  function Marks(pending: seq<Heredoc>): seq<Mark> {
    seq(|pending|, i requires 0 <= i < |pending| => (pending[i].delimiter, pending[i].strip))
  }

  /** The scanner stands between two items; behind the last one it may have run over the end. */
  predicate Stands(source: string, s: Scan, from: nat, depth: nat, waiting: seq<Mark>) {
    from <= |source| &&
    if from < |source| then s.i == from && s.quote.None? && s.depth == depth && Marks(s.pending) == waiting
    else |source| <= s.i
  }

  /** A segment that has lines has text. */
  predicate LinesHaveText(s: Scan) {
    s.segment.body != [] || s.segment.end != [] ==> !Blank(s.segment.text)
  }

  /** What a scan has written: the texts of the segments, and of the one being built. */
  datatype Written = Written(texts: seq<string>, text: string)

  function WrittenBy(s: Scan): Written {
    Written(TextList(s.segments), s.segment.text)
  }

  /** What an item does to it. */
  function WrittenBehind(source: string, w: Written, it: Item): Written {
    if it.kind.Operator? then Written(w.texts + Closed(w.text), ItemText(source, it) + " ")
    else if it.kind.EndOfLine? && !AtStart(w.text) then Written(w.texts + Closed(w.text), "")
    else w.(text := TextBehind(source, w.text, it))
  }

  lemma MarksAppend(pending: seq<Heredoc>, h: Heredoc)
    ensures Marks(pending + [h]) == Marks(pending) + [(h.delimiter, h.strip)]
  {
  }

  lemma TypedWrites(s: Scan, text: string, i: nat)
    requires LinesHaveText(s)
    ensures WrittenBy(Typed(s, text, i)) == WrittenBy(s).(text := s.segment.text + text) && LinesHaveText(Typed(s, text, i))
  {
    if !Blank(s.segment.text) {
      NotBlankBehind(s.segment.text, text);
    }
  }

  lemma FlushedWrites(s: Scan, operator: string)
    requires LinesHaveText(s)
    ensures WrittenBy(Flushed(s, operator)) ==
      Written(TextList(s.segments) + Closed(s.segment.text), if operator == "" then "" else operator + " ")
    ensures LinesHaveText(Flushed(s, operator))
  {
    var text := TrimBlanks(s.segment.text);
    NonSpaceBlank(text);
    NonSpaceBlank(s.segment.text);
    hide TrimBlanks, Trim, Blank, NonSpace;
    assert Worth(s.segment.(text := text)) <==> !Blank(text);
    assert Flushed(s, operator).segments == s.segments + if Blank(text) then [] else [s.segment.(text := text)];
  }

  lemma GivenWrites(s: Scan, owner: nat, lines: Lines)
    requires LinesHaveText(s) && (owner < |s.segments| || !Blank(s.segment.text))
    ensures WrittenBy(Given(s, owner, lines)) == WrittenBy(s) && LinesHaveText(Given(s, owner, lines))
    ensures |Given(s, owner, lines).segments| == |s.segments| && Given(s, owner, lines).segment.text == s.segment.text
  {
    hide Blank;
    assert TextList(Given(s, owner, lines).segments) == TextList(s.segments);
  }

  lemma {:induction false} TakeLinesWrites(source: string, s: Scan, pending: seq<Heredoc>, next: nat)
    requires LinesHaveText(s) && forall h :: h in pending ==> h.owner < |s.segments| || !Blank(s.segment.text)
    ensures var (t, end) := TakeLines(source, s, pending, next);
      && WrittenBy(t) == WrittenBy(s) && LinesHaveText(t) && end == LinesEnd(source, Marks(pending), next)
      && t.pending == s.pending && t.quote == s.quote && t.depth == s.depth
    decreases |pending|
  {
    hide Blank, ReadLines, WrittenBy, LinesHaveText, Given;
    if pending != [] {
      var h := pending[0];
      var lines := ReadLines(source, next, h.delimiter, h.strip);
      GivenWrites(s, h.owner, lines);
      GivenSpares(s, h.owner, lines);
      assert Marks(pending)[1..] == Marks(pending[1..]);
      TakeLinesWrites(source, Given(s, h.owner, lines), pending[1..], lines.next);
    }
  }

  lemma GivenSpares(s: Scan, owner: nat, lines: Lines)
    ensures var t := Given(s, owner, lines); t.pending == s.pending && t.quote == s.quote && t.depth == s.depth
  {
  }

  /** The text that opened a waiting heredoc is there. */
  lemma OwnersHaveText(s: Scan)
    requires OwnersOk(s)
    ensures forall h :: h in s.pending ==> h.owner < |s.segments| || !Blank(s.segment.text)
  {
    forall h | h in s.pending && |s.segments| <= h.owner
      ensures !Blank(s.segment.text)
    {
      OpensNotBlank(TextAt(All(s), h.owner), h);
    }
  }

  // ---------------------------------------------------------------------------------------------
  // One item
  // ---------------------------------------------------------------------------------------------

  /** The scanner has taken the item when it stands behind it and has written what the item makes of what was there. */
  ghost predicate Takes(source: string, s: Scan, t: Scan, depth: nat, waiting: seq<Mark>, it: Item) {
    && Run(source, t) == Run(source, s)
    && Stands(source, t, it.to, DepthBehind(source, depth, it), WaitingBehind(waiting, it))
    && WrittenBy(t) == WrittenBehind(source, WrittenBy(s), it) && LinesHaveText(t) && OwnersOk(t)
  }

  ghost predicate Ready(source: string, s: Scan, depth: nat, waiting: seq<Mark>, it: Item) {
    && Stands(source, s, it.from, depth, waiting) && IsItem(source, depth, waiting, it)
    && LinesHaveText(s) && OwnersOk(s)
  }

  lemma TurnOnce(source: string, s: Scan)
    requires s.i < |source| && OwnersOk(s)
    ensures Run(source, Turn(source, s)) == Run(source, s) && OwnersOk(Turn(source, s))
  {
    hide *;
    RunNext(source, s);
    if EndsLine(source, s) {
      NewlineKeeps(source, s);
    } else {
      OtherTurnKeeps(source, s);
    }
  }

  lemma RunNext(source: string, s: Scan)
    requires s.i < |source|
    ensures Run(source, Turn(source, s)) == Run(source, s)
  {
    hide Turn;
  }

  lemma InQuoteTurn(source: string, s: Scan)
    requires s.i < |source| && s.quote.Some?
    ensures var t, q := Turn(source, s), s.quote.value;
      && s.i < t.i <= |source| && QuotationEnd(source, s.i, q) == (if t.quote.Some? then QuotationEnd(source, t.i, q) else t.i)
      && t == Typed(s, source[s.i..t.i], t.i).(quote := t.quote) && (t.quote == s.quote || t.quote.None?)
  {
    assert source[s.i..s.i + 1] == [source[s.i]];
    assert s.i + 1 < |source| ==> source[s.i..s.i + 2] == [source[s.i], source[s.i + 1]];
  }

  lemma QuoteWrites(s: Scan, text: string, i: nat, quote: Option<char>)
    requires LinesHaveText(s)
    ensures var t := Typed(s, text, i).(quote := quote);
      WrittenBy(t) == WrittenBy(s).(text := s.segment.text + text) && LinesHaveText(t)
  {
    hide Blank;
    TypedWrites(s, text, i);
  }

  /** The turns inside of a quotation. */
  lemma {:induction false} QuotationTurns(source: string, s: Scan) returns (t: Scan)
    requires s.i < |source| && s.quote.Some? && LinesHaveText(s) && OwnersOk(s)
    ensures var end := QuotationEnd(source, s.i, s.quote.value);
      && Run(source, t) == Run(source, s) && t.i == end
      && (end < |source| ==> t.quote.None?) && t.depth == s.depth && t.pending == s.pending
      && WrittenBy(t) == WrittenBy(s).(text := s.segment.text + source[s.i..end]) && LinesHaveText(t) && OwnersOk(t)
    decreases |source| - s.i
  {
    hide *;
    t := Turn(source, s);
    TurnOnce(source, s);
    InQuoteTurn(source, s);
    TypedIs(s, source[s.i..t.i], t.i, t.quote);
    QuoteWrites(s, source[s.i..t.i], t.i, t.quote);
    if t.quote.Some? {
      if t.i < |source| {
        var u := t;
        t := QuotationTurns(source, u);
        TextJoins(source, s.segment.text, s.i, u.i, t.i);
      } else {
        QuotationAtEnd(source, s.quote.value);
      }
    }
  }

  lemma TypedIs(s: Scan, text: string, i: nat, quote: Option<char>)
    ensures var t := Typed(s, text, i).(quote := quote);
      t.i == i && t.depth == s.depth && t.pending == s.pending && t.segment.text == s.segment.text + text && t.segments == s.segments
    ensures forall t: Scan, w: string :: WrittenBy(t).(text := w) == Written(WrittenBy(t).texts, w) && WrittenBy(t).text == t.segment.text
  {
  }

  lemma QuotationAtEnd(source: string, quote: char)
    ensures QuotationEnd(source, |source|, quote) == |source|
  {
  }

  lemma TextJoins(source: string, text: string, i: nat, j: nat, k: nat)
    requires i <= j <= k <= |source|
    ensures text + source[i..j] + source[j..k] == text + source[i..k]
  {
    assert source[i..j] + source[j..k] == source[i..k];
  }

  /** An item whose text is typed is taken. */
  lemma TypedIsTaken(source: string, s: Scan, t: Scan, depth: nat, waiting: seq<Mark>, it: Item)
    requires Ready(source, s, depth, waiting, it) && OwnersOk(t) && LinesHaveText(t) && Run(source, t) == Run(source, s)
    requires t.i == it.to && (it.to < |source| ==> t.quote.None?)
    requires t.depth == DepthBehind(source, depth, it) && t.pending == s.pending
    requires WrittenBy(t) == WrittenBy(s).(text := s.segment.text + ItemText(source, it))
    requires !it.kind.Operator? && !it.kind.EndOfLine? && !it.kind.Tagged? && !(IsBlank(source, it) && AtStart(s.segment.text))
    ensures Takes(source, s, t, depth, waiting, it)
  {
    hide Run, OwnersOk, LinesHaveText, DepthBehind, ItemText, IsBlank, AtStart;
  }

  lemma QuotationOpens(source: string, s: Scan, depth: nat, waiting: seq<Mark>, it: Item)
    requires Ready(source, s, depth, waiting, it) && it.kind.Quotation?
    ensures var c := source[s.i];
      && Turn(source, s) == Typed(s, [c], s.i + 1).(quote := Some(c)) && !IsBlank(source, it)
      && it.from == s.i && it.to == QuotationEnd(source, s.i + 1, c) && s.depth == DepthBehind(source, depth, it)
      && ItemText(source, it) == [c] + source[s.i + 1..it.to]
  {
    hide OwnersOk, LinesHaveText, TurnOutside, QuotationEnd;
  }

  lemma QuotationItem(source: string, s: Scan, depth: nat, waiting: seq<Mark>, it: Item) returns (t: Scan)
    requires Ready(source, s, depth, waiting, it) && it.kind.Quotation? && s.i < |source|
    requires LinesHaveText(s) && OwnersOk(s)
    ensures Takes(source, s, t, depth, waiting, it)
  {
    hide *;
    var c := source[s.i];
    QuotationOpens(source, s, depth, waiting, it);
    t := Turn(source, s);
    TypedIs(s, [c], s.i + 1, Some(c));
    TurnOnce(source, s);
    QuoteWrites(s, [c], s.i + 1, Some(c));
    if t.i < |source| {
      t := QuotationTurns(source, t);
    } else {
      QuotationAtEnd(source, c);
    }
    assert s.segment.text + [c] + source[s.i + 1..it.to] == s.segment.text + ([c] + source[s.i + 1..it.to]);
    assert s.segment.text + [c] + "" == s.segment.text + [c];
    TypedIsTaken(source, s, t, depth, waiting, it);
  }

  /** An item that one turn types. */
  lemma TypedItem(source: string, s: Scan, depth: nat, waiting: seq<Mark>, it: Item) returns (t: Scan)
    requires Ready(source, s, depth, waiting, it) && s.i < |source| && LinesHaveText(s) && OwnersOk(s) && s.quote.None?
    requires Turn(source, s) == Typed(s, ItemText(source, it), it.to).(depth := DepthBehind(source, depth, it))
    requires !it.kind.Operator? && !it.kind.EndOfLine? && !it.kind.Tagged? && !(IsBlank(source, it) && AtStart(s.segment.text))
    ensures Takes(source, s, t, depth, waiting, it)
  {
    hide *;
    t := Turn(source, s);
    TurnOnce(source, s);
    DepthWrites(s, ItemText(source, it), it.to, DepthBehind(source, depth, it));
    TypedIsTaken(source, s, t, depth, waiting, it);
  }

  lemma DepthWrites(s: Scan, text: string, i: nat, depth: nat)
    requires LinesHaveText(s)
    ensures var t := Typed(s, text, i).(depth := depth);
      && WrittenBy(t) == WrittenBy(s).(text := s.segment.text + text) && LinesHaveText(t)
      && t.i == i && t.depth == depth && t.pending == s.pending && t.quote == s.quote
  {
    hide Blank;
    TypedWrites(s, text, i);
  }

  // ---------------------------------------------------------------------------------------------
  // What a turn makes of each kind of item
  // ---------------------------------------------------------------------------------------------

  lemma ReadyIs(source: string, s: Scan, depth: nat, waiting: seq<Mark>, it: Item)
    requires Ready(source, s, depth, waiting, it)
    ensures s.i == it.from < |source| && s.quote.None? && s.depth == depth && Marks(s.pending) == waiting
    ensures LinesHaveText(s) && OwnersOk(s) && IsItem(source, depth, waiting, it)
  {
    hide OwnersOk, LinesHaveText;
  }

  lemma CommentEnds(source: string, from: nat, to: nat)
    requires from <= to <= |source| && '\n' !in source[from..to] && (to < |source| ==> source[to] == '\n')
    ensures LineEnd(source, from) == to
  {
    assert forall i :: from <= i < to ==> source[i] == source[from..to][i - from];
  }

  /** Escapes, comments and parentheses. */
  lemma MarkTurn(source: string, s: Scan, depth: nat, waiting: seq<Mark>, it: Item)
    requires Ready(source, s, depth, waiting, it) && (it.kind.Escaped? || it.kind.Comment?)
    ensures Turn(source, s) == Typed(s, ItemText(source, it), it.to).(depth := DepthBehind(source, depth, it))
    ensures !IsBlank(source, it)
  {
    ReadyIs(source, s, depth, waiting, it);
    hide Ready, OwnersOk, LinesHaveText, TurnOutside, TurnInQuote;
    if it.kind.Comment? {
      CommentEnds(source, it.from, it.to);
    } else {
      assert source[it.from..it.to] == [source[it.from], source[it.from + 1]];
    }
  }

  /** Outside of quotations, escapes and comments. */
  lemma OutsideTurn(source: string, s: Scan)
    requires s.i < |source| && s.quote.None? && !QuoteMark(source[s.i]) && !BeginsComment(source, s.i)
    requires source[s.i] == '\\' ==> s.i + 1 == |source|
    ensures Turn(source, s) == TurnOutside(source, Deeper(s, source[s.i]))
  {
    hide TurnOutside, TurnInQuote;
  }

  lemma NoTag(source: string, s: Scan)
    requires s.i < |source| && (s.depth == 0 ==> !StartsWith(source, s.i, "<<<") && !BeginsTag(source, s.i))
    ensures TurnOutside(source, s) == if source[s.i] == '\n' then TurnAtNewline(source, s) else TurnElse(source, s)
  {
    PairStarts(source, s.i, '<', '<');
    TripleStarts(source, s.i);
    hide TurnAtNewline, TurnElse, ReadHeredocTag;
  }

  lemma TripleStarts(source: string, i: nat)
    ensures StartsWith(source, i, "<<<") <==> CharAt(source, i, '<') && CharAt(source, i + 1, '<') && CharAt(source, i + 2, '<')
  {
    if i + 3 <= |source| {
      assert source[i..i + 3] == [source[i], source[i + 1], source[i + 2]];
    }
  }

  lemma PairAt(source: string, i: nat)
    requires i < |source|
    ensures Slice(source, i, i + 2) == if i + 1 < |source| then [source[i], source[i + 1]] else [source[i]]
  {
  }

  lemma OperatorsAre(source: string, i: nat)
    requires i < |source|
    ensures var op := OperatorAt(source, i);
      op == if StartsWith(source, i, "&&") then "&&" else if StartsWith(source, i, "||") then "||"
        else if StartsWith(source, i, "|&") then "|&" else if StartsWith(source, i, ";;") then ";;"
        else if source[i] == ';' then ";" else if source[i] == '|' then "|" else ""
  {
    PairAt(source, i);
    PairStarts(source, i, '&', '&');
    PairStarts(source, i, '|', '|');
    PairStarts(source, i, '|', '&');
    PairStarts(source, i, ';', ';');
  }

  lemma ParenTurn(source: string, s: Scan, depth: nat, waiting: seq<Mark>, it: Item)
    requires Ready(source, s, depth, waiting, it) && it.kind.Paren?
    ensures Turn(source, s) == Typed(s, ItemText(source, it), it.to).(depth := DepthBehind(source, depth, it))
    ensures !IsBlank(source, it)
  {
    ReadyIs(source, s, depth, waiting, it);
    hide Ready, OwnersOk, LinesHaveText;
    var c := source[s.i];
    assert source[it.from..it.to] == [c];
    OutsideTurn(source, s);
    hide Turn;
    FirstChar(source, it.from);
    NoTag(source, Deeper(s, c));
    OperatorsAre(source, s.i);
    hide TurnOutside, OperatorAt, StartsWith;
    ElseShape(source, Deeper(s, c));
    assert Deeper(s, c).depth == DepthBehind(source, depth, it);
  }

  /** What a text starts with begins with its first character. */
  lemma FirstChar(source: string, i: nat)
    requires i < |source|
    ensures StartsWith(source, i, "(") <==> source[i] == '('
    ensures source[i] != '<' ==> !StartsWith(source, i, "<<") && !StartsWith(source, i, "<<<")
    ensures source[i] != '&' ==> !StartsWith(source, i, "&&")
    ensures source[i] != '|' ==> !StartsWith(source, i, "||") && !StartsWith(source, i, "|&")
    ensures source[i] != ';' ==> !StartsWith(source, i, ";;")
  {
    PairStarts(source, i, '<', '<');
    TripleStarts(source, i);
    PairStarts(source, i, '&', '&');
    PairStarts(source, i, '|', '|');
    PairStarts(source, i, '|', '&');
    PairStarts(source, i, ';', ';');
  }

  lemma HereStringTurn(source: string, s: Scan, depth: nat, waiting: seq<Mark>, it: Item)
    requires Ready(source, s, depth, waiting, it) && it.kind.HereString?
    ensures Turn(source, s) == Typed(s, ItemText(source, it), it.to).(depth := DepthBehind(source, depth, it))
    ensures !IsBlank(source, it)
  {
    ReadyIs(source, s, depth, waiting, it);
    hide Ready, OwnersOk, LinesHaveText;
    assert |source[it.from..it.to]| == 3 && source[it.from..it.to][0] == source[it.from];
    TripleStarts(source, it.from);
    OutsideTurn(source, s);
    hide Turn;
    assert Deeper(s, '<') == s;
  }

  /** What an item outside of parentheses is typed as by `TurnElse`. */
  lemma ElseTyped(source: string, s: Scan, depth: nat, waiting: seq<Mark>, it: Item)
    requires Ready(source, s, depth, waiting, it) && (it.kind.Plain? || it.kind.Semicolons?)
    ensures Turn(source, s) == (if source[s.i] == '\n' then TurnAtNewline(source, s) else TurnElse(source, s))
    ensures it.kind.Semicolons? ==> source[s.i] == ';'
    ensures DepthBehind(source, depth, it) == s.depth
  {
    ReadyIs(source, s, depth, waiting, it);
    hide Ready, OwnersOk, LinesHaveText;
    assert source[it.from..it.to][0] == source[it.from];
    FirstChar(source, s.i);
    OutsideTurn(source, s);
    hide Turn, TurnOutside;
    assert Deeper(s, source[s.i]) == s;
    NoTag(source, s);
  }

  lemma PlainTurn(source: string, s: Scan, depth: nat, waiting: seq<Mark>, it: Item)
    requires Ready(source, s, depth, waiting, it) && it.kind.Plain?
    ensures Turn(source, s) == if IsBlank(source, it) && AtStart(s.segment.text) then s.(i := it.to) else Typed(s, ItemText(source, it), it.to)
    ensures DepthBehind(source, depth, it) == depth
  {
    ReadyIs(source, s, depth, waiting, it);
    ElseTyped(source, s, depth, waiting, it);
    ItemTextIs(source, depth, waiting, it);
    OperatorsAre(source, s.i);
    FirstChar(source, s.i);
    hide Ready, OwnersOk, LinesHaveText, Turn, OperatorAt, AtStart, TurnElse;
    assert source[it.from..it.to] == [source[it.from]];
    ElseShape(source, s);
    PlainIsNoOperator(source, depth, waiting, it);
  }

  lemma PlainIsNoOperator(source: string, depth: nat, waiting: seq<Mark>, it: Item)
    requires IsItem(source, depth, waiting, it) && it.kind.Plain?
    ensures depth == 0 ==> OperatorAt(source, it.from) == ""
  {
    OperatorsAre(source, it.from);
    FirstChar(source, it.from);
  }

  lemma SemicolonsTurn(source: string, s: Scan, depth: nat, waiting: seq<Mark>, it: Item)
    requires Ready(source, s, depth, waiting, it) && it.kind.Semicolons?
    ensures Turn(source, s) == Typed(s, ItemText(source, it), it.to).(depth := DepthBehind(source, depth, it))
    ensures !IsBlank(source, it)
  {
    hide *;
    ReadyIs(source, s, depth, waiting, it);
    ElseTyped(source, s, depth, waiting, it);
    SemicolonsAre(source, depth, waiting, it);
    ElseShape(source, s);
    SameDepth(s, ";;", it.to);
  }

  lemma SemicolonsAre(source: string, depth: nat, waiting: seq<Mark>, it: Item)
    requires IsItem(source, depth, waiting, it) && it.kind.Semicolons?
    ensures depth == 0 && OperatorAt(source, it.from) == ";;" == ItemText(source, it) && it.to == it.from + 2 && !IsBlank(source, it)
  {
    assert |source[it.from..it.to]| == 2;
    OperatorsAre(source, it.from);
    PairStarts(source, it.from, ';', ';');
    FirstChar(source, it.from);
    hide OperatorAt;
  }

  lemma OperatorTurn(source: string, s: Scan, depth: nat, waiting: seq<Mark>, it: Item)
    requires Ready(source, s, depth, waiting, it) && it.kind.Operator?
    ensures Turn(source, s) == Flushed(s, ItemText(source, it)).(i := it.to) && IsOperator(ItemText(source, it))
  {
    ReadyIs(source, s, depth, waiting, it);
    var text := source[it.from..it.to];
    hide Ready, OwnersOk, LinesHaveText;
    assert text[0] == source[it.from] && (source[it.from] == '&' || source[it.from] == '|' || source[it.from] == ';');
    FirstChar(source, s.i);
    OutsideTurn(source, s);
    hide Turn, TurnOutside, Flushed;
    assert Deeper(s, source[s.i]) == s;
    NoTag(source, s);
    OperatorIsFound(source, waiting, it);
    hide OperatorAt;
    ElseShape(source, s);
  }

  lemma OperatorIsFound(source: string, waiting: seq<Mark>, it: Item)
    requires IsItem(source, 0, waiting, it) && it.kind.Operator?
    ensures OperatorAt(source, it.from) == source[it.from..it.to]
  {
    OperatorsAre(source, it.from);
    FirstChar(source, it.from);
    var text := source[it.from..it.to];
    assert text[0] == source[it.from];
    assert StartsWith(source, it.from, text);
    PairStarts(source, it.from, '&', '&');
    PairStarts(source, it.from, '|', '|');
    PairStarts(source, it.from, '|', '&');
  }

  lemma OperatorItem(source: string, s: Scan, depth: nat, waiting: seq<Mark>, it: Item) returns (t: Scan)
    requires Ready(source, s, depth, waiting, it) && it.kind.Operator?
    ensures Takes(source, s, t, depth, waiting, it)
  {
    hide *;
    ReadyIs(source, s, depth, waiting, it);
    t := Turn(source, s);
    TurnOnce(source, s);
    OperatorTurn(source, s, depth, waiting, it);
    FlushedWrites(s, ItemText(source, it));
    FlushedAt(s, ItemText(source, it), it.to);
    OperatorIsTaken(source, s, t, depth, waiting, it);
  }

  lemma FlushedAt(s: Scan, operator: string, i: nat)
    ensures var f := Flushed(s, operator);
      var t := f.(i := i);
      && WrittenBy(t) == WrittenBy(f) && (LinesHaveText(t) <==> LinesHaveText(f))
      && t.i == i && t.depth == s.depth && t.pending == s.pending && t.quote == s.quote
  {
  }

  lemma OperatorIsTaken(source: string, s: Scan, t: Scan, depth: nat, waiting: seq<Mark>, it: Item)
    requires Ready(source, s, depth, waiting, it) && it.kind.Operator? && IsOperator(ItemText(source, it))
    requires OwnersOk(t) && LinesHaveText(t) && Run(source, t) == Run(source, s)
    requires t.i == it.to && t.quote == s.quote && t.depth == s.depth && t.pending == s.pending
    requires WrittenBy(t) == Written(TextList(s.segments) + Closed(s.segment.text),
                                     if ItemText(source, it) == "" then "" else ItemText(source, it) + " ")
    ensures Takes(source, s, t, depth, waiting, it)
  {
    hide Run, OwnersOk, LinesHaveText, ItemText, Closed, TextList;
  }

  lemma TagTurn(source: string, s: Scan, depth: nat, waiting: seq<Mark>, it: Item) returns (tag: Tag)
    requires Ready(source, s, depth, waiting, it) && it.kind.Tagged?
    ensures Turn(source, s) == Opened(source, s, tag) && Slice(source, s.i, tag.end) == ItemText(source, it)
    ensures it.kind == Tagged(tag.delimiter, tag.strip) && it.to == if tag.end <= |source| then tag.end else |source|
  {
    ReadyIs(source, s, depth, waiting, it);
    hide Ready, OwnersOk, LinesHaveText, ReadHeredocTag, QuotationEnd;
    tag := ReadHeredocTag(source, it.from).value;
    PairStarts(source, s.i, '<', '<');
    TripleStarts(source, s.i);
    OutsideTurn(source, s);
    hide Turn;
    assert Deeper(s, '<') == s;
  }

  lemma TagItem(source: string, s: Scan, depth: nat, waiting: seq<Mark>, it: Item) returns (t: Scan)
    requires Ready(source, s, depth, waiting, it) && it.kind.Tagged?
    ensures Takes(source, s, t, depth, waiting, it)
  {
    hide *;
    ReadyIs(source, s, depth, waiting, it);
    t := Turn(source, s);
    TurnOnce(source, s);
    var tag := TagTurn(source, s, depth, waiting, it);
    OpenedWrites(source, s, tag);
    TagIsTaken(source, s, t, depth, waiting, it, tag);
  }

  lemma OpenedWrites(source: string, s: Scan, tag: Tag)
    requires LinesHaveText(s)
    ensures var t, text := Opened(source, s, tag), Slice(source, s.i, tag.end);
      && WrittenBy(t) == WrittenBy(s).(text := s.segment.text + text) && LinesHaveText(t)
      && t.i == tag.end && t.depth == s.depth && t.quote == s.quote
      && Marks(t.pending) == Marks(s.pending) + [(tag.delimiter, tag.strip)]
  {
    hide Blank, Slice;
    var text := Slice(source, s.i, tag.end);
    TypedWrites(s, text, tag.end);
    MarksAppend(s.pending, Heredoc(tag.delimiter, tag.strip, |s.segments|, text));
  }

  lemma TagIsTaken(source: string, s: Scan, t: Scan, depth: nat, waiting: seq<Mark>, it: Item, tag: Tag)
    requires Ready(source, s, depth, waiting, it) && it.kind == Tagged(tag.delimiter, tag.strip)
    requires it.to == if tag.end <= |source| then tag.end else |source|
    requires OwnersOk(t) && LinesHaveText(t) && Run(source, t) == Run(source, s)
    requires t.i == tag.end && t.quote == s.quote && t.depth == s.depth && Marks(t.pending) == Marks(s.pending) + [(tag.delimiter, tag.strip)]
    requires WrittenBy(t) == WrittenBy(s).(text := s.segment.text + ItemText(source, it))
    ensures Takes(source, s, t, depth, waiting, it)
  {
    hide Run, OwnersOk, LinesHaveText, ItemText, Closed, TextList, Marks, AtStart, ReadHeredocTag;
  }

  lemma LineTurn(source: string, s: Scan, depth: nat, waiting: seq<Mark>, it: Item)
    requires Ready(source, s, depth, waiting, it) && it.kind.EndOfLine?
    ensures EndsLine(source, s) && it.to == (var end := LinesEnd(source, Marks(s.pending), s.i + 1); if end <= |source| then end else |source|)
  {
    hide OwnersOk, LinesHaveText, LinesEnd;
  }

  lemma LineItem(source: string, s: Scan, depth: nat, waiting: seq<Mark>, it: Item) returns (t: Scan)
    requires Ready(source, s, depth, waiting, it) && it.kind.EndOfLine?
    ensures Takes(source, s, t, depth, waiting, it)
  {
    hide *;
    ReadyIs(source, s, depth, waiting, it);
    LineTurn(source, s, depth, waiting, it);
    t := Turn(source, s);
    TurnOnce(source, s);
    NewlineTurn(source, s);
    NewlineShape(source, s);
    OwnersHaveText(s);
    ClearedWrites(s);
    TakeLinesWrites(source, s.(pending := []), s.pending, s.i + 1);
    var taken := TakeLines(source, s.(pending := []), s.pending, s.i + 1).0;
    LineWrites(taken, t);
    LineIsTaken(source, s, t, depth, waiting, it);
  }

  lemma ClearedWrites(s: Scan)
    ensures var t := s.(pending := []);
      WrittenBy(t) == WrittenBy(s) && (LinesHaveText(t) <==> LinesHaveText(s)) && t.segment == s.segment && t.segments == s.segments
      && t.pending == [] && t.quote == s.quote && t.depth == s.depth
  {
  }

  lemma LineWrites(taken: Scan, t: Scan)
    requires LinesHaveText(taken)
    requires t == (if AtStart(taken.segment.text) then Typed(taken, " ", taken.i) else Flushed(taken, "")).(i := t.i)
    ensures LinesHaveText(t) && t.pending == taken.pending && t.quote == taken.quote && t.depth == taken.depth
    ensures WrittenBy(t) == if AtStart(WrittenBy(taken).text) then WrittenBy(taken).(text := WrittenBy(taken).text + " ")
      else Written(WrittenBy(taken).texts + Closed(WrittenBy(taken).text), "")
  {
    hide AtStart, Blank, Closed;
    if AtStart(taken.segment.text) {
      TypedWrites(taken, " ", taken.i);
    } else {
      FlushedWrites(taken, "");
    }
  }

  lemma LineIsTaken(source: string, s: Scan, t: Scan, depth: nat, waiting: seq<Mark>, it: Item)
    requires Ready(source, s, depth, waiting, it) && it.kind.EndOfLine?
    requires OwnersOk(t) && LinesHaveText(t) && Run(source, t) == Run(source, s)
    requires t.quote == s.quote && t.depth == s.depth && t.pending == []
    requires t.i == (var end := LinesEnd(source, Marks(s.pending), s.i + 1); if end < |source| then end else |source|)
    requires WrittenBy(t) == if AtStart(WrittenBy(s).text) then WrittenBy(s).(text := WrittenBy(s).text + " ")
      else Written(WrittenBy(s).texts + Closed(WrittenBy(s).text), "")
    ensures Takes(source, s, t, depth, waiting, it)
  {
    hide Run, OwnersOk, LinesHaveText, Closed, TextList, AtStart, LinesEnd;
    assert Marks([]) == [];
  }

  /** Whatever the item, the scanner takes it. */
  lemma ItemIsTaken(source: string, s: Scan, depth: nat, waiting: seq<Mark>, it: Item) returns (t: Scan)
    requires Ready(source, s, depth, waiting, it)
    ensures Takes(source, s, t, depth, waiting, it)
  {
    hide *;
    ReadyIs(source, s, depth, waiting, it);
    match it.kind
    case Quotation => t := QuotationItem(source, s, depth, waiting, it);
    case Escaped =>
      MarkTurn(source, s, depth, waiting, it);
      t := TypedItem(source, s, depth, waiting, it);
    case Comment =>
      MarkTurn(source, s, depth, waiting, it);
      t := TypedItem(source, s, depth, waiting, it);
    case Paren =>
      ParenTurn(source, s, depth, waiting, it);
      t := TypedItem(source, s, depth, waiting, it);
    case HereString =>
      HereStringTurn(source, s, depth, waiting, it);
      t := TypedItem(source, s, depth, waiting, it);
    case Tagged(_, _) => t := TagItem(source, s, depth, waiting, it);
    case EndOfLine => t := LineItem(source, s, depth, waiting, it);
    case Semicolons =>
      SemicolonsTurn(source, s, depth, waiting, it);
      t := TypedItem(source, s, depth, waiting, it);
    case Operator => t := OperatorItem(source, s, depth, waiting, it);
    case Plain =>
      PlainTurn(source, s, depth, waiting, it);
      if IsBlank(source, it) && AtStart(s.segment.text) {
        t := BlankItem(source, s, depth, waiting, it);
      } else {
        SameDepth(s, ItemText(source, it), it.to);
        t := TypedItem(source, s, depth, waiting, it);
      }
  }

  lemma SameDepth(s: Scan, text: string, i: nat)
    ensures Typed(s, text, i) == Typed(s, text, i).(depth := s.depth)
  {
  }

  lemma BlankItem(source: string, s: Scan, depth: nat, waiting: seq<Mark>, it: Item) returns (t: Scan)
    requires Ready(source, s, depth, waiting, it) && s.i < |source| && LinesHaveText(s) && OwnersOk(s)
    requires it.kind.Plain? && IsBlank(source, it) && AtStart(s.segment.text)
    requires Turn(source, s) == s.(i := it.to) && DepthBehind(source, depth, it) == depth
    ensures Takes(source, s, t, depth, waiting, it)
  {
    t := Turn(source, s);
    TurnOnce(source, s);
    hide Turn, Run, OwnersOk, IsBlank, AtStart, Blank, ItemText, DepthBehind;
    assert WrittenBy(t) == WrittenBy(s);
  }

  // ---------------------------------------------------------------------------------------------
  // The whole scan
  // ---------------------------------------------------------------------------------------------

  /** What the scanner has written for the items so far. */
  ghost predicate Follows(source: string, done: seq<Item>, w: Written, from: nat, depth: nat) {
    var groups := Groups(source, done);
    var n := |groups| - 1;
    w.texts == SegmentTexts(source, groups[..n]) && Tracks(source, groups[n], w.text, from, depth)
  }

  lemma NewGroupTracks(source: string, waiting: seq<Mark>, it: Item)
    requires IsItem(source, 0, waiting, it) && it.kind.Operator?
    ensures Tracks(source, [it], ItemText(source, it) + " ", it.to, 0)
  {
    var op := ItemText(source, it);
    assert OperatorOf(source, [it]) == op && [it][..0] == [];
    assert (op + " ")[|op|..] == " " && (op + " ")[..|op| + 1] == op + " ";
  }

  lemma NoGroupTracks(source: string, from: nat)
    ensures Tracks(source, [], "", from, 0)
  {
  }

  lemma SegmentTextsAppend(source: string, groups: seq<seq<Item>>, group: seq<Item>)
    ensures SegmentTexts(source, groups + [group]) == SegmentTexts(source, groups) + Closed(GroupText(source, group))
  {
    assert (groups + [group])[..|groups|] == groups;
  }

  lemma FollowsNext(source: string, done: seq<Item>, w: Written, depth: nat, waiting: seq<Mark>, it: Item)
    requires Follows(source, done, w, it.from, depth) && IsItem(source, depth, waiting, it)
    ensures Follows(source, done + [it], WrittenBehind(source, w, it), it.to, DepthBehind(source, depth, it))
  {
    hide *;
    assert (done + [it])[..|done|] == done && (done + [it])[|done|] == it;
    GroupsNext(source, done + [it]);
    FollowsIs(source, done, w, it.from, depth);
    var groups := Groups(source, done);
    RegroupedFollows(source, groups, w, depth, waiting, it);
    IsFollows(source, done + [it], WrittenBehind(source, w, it), it.to, DepthBehind(source, depth, it));
  }

  lemma FollowsIs(source: string, done: seq<Item>, w: Written, from: nat, depth: nat)
    requires Follows(source, done, w, from, depth)
    ensures var groups := Groups(source, done);
      w.texts == SegmentTexts(source, groups[..|groups| - 1]) && Tracks(source, groups[|groups| - 1], w.text, from, depth)
  {
  }

  lemma IsFollows(source: string, done: seq<Item>, w: Written, from: nat, depth: nat)
    requires var groups := Groups(source, done);
      w.texts == SegmentTexts(source, groups[..|groups| - 1]) && Tracks(source, groups[|groups| - 1], w.text, from, depth)
    ensures Follows(source, done, w, from, depth)
  {
  }

  lemma RegroupedFollows(source: string, groups: seq<seq<Item>>, w: Written, depth: nat, waiting: seq<Mark>, it: Item)
    requires groups != [] && IsItem(source, depth, waiting, it)
    requires w.texts == SegmentTexts(source, groups[..|groups| - 1]) && Tracks(source, groups[|groups| - 1], w.text, it.from, depth)
    ensures var r, w' := Regrouped(source, groups, it), WrittenBehind(source, w, it);
      && r != [] && w'.texts == SegmentTexts(source, r[..|r| - 1])
      && Tracks(source, r[|r| - 1], w'.text, it.to, DepthBehind(source, depth, it))
  {
    hide GroupText, Opening, SegmentTexts, Tracks, AtStart, IsItem, ItemText, Closed, IsBlank, TextBehind, DepthBehind;
    var n := |groups| - 1;
    var first, last := groups[..n], groups[n];
    assert groups == first + [last];
    TracksStart(source, last, w.text, it.from, depth);
    TextIsGroupText(source, last, w.text, it.from, depth);
    SegmentTextsAppend(source, first, last);
    OutsideItems(source, depth, waiting, it);
    if it.kind.Operator? {
      assert (groups + [[it]])[..n + 1] == groups;
      NewGroupTracks(source, waiting, it);
    } else if it.kind.EndOfLine? && !Opening(source, last) {
      var more := first + [last + [it]];
      assert (more + [[]])[..n + 1] == more;
      LineCloses(source, last, it);
      SegmentTextsAppend(source, first, last + [it]);
      NoGroupTracks(source, it.to);
    } else {
      assert (first + [last + [it]])[..n] == first;
      if Opening(source, last) {
        OpeningTracks(source, last, w.text, waiting, it);
      } else {
        GoingTracks(source, last, w.text, depth, waiting, it);
      }
    }
  }

  lemma TextIsGroupText(source: string, group: seq<Item>, text: string, from: nat, depth: nat)
    requires Tracks(source, group, text, from, depth)
    ensures text == GroupText(source, group) && (Opening(source, group) ==> depth == 0)
  {
  }

  lemma OutsideItems(source: string, depth: nat, waiting: seq<Mark>, it: Item)
    requires IsItem(source, depth, waiting, it)
    ensures it.kind.Operator? || it.kind.EndOfLine? ==> depth == 0 == DepthBehind(source, depth, it)
  {
  }

  /** The space that a closing line end would add is cut off. */
  lemma LineCloses(source: string, group: seq<Item>, it: Item)
    requires it.kind.EndOfLine?
    ensures Closed(GroupText(source, group + [it])) == Closed(GroupText(source, group))
  {
    GroupTextNext(source, group, it);
    var text := GroupText(source, group);
    assert (text + " ")[..|text|] == text;
    hide GroupText;
    assert TrimBlanks(text + " ") == TrimBlanks(text);
  }

  lemma {:induction false} RunCuts(source: string, s: Scan, done: seq<Item>, items: seq<Item>, from: nat, depth: nat, waiting: seq<Mark>)
    requires Lexes(source, items, from, depth, waiting) && Stands(source, s, from, depth, waiting)
    requires LinesHaveText(s) && OwnersOk(s) && Follows(source, done, WrittenBy(s), from, depth)
    ensures var end := Run(source, s);
      LinesHaveText(end) && WrittenBy(end) == EndOf(source, done + items)
    decreases |items|
  {
    hide *;
    if items == [] {
      RunIsOver(source, s, from, depth, waiting);
      assert done + items == done;
      FollowsIs(source, done, WrittenBy(s), from, depth);
      EndIs(source, done, WrittenBy(s), from, depth);
    } else {
      LexesIs(source, items, from, depth, waiting);
      IsReady(source, s, from, depth, waiting, items[0]);
      var t := ItemIsTaken(source, s, depth, waiting, items[0]);
      TakesIs(source, s, t, depth, waiting, items[0]);
      FollowsNext(source, done, WrittenBy(s), depth, waiting, items[0]);
      RunCuts(source, t, done + [items[0]], items[1..], items[0].to, DepthBehind(source, depth, items[0]), WaitingBehind(waiting, items[0]));
      assert done + [items[0]] + items[1..] == done + items;
    }
  }

  /** What is written when all items are through. */
  function EndOf(source: string, items: seq<Item>): Written {
    var groups := Groups(source, items);
    Written(SegmentTexts(source, groups[..|groups| - 1]), GroupText(source, groups[|groups| - 1]))
  }

  lemma EndIs(source: string, items: seq<Item>, w: Written, from: nat, depth: nat)
    requires Follows(source, items, w, from, depth)
    ensures w == EndOf(source, items)
  {
  }

  lemma RunIsOver(source: string, s: Scan, from: nat, depth: nat, waiting: seq<Mark>)
    requires Stands(source, s, from, depth, waiting) && Lexes(source, [], from, depth, waiting)
    ensures Run(source, s) == s
  {
  }

  lemma LexesIs(source: string, items: seq<Item>, from: nat, depth: nat, waiting: seq<Mark>)
    requires Lexes(source, items, from, depth, waiting) && items != []
    ensures items[0].from == from && IsItem(source, depth, waiting, items[0])
    ensures Lexes(source, items[1..], items[0].to, DepthBehind(source, depth, items[0]), WaitingBehind(waiting, items[0]))
  {
    hide IsItem;
  }

  lemma IsReady(source: string, s: Scan, from: nat, depth: nat, waiting: seq<Mark>, it: Item)
    requires Stands(source, s, from, depth, waiting) && it.from == from && IsItem(source, depth, waiting, it) && LinesHaveText(s) && OwnersOk(s)
    ensures Ready(source, s, depth, waiting, it)
  {
    hide IsItem, LinesHaveText, OwnersOk, Stands;
  }

  lemma TakesIs(source: string, s: Scan, t: Scan, depth: nat, waiting: seq<Mark>, it: Item)
    requires Takes(source, s, t, depth, waiting, it)
    ensures Run(source, t) == Run(source, s) && LinesHaveText(t) && OwnersOk(t)
    ensures Stands(source, t, it.to, DepthBehind(source, depth, it), WaitingBehind(waiting, it))
    ensures WrittenBy(t) == WrittenBehind(source, WrittenBy(s), it)
  {
    hide Run, LinesHaveText, OwnersOk, Stands, WrittenBy, WrittenBehind;
  }

  /**
   Main result: however the command is read as items, the segments of `splitCommand` are the groups of these items, text
   for text, without those that are blank.
   */
  lemma SegmentsAreGroups(command: string, items: seq<Item>)
    requires Lexes(Source(command), items, 0, 0, [])
    ensures TextList(Split(command)) == SegmentTexts(Source(command), Groups(Source(command), items))
  {
    hide *;
    var source := Source(command);
    StartStands(source);
    RunCuts(source, START, [], items, 0, 0, []);
    assert [] + items == items;
    var end := Run(source, START);
    SplitIs(command);
    FlushedWrites(end, "");
    EndIsAll(source, items, end);
  }

  lemma StartStands(source: string)
    ensures Stands(source, START, 0, 0, []) && LinesHaveText(START) && OwnersOk(START) && Follows(source, [], WrittenBy(START), 0, 0)
  {
    NoGroupTracks(source, 0);
    assert TextList([]) == [] && Marks([]) == [];
  }

  lemma EndIsAll(source: string, items: seq<Item>, end: Scan)
    requires WrittenBy(end) == EndOf(source, items)
    requires WrittenBy(Flushed(end, "")).texts == TextList(end.segments) + Closed(end.segment.text)
    ensures TextList(Flushed(end, "").segments) == SegmentTexts(source, Groups(source, items))
  {
    hide Flushed, TextList, Closed, GroupText, Groups;
  }

  // ---------------------------------------------------------------------------------------------
  // Every command can be read as items, and in one way only
  // ---------------------------------------------------------------------------------------------

  /** The item that begins at `from`. */
  function ItemAt(source: string, from: nat, depth: nat, waiting: seq<Mark>): Item
    requires from < |source|
  {
    var c := source[from];
    if QuoteMark(c) then Item(Quotation, from, QuotationEnd(source, from + 1, c))
    else if c == '\\' && from + 2 <= |source| then Item(Escaped, from, from + 2)
    else if BeginsComment(source, from) then Item(Comment, from, LineEnd(source, from))
    else if c == '(' || c == ')' then Item(Paren, from, from + 1)
    else if depth > 0 then Item(Plain, from, from + 1)
    else OutsideAt(source, from, waiting)
  }

  /** The same outside of quotes, escapes, comments and parentheses. */
  function OutsideAt(source: string, from: nat, waiting: seq<Mark>): Item
    requires from < |source|
  {
    var c := source[from];
    if StartsWith(source, from, "<<<") then Item(HereString, from, from + 3)
    else if BeginsTag(source, from) then
      var tag := ReadHeredocTag(source, from).value;
      Item(Tagged(tag.delimiter, tag.strip), from, if tag.end <= |source| then tag.end else |source|)
    else if c == '\n' then
      var end := LinesEnd(source, waiting, from + 1);
      Item(EndOfLine, from, if end <= |source| then end else |source|)
    else if StartsWith(source, from, ";;") then Item(Semicolons, from, from + 2)
    else if StartsWith(source, from, "&&") || StartsWith(source, from, "||") || StartsWith(source, from, "|&") then
      Item(Operator, from, from + 2)
    else if c == ';' || c == '|' then Item(Operator, from, from + 1)
    else Item(Plain, from, from + 1)
  }

  lemma ItemAtIs(source: string, from: nat, depth: nat, waiting: seq<Mark>)
    requires from < |source|
    ensures ItemAt(source, from, depth, waiting).from == from && IsItem(source, depth, waiting, ItemAt(source, from, depth, waiting))
  {
    var c := source[from];
    assert source[from..from + 1] == [c];
    if !QuoteMark(c) && !(c == '\\' && from + 2 <= |source|) && !BeginsComment(source, from) && c != '(' && c != ')' && depth == 0 {
      OutsideAtIs(source, from, waiting);
    } else if BeginsComment(source, from) {
      LineEndIsFirst(source, from);
      assert source[from] == '#';
    }
    hide OutsideAt, ReadHeredocTag, LinesEnd;
  }

  lemma LineEndIsFirst(source: string, from: nat)
    requires from < |source|
    ensures var end := LineEnd(source, from);
      '\n' !in source[from..end] && (end < |source| ==> source[end] == '\n') && (source[from] != '\n' ==> from < end)
  {
  }

  lemma OutsideAtIs(source: string, from: nat, waiting: seq<Mark>)
    requires from < |source|
    requires var c := source[from];
      !QuoteMark(c) && (c == '\\' ==> from + 1 == |source|) && !BeginsComment(source, from) && c != '(' && c != ')'
    ensures OutsideAt(source, from, waiting).from == from && IsItem(source, 0, waiting, OutsideAt(source, from, waiting))
  {
    hide ReadHeredocTag, LinesEnd, BeginsComment, QuoteMark, IsItem;
    FirstChar(source, from);
    var it := OutsideAt(source, from, waiting);
    if it.kind.Operator? || it.kind.Semicolons? {
      OperatorAtIs(source, from, waiting);
    } else {
      OtherAtIs(source, from, waiting);
    }
  }

  lemma OperatorAtIs(source: string, from: nat, waiting: seq<Mark>)
    requires from < |source| && var kind := OutsideAt(source, from, waiting).kind; kind.Operator? || kind.Semicolons?
    ensures IsItem(source, 0, waiting, OutsideAt(source, from, waiting))
  {
    hide ReadHeredocTag, LinesEnd, BeginsComment, QuoteMark, BeginsTag;
    assert source[from..from + 1] == [source[from]];
  }

  lemma OtherAtIs(source: string, from: nat, waiting: seq<Mark>)
    requires from < |source| && var kind := OutsideAt(source, from, waiting).kind; !kind.Operator? && !kind.Semicolons?
    requires var c := source[from];
      !QuoteMark(c) && (c == '\\' ==> from + 1 == |source|) && !BeginsComment(source, from) && c != '(' && c != ')'
    ensures IsItem(source, 0, waiting, OutsideAt(source, from, waiting))
  {
    hide ReadHeredocTag, LinesEnd, BeginsComment, QuoteMark;
    assert source[from..from + 1] == [source[from]];
    FirstChar(source, from);
    if BeginsTag(source, from) {
      TagIsLong(source, from);
    }
  }

  lemma TagIsLong(source: string, from: nat)
    requires BeginsTag(source, from)
    ensures from + 2 <= ReadHeredocTag(source, from).value.end && from + 2 <= |source|
  {
  }

  lemma {:induction false} LexingExists(source: string, from: nat, depth: nat, waiting: seq<Mark>) returns (items: seq<Item>)
    requires from <= |source|
    ensures Lexes(source, items, from, depth, waiting)
    decreases |source| - from
  {
    hide IsItem, ItemAt;
    if from == |source| {
      items := [];
    } else {
      var it := ItemAt(source, from, depth, waiting);
      ItemAtIs(source, from, depth, waiting);
      ItemIsNotEmpty(source, depth, waiting, it);
      var rest := LexingExists(source, it.to, DepthBehind(source, depth, it), WaitingBehind(waiting, it));
      items := [it] + rest;
      assert items[1..] == rest;
    }
  }

  lemma ItemIsNotEmpty(source: string, depth: nat, waiting: seq<Mark>, it: Item)
    requires IsItem(source, depth, waiting, it)
    ensures it.from < it.to <= |source|
  {
  }

  /** An item is told by where it begins. */
  lemma IsItemAt(source: string, depth: nat, waiting: seq<Mark>, it: Item)
    requires IsItem(source, depth, waiting, it)
    ensures it == ItemAt(source, it.from, depth, waiting)
  {
    if it.kind.Comment? {
      CommentEnds(source, it.from, it.to);
    }
    FirstOfItem(source, depth, waiting, it);
    hide ReadHeredocTag, LinesEnd, QuotationEnd, OutsideAt, StartsWith;
    if it.kind.Operator? || it.kind.EndOfLine? || it.kind.Semicolons? || it.kind.HereString? || it.kind.Tagged? || (it.kind.Plain? && depth == 0) {
      IsOutsideAt(source, waiting, it);
    }
  }

  lemma FirstOfItem(source: string, depth: nat, waiting: seq<Mark>, it: Item)
    requires IsItem(source, depth, waiting, it)
    ensures source[it.from..it.to][0] == source[it.from] && |source[it.from..it.to]| == it.to - it.from
    ensures it.kind.HereString? || it.kind.Tagged? ==> source[it.from] == '<'
    ensures it.kind.Semicolons? ==> source[it.from] == ';'
    ensures it.kind.Operator? ==> source[it.from] == '&' || source[it.from] == '|' || source[it.from] == ';'
  {
    FirstChar(source, it.from);
    hide ReadHeredocTag, LinesEnd, QuotationEnd;
  }

  lemma IsOutsideAt(source: string, waiting: seq<Mark>, it: Item)
    requires IsItem(source, 0, waiting, it)
    requires it.kind.Operator? || it.kind.EndOfLine? || it.kind.Semicolons? || it.kind.HereString? || it.kind.Tagged? || it.kind.Plain?
    ensures it == OutsideAt(source, it.from, waiting)
  {
    var text := source[it.from..it.to];
    assert StartsWith(source, it.from, text) && text[0] == source[it.from];
    FirstChar(source, it.from);
    hide ReadHeredocTag, LinesEnd, QuotationEnd;
    if it.kind.Operator? {
      PairStarts(source, it.from, '&', '&');
      PairStarts(source, it.from, '|', '|');
      PairStarts(source, it.from, '|', '&');
    } else if it.kind.Plain? {
      PairStarts(source, it.from, ';', ';');
      PairStarts(source, it.from, '|', '|');
      PairStarts(source, it.from, '|', '&');
    }
  }

  lemma ItemIsUnique(source: string, depth: nat, waiting: seq<Mark>, a: Item, b: Item)
    requires a.from == b.from && IsItem(source, depth, waiting, a) && IsItem(source, depth, waiting, b)
    ensures a == b
  {
    hide ItemAt;
    IsItemAt(source, depth, waiting, a);
    IsItemAt(source, depth, waiting, b);
  }

  lemma {:induction false} LexingIsUnique(source: string, a: seq<Item>, b: seq<Item>, from: nat, depth: nat, waiting: seq<Mark>)
    requires Lexes(source, a, from, depth, waiting) && Lexes(source, b, from, depth, waiting)
    ensures a == b
    decreases |a|
  {
    hide IsItem;
    if a != [] && b != [] {
      ItemIsUnique(source, depth, waiting, a[0], b[0]);
      LexingIsUnique(source, a[1..], b[1..], a[0].to, DepthBehind(source, depth, a[0]), WaitingBehind(waiting, a[0]));
    } else if a != [] {
      ItemIsNotEmpty(source, depth, waiting, a[0]);
    } else if b != [] {
      ItemIsNotEmpty(source, depth, waiting, b[0]);
    }
  }

  lemma {:induction false} OperatorsInItems(source: string, items: seq<Item>, from: nat, depth: nat, waiting: seq<Mark>)
    requires Lexes(source, items, from, depth, waiting)
    ensures forall it :: it in items && it.kind.Operator? ==> IsOperator(ItemText(source, it))
    decreases |items|
  {
    if items != [] {
      hide IsItem, IsOperator, ItemText;
      OperatorIs(source, depth, waiting, items[0]);
      OperatorsInItems(source, items[1..], items[0].to, DepthBehind(source, depth, items[0]), WaitingBehind(waiting, items[0]));
    }
  }

  lemma OperatorIs(source: string, depth: nat, waiting: seq<Mark>, it: Item)
    requires IsItem(source, depth, waiting, it)
    ensures it.kind.Operator? ==> IsOperator(ItemText(source, it))
  {
    hide ReadHeredocTag, LinesEnd, QuotationEnd;
  }

  lemma {:induction false} FlatMember<T>(parts: seq<seq<T>>, g: nat, k: nat)
    requires g < |parts| && k < |parts[g]|
    ensures parts[g][k] in Flat(parts)
    decreases |parts|
  {
    if g < |parts| - 1 {
      FlatMember(parts[..|parts| - 1], g, k);
    }
  }

  lemma {:induction false} LedText(source: string, group: seq<Item>)
    requires Leads(group) && Whole(source, group)
    ensures StartsWith(GroupText(source, group), 0, ItemText(source, group[0]) + " ")
    decreases |group|
  {
    hide ItemText, IsBlank, Opening;
    var n := |group| - 1;
    if n > 0 {
      assert forall k :: 0 <= k < n && group[..n][k].kind.EndOfLine? ==> group[..n][..k] == group[..k];
      assert Whole(source, group[..n]);
      LedText(source, group[..n]);
    }
  }

  lemma {:induction false} TrimBlanksIs(text: string)
    ensures TrimBlanks(text) <= text
    ensures forall k :: 0 <= k < |text| && text[k] != ' ' && text[k] != '\t' ==> k < |TrimBlanks(text)|
    decreases |text|
  {
    if text != "" && (text[|text| - 1] == ' ' || text[|text| - 1] == '\t') {
      TrimBlanksIs(text[..|text| - 1]);
    }
  }

  /** A group that an operator leads becomes a segment that opens with it and, if more follows, a space. */
  lemma LedSegmentOpens(source: string, items: seq<Item>, g: nat)
    requires Lexes(source, items, 0, 0, []) && g < |Groups(source, items)| && Leads(Groups(source, items)[g])
    ensures var group := Groups(source, items)[g];
      var op := ItemText(source, group[0]);
      IsOperator(op) && |Closed(GroupText(source, group))| == 1 && var text := Closed(GroupText(source, group))[0];
      text == op || StartsWith(text, 0, op + " ")
  {
    hide GroupText, Groups, ItemText, Whole, TrimBlanks, Flat, Lexes;
    var groups := Groups(source, items);
    GroupsAreCut(source, items);
    FlatMember(groups, g, 0);
    OperatorsInItems(source, items, 0, 0, []);
    LedText(source, groups[g]);
    TrimmedOpens(GroupText(source, groups[g]), ItemText(source, groups[g][0]));
  }

  lemma TrimmedOpens(text: string, op: string)
    requires IsOperator(op) && StartsWith(text, 0, op + " ")
    ensures var r := TrimBlanks(text); !Blank(r) && (r == op || StartsWith(r, 0, op + " "))
  {
    TrimBlanksIs(text);
    var r := TrimBlanks(text);
    assert text[..|op| + 1][0] == op[0] && text[..|op| + 1][|op| - 1] == op[|op| - 1] && text[..|op| + 1][|op|] == ' ';
    assert |op| <= |r| && r[0] == op[0];
    assert r == text[..|r|];
    hide TrimBlanks;
    if |r| == |op| {
      assert text[..|op| + 1][..|op|] == op;
    }
  }

  // ---------------------------------------------------------------------------------------------
  // The scan in place
  // ---------------------------------------------------------------------------------------------

  /** `splitCommand`: the segments are the groups of the command's items. */
  method SplitCommand(command: string) returns (segments: seq<Segment>, ghost items: seq<Item>)
    ensures segments == Split(command)
    ensures var source := Source(command);
      var groups := Groups(source, items);
      && Lexes(source, items, 0, 0, []) && Flat(groups) == items && WellCut(source, groups)
      && TextList(segments) == SegmentTexts(source, groups)
  {
    hide *;
    var source := Source(command);
    items := LexingExists(source, 0, 0, []);
    GroupsAreCut(source, items);
    SegmentsAreGroups(command, items);
    SplitIs(command);
    segments := Scanned(source);
  }

  /** The loop of `splitCommand`. */
  method Scanned(source: string) returns (segments: seq<Segment>)
    ensures segments == Flushed(Run(source, START), "").segments
  {
    var scanner := new Scanner(source);
    while scanner.i < |source|
      invariant scanner.source == source && Run(source, scanner.State()) == Run(source, START)
      decreases |source| - scanner.i
    {
      TurnAdvances(source, scanner.State());
      scanner.Advance();
    }
    scanner.Flush("");
    segments := scanner.segments;
  }
}
