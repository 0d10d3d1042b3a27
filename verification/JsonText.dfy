/**
 A reader of JSON text by the grammar of RFC 8259, for the form without space between the tokens. It reads back what
 `Outbox.Stringify` writes, for every value, and meets what the results of `Outbox` ask of a reader.
 */
module JsonText {
  import opened Outbox
  import opened Strings
  import opened Wrappers

  /** Something that was read, and the text behind it. */
  datatype Read<T> = Read(it: T, rest: string)

  predicate IsHex(c: char) {
    '0' <= c <= '9' || 'a' <= c <= 'f' || 'A' <= c <= 'F'
  }

  function HexValue(c: char): (n: int)
    requires IsHex(c)
    ensures 0 <= n < 16
  {
    if '0' <= c <= '9' then c as int - '0' as int
    else if 'a' <= c <= 'f' then c as int - 'a' as int + 10
    else c as int - 'A' as int + 10
  }

  /** The character that four hexadecimal digits stand for, unless they are half of a surrogate pair. */
  function CodeOf(t: string): Option<char>
    requires |t| == 4
  {
    if exists i :: 0 <= i < 4 && !IsHex(t[i]) then None
    else
      var n := HexValue(t[0]) * 4096 + HexValue(t[1]) * 256 + HexValue(t[2]) * 16 + HexValue(t[3]);
      if 0xd800 <= n < 0xe000 then None else Some(n as char)
  }

  /** What a backslash and this character stand for. */
  function ShortOf(c: char): Option<char> {
    match c
    case '"' => Some('"')
    case '\\' => Some('\\')
    case '/' => Some('/')
    case 'b' => Some('\U{8}')
    case 'f' => Some('\U{c}')
    case 'n' => Some('\n')
    case 'r' => Some('\r')
    case 't' => Some('\t')
    case _ => None
  }

  /** One character of a string and what follows it. */
  function ReadChar(t: string): (r: Option<Read<char>>)
    requires t != "" && t[0] != '"'
    ensures r.Some? ==> |r.value.rest| < |t|
  {
    if t[0] < ' ' then None
    else if t[0] != '\\' then Some(Read(t[0], t[1..]))
    else if |t| >= 6 && t[1] == 'u' then
      match CodeOf(t[2..6]) case Some(c) => Some(Read(c, t[6..])) case None => None
    else if |t| >= 2 then
      match ShortOf(t[1]) case Some(c) => Some(Read(c, t[2..])) case None => None
    else None
  }

  /** The characters of a string up to its closing quote, section 7. */
  function ReadChars(t: string): (r: Option<Read<string>>)
    ensures r.Some? ==> |r.value.rest| < |t|
    decreases |t|
  {
    if t == "" then None
    else if t[0] == '"' then Some(Read("", t[1..]))
    else
      match ReadChar(t)
      case None => None
      case Some(first) =>
        match ReadChars(first.rest)
        case None => None
        case Some(others) => Some(Read([first.it] + others.it, others.rest))
  }

  function NumberEnd(t: string): (n: nat)
    ensures n <= |t|
  {
    if t != "" && NumberChar(t[0]) then 1 + NumberEnd(t[1..]) else 0
  }

  predicate Opens(t: string, word: string) {
    |word| <= |t| && t[..|word|] == word
  }

  /** A value, section 3. */
  function ReadValue(t: string): (r: Option<Read<Json>>)
    ensures r.Some? ==> |r.value.rest| < |t|
    decreases |t|, 1
  {
    if t == "" then None
    else if Opens(t, "null") then Some(Read(Null, t[4..]))
    else if Opens(t, "true") then Some(Read(Boolean(true), t[4..]))
    else if Opens(t, "false") then Some(Read(Boolean(false), t[5..]))
    else if t[0] == '"' then
      match ReadChars(t[1..]) case Some(r) => Some(Read(Text(r.it), r.rest)) case None => None
    else if Opens(t, "[]") then Some(Read(List([]), t[2..]))
    else if t[0] == '[' then
      match ReadItems(t[1..]) case Some(r) => Some(Read(List(r.it), r.rest)) case None => None
    else if Opens(t, "{}") then Some(Read(Object([]), t[2..]))
    else if t[0] == '{' then
      match ReadMembers(t[1..]) case Some(r) => Some(Read(Object(r.it), r.rest)) case None => None
    else if NumberChar(t[0]) then Some(Read(Number(t[..NumberEnd(t)]), t[NumberEnd(t)..]))
    else None
  }

  /** Values with commas between them, up to the closing bracket, section 5. */
  function ReadItems(t: string): (r: Option<Read<seq<Json>>>)
    ensures r.Some? ==> |r.value.rest| < |t|
    decreases |t|, 2
  {
    match ReadValue(t)
    case None => None
    case Some(first) =>
      if Opens(first.rest, "]") then Some(Read([first.it], first.rest[1..]))
      else if Opens(first.rest, ",") then
        match ReadItems(first.rest[1..])
        case None => None
        case Some(others) => Some(Read([first.it] + others.it, others.rest))
      else None
  }

  /** A name, a colon and a value. */
  function ReadMember(t: string): (r: Option<Read<Member>>)
    ensures r.Some? ==> |r.value.rest| < |t|
    decreases |t|, 2
  {
    if !Opens(t, "\"") then None
    else
      match ReadChars(t[1..])
      case None => None
      case Some(key) =>
        if !Opens(key.rest, ":") then None
        else
          match ReadValue(key.rest[1..])
          case None => None
          case Some(value) => Some(Read(Member(key.it, value.it), value.rest))
  }

  /** Members with commas between them, up to the closing brace, section 4. */
  function ReadMembers(t: string): (r: Option<Read<seq<Member>>>)
    ensures r.Some? ==> |r.value.rest| < |t|
    decreases |t|, 3
  {
    match ReadMember(t)
    case None => None
    case Some(first) =>
      if Opens(first.rest, "}") then Some(Read([first.it], first.rest[1..]))
      else if Opens(first.rest, ",") then
        match ReadMembers(first.rest[1..])
        case None => None
        case Some(others) => Some(Read([first.it] + others.it, others.rest))
      else None
  }

  /** The whole text as one value. */
  function Parse(t: string): Option<Json> {
    match ReadValue(t)
    case Some(r) => if r.rest == "" then Some(r.it) else None
    case None => None
  }

  // ---------------------------------------------------------------------------------------------
  // What was written is read back
  // ---------------------------------------------------------------------------------------------

  lemma CharReadsBack(c: char, rest: string)
    ensures EscapeChar(c) != "" && EscapeChar(c)[0] != '"'
    ensures ReadChar(EscapeChar(c) + rest) == Some(Read(c, rest))
  {
    var t := EscapeChar(c);
    assert (t + rest)[|t|..] == rest;
    if |t| == 6 {
      ControlReadsBack(c);
      CodeReadsBack(c, t + rest);
    } else if |t| == 2 {
      ShortReadsBack(c, t + rest);
    }
  }

  lemma ShortReadsBack(c: char, t: string)
    requires |EscapeChar(c)| == 2 && 2 <= |t| && t[..2] == EscapeChar(c)
    ensures ReadChar(t) == Some(Read(c, t[2..]))
  {
    assert t[0] == EscapeChar(c)[0] && t[1] == EscapeChar(c)[1];
  }

  lemma CodeReadsBack(c: char, t: string)
    requires 6 <= |t| && t[0] == '\\' && t[1] == 'u' && CodeOf(t[2..6]) == Some(c)
    ensures ReadChar(t) == Some(Read(c, t[6..]))
  {
    hide CodeOf;
  }

  lemma ControlReadsBack(c: char)
    requires c < ' '
    ensures CodeOf("00" + [HEX[c as int / 16], HEX[c as int % 16]]) == Some(c)
  {
    HexReadsBack(c as int / 16);
    HexReadsBack(c as int % 16);
    hide HexValue;
    assert HexValue('0') == 0 by {
      HexReadsBack(0);
    }
  }

  lemma HexReadsBack(n: nat)
    requires n < 16
    ensures IsHex(HEX[n]) && HexValue(HEX[n]) == n
  {
  }

  lemma {:induction false} CharsReadBack(s: string, rest: string)
    ensures ReadChars(Escape(s) + "\"" + rest) == Some(Read(s, rest))
    decreases |s|
  {
    var t := Escape(s) + "\"" + rest;
    if s == "" {
      assert t == "\"" + rest && t[1..] == rest;
    } else {
      var more := Escape(s[1..]) + "\"" + rest;
      assert t == EscapeChar(s[0]) + more;
      CharReadsBack(s[0], more);
      CharsReadBack(s[1..], rest);
      assert [s[0]] + s[1..] == s;
    }
  }

  lemma {:induction false} NumberEndsThere(text: string, rest: string)
    requires forall i :: 0 <= i < |text| ==> NumberChar(text[i])
    requires rest == "" || !NumberChar(rest[0])
    ensures NumberEnd(text + rest) == |text|
    decreases |text|
  {
    if text != "" {
      assert (text + rest)[1..] == text[1..] + rest;
      NumberEndsThere(text[1..], rest);
    } else {
      assert text + rest == rest;
    }
  }

  /** Nothing behind a value goes on with a number. */
  predicate Ends(rest: string) {
    rest == "" || !NumberChar(rest[0])
  }

  lemma {:induction false} ValueReadsBack(v: Json, rest: string)
    requires WellFormed(v) && Ends(rest)
    ensures ReadValue(Stringify(v) + rest) == Some(Read(v, rest))
    decreases v, 1
  {
    match v
    case Null => WordReadsBack(v, rest);
    case Boolean(b) => WordReadsBack(v, rest);
    case Number(text) => NumberReadsBack(text, rest);
    case Text(s) => TextReadsBack(s, rest);
    case List(items) =>
      if items != [] {
        ItemsReadBack(items, rest);
      }
      ListReadsBack(items, rest);
    case Object(members) =>
      if members != [] {
        MembersReadBack(members, rest);
      }
      ObjectReadsBack(members, rest);
  }

  lemma WordReadsBack(v: Json, rest: string)
    requires v.Null? || v.Boolean?
    ensures ReadValue(Stringify(v) + rest) == Some(Read(v, rest))
  {
    var word := Stringify(v);
    assert (word + rest)[|word|..] == rest && (word + rest)[..|word|] == word;
    assert (word + rest)[0] == word[0];
  }

  lemma NumberReadsBack(text: string, rest: string)
    requires WellFormed(Number(text)) && Ends(rest)
    ensures ReadValue(text + rest) == Some(Read(Number(text), rest))
  {
    NumberEndsThere(text, rest);
    var t := text + rest;
    assert t[0] == text[0] && t[..|text|] == text && t[|text|..] == rest;
    hide NumberEnd;
    assert forall word: string | |word| > 0 && word[0] != t[0] :: !Opens(t, word);
  }

  /** A value that begins with a quote, or with a bracket that is not closed at once. */
  lemma ByFirstChar(t: string)
    requires t != "" && (t[0] == '"' || (|t| > 1 && ((t[0] == '[' && t[1] != ']') || (t[0] == '{' && t[1] != '}'))))
    ensures t[0] == '"' ==>
      ReadValue(t) == match ReadChars(t[1..]) case Some(r) => Some(Read(Text(r.it), r.rest)) case None => None
    ensures t[0] == '[' ==>
      ReadValue(t) == match ReadItems(t[1..]) case Some(r) => Some(Read(List(r.it), r.rest)) case None => None
    ensures t[0] == '{' ==>
      ReadValue(t) == match ReadMembers(t[1..]) case Some(r) => Some(Read(Object(r.it), r.rest)) case None => None
  {
    hide ReadChars, ReadItems, ReadMembers;
    assert forall word: string | |word| > 0 && word[0] != t[0] :: !Opens(t, word);
    assert forall word: string | |word| > 1 && |t| > 1 && word[1] != t[1] :: !Opens(t, word) by {
      assert |t| > 1 ==> t[..2][1] == t[1];
    }
  }

  lemma EnclosedText(open: char, inner: string, close: string, rest: string)
    ensures var t := [open] + inner + close + rest;
      && t[0] == open && t[1..] == inner + close + rest && (inner != "" ==> |t| > 1 && t[1] == inner[0])
      && (inner == "" && |close| == 1 ==> t[..2] == [open] + close && t[2..] == rest)
  {
  }

  lemma TextReadsBack(s: string, rest: string)
    ensures ReadValue(Quote(s) + rest) == Some(Read(Text(s), rest))
  {
    hide Escape, ReadValue, ReadChars;
    CharsReadBack(s, rest);
    EnclosedText('"', Escape(s), "\"", rest);
    ByFirstChar(Quote(s) + rest);
  }

  lemma ListReadsBack(items: seq<Json>, rest: string)
    requires WellFormed(List(items))
    requires items != [] ==> ReadItems(Items(items) + "]" + rest) == Some(Read(items, rest))
    ensures ReadValue(Stringify(List(items)) + rest) == Some(Read(List(items), rest))
  {
    EnclosedText('[', Items(items), "]", rest);
    if items == [] {
      EmptyReadsBack(rest);
    } else {
      FirstChar(items[0]);
      assert Items(items)[0] == Stringify(items[0])[0];
      hide Items, WellFormed, ReadValue, ReadItems;
      ByFirstChar(['['] + Items(items) + "]" + rest);
    }
  }

  lemma EmptyReadsBack(rest: string)
    ensures ReadValue("[]" + rest) == Some(Read(List([]), rest))
    ensures ReadValue("{}" + rest) == Some(Read(Object([]), rest))
  {
    assert ("[]" + rest)[0] == '[' && ("[]" + rest)[..2] == "[]" && ("[]" + rest)[2..] == rest;
    assert ("{}" + rest)[0] == '{' && ("{}" + rest)[..2] == "{}" && ("{}" + rest)[2..] == rest;
    assert forall t: string, word: string | t != "" && |word| > 0 && word[0] != t[0] :: !Opens(t, word);
  }

  lemma ObjectReadsBack(members: seq<Member>, rest: string)
    requires WellFormed(Object(members))
    requires members != [] ==> ReadMembers(Members(members) + "}" + rest) == Some(Read(members, rest))
    ensures ReadValue(Stringify(Object(members)) + rest) == Some(Read(Object(members), rest))
  {
    EnclosedText('{', Members(members), "}", rest);
    if members == [] {
      EmptyReadsBack(rest);
    } else {
      assert Members(members)[0] == Quote(members[0].key)[0] == '"';
      hide Members, WellFormed, ReadValue, ReadMembers;
      ByFirstChar(['{'] + Members(members) + "}" + rest);
    }
  }

  lemma FirstChar(v: Json)
    requires WellFormed(v)
    ensures Stringify(v) != "" && Stringify(v)[0] != ']'
  {
  }

  /** The first of several, and what stands behind it: the closing bracket, or a comma and the others. */
  function Behind(more: string, close: string, rest: string, last: bool): string {
    if last then close + rest else "," + (more + close + rest)
  }

  lemma FirstAndBehind(first: string, more: string, close: string, rest: string, last: bool)
    requires last ==> more == ""
    ensures first + (if last then "" else ",") + more + close + rest == first + Behind(more, close, rest, last)
  {
    if !last {
      assert first + "," + more + close + rest == first + ("," + (more + close + rest));
    }
  }

  lemma BehindIs(more: string, close: char, rest: string, last: bool)
    requires close != ','
    ensures var b := Behind(more, [close], rest, last);
      && (last ==> Opens(b, [close]) && b[1..] == rest)
      && (!last ==> !Opens(b, [close]) && Opens(b, ",") && b[1..] == more + [close] + rest)
      && (close != ':' && !NumberChar(close) ==> Ends(b))
  {
  }

  lemma {:induction false} ItemsReadBack(items: seq<Json>, rest: string)
    requires items != [] && forall i :: 0 <= i < |items| ==> WellFormed(items[i])
    ensures ReadItems(Items(items) + "]" + rest) == Some(Read(items, rest))
    decreases items, 0
  {
    hide Stringify, ReadValue, WellFormed, Opens, Behind, Ends;
    var last, more := |items| == 1, Items(items[1..]);
    FirstAndBehind(Stringify(items[0]), more, "]", rest, last);
    BehindIs(more, ']', rest, last);
    ValueReadsBack(items[0], Behind(more, "]", rest, last));
    if last {
      assert items == [items[0]];
    } else {
      ItemsReadBack(items[1..], rest);
      assert items == [items[0]] + items[1..];
    }
  }

  lemma MemberReadsBack(m: Member, rest: string)
    requires WellFormed(m.value) && Ends(rest)
    ensures ReadMember(Quote(m.key) + ":" + Stringify(m.value) + rest) == Some(Read(m, rest))
    decreases m, 2
  {
    hide Escape, Stringify, ReadValue, ReadChars, WellFormed;
    var behind := ":" + (Stringify(m.value) + rest);
    MemberSplits(m, rest);
    CharsReadBack(m.key, behind);
    ValueReadsBack(m.value, rest);
  }

  lemma MemberSplits(m: Member, rest: string)
    ensures var behind := ":" + (Stringify(m.value) + rest);
      var t := Quote(m.key) + ":" + Stringify(m.value) + rest;
      && Opens(t, "\"") && t[1..] == Escape(m.key) + "\"" + behind
      && Opens(behind, ":") && behind[1..] == Stringify(m.value) + rest
  {
    hide Escape, Stringify;
  }

  lemma {:induction false} MembersReadBack(members: seq<Member>, rest: string)
    requires members != [] && forall i :: 0 <= i < |members| ==> WellFormed(members[i].value)
    ensures ReadMembers(Members(members) + "}" + rest) == Some(Read(members, rest))
    decreases members, 0
  {
    hide Stringify, Quote, ReadMember, WellFormed, Opens, Behind, Ends;
    var last, more, m := |members| == 1, Members(members[1..]), members[0];
    FirstAndBehind(Quote(m.key) + ":" + Stringify(m.value), more, "}", rest, last);
    BehindIs(more, '}', rest, last);
    MemberReadsBack(m, Behind(more, "}", rest, last));
    if last {
      assert members == [m];
    } else {
      MembersReadBack(members[1..], rest);
      assert members == [m] + members[1..];
    }
  }

  /** Main result: every value is read back from its text. */
  lemma StringifyReadsBack(v: Json)
    requires WellFormed(v)
    ensures Parse(Stringify(v)) == Some(v)
  {
    ValueReadsBack(v, "");
    assert Stringify(v) + "" == Stringify(v);
  }

  // ---------------------------------------------------------------------------------------------
  // What is read has every bracket and string closed
  // ---------------------------------------------------------------------------------------------

  predicate Outside(st: Scan) {
    !st.inString && !st.escaped
  }

  lemma WordScans(st: Scan, t: string, word: string)
    requires Opens(t, word) && forall i :: 0 <= i < |word| ==> Next(st, word[i]) == st && word[i] != '\n'
    ensures ScanAll(st, t) == ScanAll(st, t[|word|..])
  {
    IdleNested(st, word);
    ScanConcat(st, word, t[|word|..]);
    assert t == word + t[|word|..];
  }

  lemma CharScans(st: Scan, t: string)
    requires st.inString && !st.escaped && t != "" && t[0] != '"' && ReadChar(t).Some?
    ensures ScanAll(st, t) == ScanAll(st, ReadChar(t).value.rest)
  {
    if t[0] == '\\' {
      assert Next(st, t[0]) == st.(escaped := true) && Next(st.(escaped := true), t[1]) == st;
      assert t[1..][1..] == t[2..];
      if t[1] == 'u' {
        assert t[2..][..4] == t[2..6] && t[2..][4..] == t[6..];
        assert forall i :: 0 <= i < 4 ==> IsHex(t[2..6][i]);
        WordScans(st, t[2..], t[2..6]);
      }
    }
  }

  lemma {:induction false} CharsScan(st: Scan, t: string)
    requires st.inString && !st.escaped && ReadChars(t).Some?
    ensures ScanAll(st, t) == ScanAll(st.(inString := false), ReadChars(t).value.rest)
    decreases |t|
  {
    if t[0] != '"' {
      CharScans(st, t);
      CharsScan(st, ReadChar(t).value.rest);
    }
  }

  lemma {:induction false} NumberScans(st: Scan, t: string)
    requires Outside(st)
    ensures ScanAll(st, t) == ScanAll(st, t[NumberEnd(t)..])
    decreases |t|
  {
    if t != "" && NumberChar(t[0]) {
      NumberScans(st, t[1..]);
      assert t[1..][NumberEnd(t[1..])..] == t[NumberEnd(t)..];
    }
  }

  lemma {:induction false} ValueScans(st: Scan, t: string)
    requires Outside(st) && ReadValue(t).Some?
    ensures ScanAll(st, t) == ScanAll(st, ReadValue(t).value.rest)
    decreases |t|, 1
  {
    if Opens(t, "null") {
      WordScans(st, t, "null");
    } else if Opens(t, "true") {
      WordScans(st, t, "true");
    } else if Opens(t, "false") {
      WordScans(st, t, "false");
    } else if t[0] == '"' {
      CharsScan(Next(st, '"'), t[1..]);
    } else if Opens(t, "[]") || Opens(t, "{}") {
      assert t[1..][1..] == t[2..];
      assert Next(Next(st, t[0]), t[1]) == st;
    } else if t[0] == '[' {
      ItemsScan(Next(st, '['), t[1..]);
    } else if t[0] == '{' {
      MembersScan(Next(st, '{'), t[1..]);
    } else {
      NumberScans(st, t);
    }
  }

  lemma {:induction false} ItemsScan(st: Scan, t: string)
    requires Outside(st) && ReadItems(t).Some?
    ensures ScanAll(st, t) == ScanAll(Next(st, ']'), ReadItems(t).value.rest)
    decreases |t|, 2
  {
    ValueScans(st, t);
    var rest := ReadValue(t).value.rest;
    if Opens(rest, ",") {
      ItemsScan(st, rest[1..]);
    }
  }

  lemma MemberScans(st: Scan, t: string)
    requires Outside(st) && ReadMember(t).Some?
    ensures ScanAll(st, t) == ScanAll(st, ReadMember(t).value.rest)
    decreases |t|, 2
  {
    CharsScan(Next(st, '"'), t[1..]);
    var rest := ReadChars(t[1..]).value.rest;
    ValueScans(st, rest[1..]);
  }

  lemma {:induction false} MembersScan(st: Scan, t: string)
    requires Outside(st) && ReadMembers(t).Some?
    ensures ScanAll(st, t) == ScanAll(Next(st, '}'), ReadMembers(t).value.rest)
    decreases |t|, 3
  {
    MemberScans(st, t);
    var rest := ReadMember(t).value.rest;
    if Opens(rest, ",") {
      MembersScan(st, rest[1..]);
    }
  }

  /** This reader meets both requirements on `JSON.parse`. */
  lemma ParseIsAReader(entries: seq<Json>)
    requires forall i :: 0 <= i < |entries| ==> WellFormed(entries[i])
    ensures RejectsOpen(Parse) && ReadsBack(Parse, entries)
  {
    forall t | Parse(t).Some?
      ensures Closed(t)
    {
      ValueScans(OUTSIDE, t);
    }
    forall i | 0 <= i < |entries|
      ensures Parse(Stringify(entries[i])) == Some(entries[i])
    {
      StringifyReadsBack(entries[i]);
    }
  }

  /** With it, what reached the file whole is what is read, whatever was cut. */
  lemma TornWritesReadBack(appends: seq<Append>)
    requires forall i :: 0 <= i < |appends| ==> Possible(appends[i])
    ensures Parsed(Lines(File(appends)), Parse) == AllSurvivors(appends)
  {
    forall i | 0 <= i < |appends|
      ensures Possible(appends[i]) && ReadsBack(Parse, appends[i].entries)
    {
      ParseIsAReader(appends[i].entries);
    }
    ParseIsAReader([]);
    TornWriteRoundTrip(appends, Parse);
  }
}
