/**
 The small readings that `splitCommand` rests on, told by the text alone: which line ends become newlines, what a heredoc
 tag is, which line ends a heredoc, and what is cut off the end of a segment.
 */
module CommandText {
  import opened Strings
  import opened Wrappers
  import opened CommandBlock

  // ---------------------------------------------------------------------------------------------
  // Line ends
  // ---------------------------------------------------------------------------------------------

  /** A return with its newline, and a return alone, each become one newline; text without returns stays. */
  lemma NormalizedIs(a: string, b: string)
    ensures '\r' !in a ==> Normalized(a) == a
    ensures Normalized(a + "\r\n" + b) == Normalized(a) + "\n" + Normalized(b)
    ensures !CharAt(b, 0, '\n') ==> Normalized(a + "\r" + b) == Normalized(a) + "\n" + Normalized(b)
  {
    if '\r' !in a {
      NoReturns(a);
    }
    NormalizedConcat(a, "\r\n" + b);
    NormalizedConcat(a, "\r" + b);
    assert a + "\r\n" + b == a + ("\r\n" + b) && ("\r\n" + b)[2..] == b;
    assert a + "\r" + b == a + ("\r" + b) && ("\r" + b)[1..] == b;
  }

  lemma {:induction false} NoReturns(s: string)
    requires '\r' !in s
    ensures Normalized(s) == s
    decreases |s|
  {
    if s != "" {
      NoReturns(s[1..]);
    }
  }

  lemma {:induction false} NormalizedConcat(a: string, b: string)
    requires !CharAt(b, 0, '\n')
    ensures Normalized(a + b) == Normalized(a) + Normalized(b)
    decreases |a|
  {
    if a == "" {
      assert a + b == b;
    } else {
      assert (a + b)[1..] == a[1..] + b;
      if a[0] == '\r' && CharAt(a, 1, '\n') {
        assert (a + b)[2..] == a[2..] + b;
        NormalizedConcat(a[2..], b);
      } else {
        NormalizedConcat(a[1..], b);
      }
    }
  }

  // ---------------------------------------------------------------------------------------------
  // Ends of lines and of heredocs
  // ---------------------------------------------------------------------------------------------

  predicate IsBlanks(s: string) {
    forall k :: 0 <= k < |s| ==> s[k] == ' ' || s[k] == '\t'
  }

  predicate IsTabs(s: string) {
    forall k :: 0 <= k < |s| ==> s[k] == '\t'
  }

  /** Only blanks are cut off, and all of them. */
  lemma {:induction false} TrimBlanksCuts(text: string, blanks: string)
    requires IsBlanks(blanks) && (text == "" || (text[|text| - 1] != ' ' && text[|text| - 1] != '\t'))
    ensures TrimBlanks(text + blanks) == text
    decreases |blanks|
  {
    if blanks == "" {
      assert text + blanks == text;
    } else {
      assert (text + blanks)[..|text + blanks| - 1] == text + blanks[..|blanks| - 1];
      TrimBlanksCuts(text, blanks[..|blanks| - 1]);
    }
  }

  lemma {:induction false} StripTabsCuts(tabs: string, text: string)
    requires IsTabs(tabs) && !CharAt(text, 0, '\t')
    ensures StripTabs(tabs + text) == text
    decreases |tabs|
  {
    if tabs == "" {
      assert tabs + text == text;
    } else {
      assert (tabs + text)[1..] == tabs[1..] + text;
      StripTabsCuts(tabs[1..], text);
    }
  }

  lemma {:induction false} StripTabsLeaves(line: string) returns (tabs: string)
    ensures IsTabs(tabs) && line == tabs + StripTabs(line) && !CharAt(StripTabs(line), 0, '\t')
    decreases |line|
  {
    if line != "" && line[0] == '\t' {
      var more := StripTabsLeaves(line[1..]);
      tabs := "\t" + more;
    } else {
      tabs := "";
    }
  }

  /** A heredoc ends at its delimiter on a line of its own; behind "<<-" tabs may stand before it. */
  lemma TerminatesExactly(line: string, delimiter: string, strip: bool)
    ensures !strip ==> (Terminates(line, delimiter, strip) <==> line == delimiter)
    ensures strip ==>
      (Terminates(line, delimiter, strip) <==>
       !CharAt(delimiter, 0, '\t') && exists tabs :: IsTabs(tabs) && line == tabs + delimiter)
  {
    if strip {
      if Terminates(line, delimiter, strip) {
        var tabs := StripTabsLeaves(line);
        assert IsTabs(tabs) && line == tabs + delimiter;
      }
      if !CharAt(delimiter, 0, '\t') && exists tabs :: IsTabs(tabs) && line == tabs + delimiter {
        var tabs :| IsTabs(tabs) && line == tabs + delimiter;
        StripTabsCuts(tabs, delimiter);
      }
    }
  }

  // ---------------------------------------------------------------------------------------------
  // Heredoc tags
  // ---------------------------------------------------------------------------------------------

  predicate EndsWord(c: char) {
    IsSpace(c) || c == ';' || c == '&' || c == '|' || c == '<' || c == '>' || c == '(' || c == ')'
  }

  /** What an unquoted word stands for. A backslash is left out, and so is the character behind it. */
  predicate StandsFor(word: string, delimiter: string)
    decreases |word|
  {
    if word == "" then delimiter == ""
    else if word[0] == '\\' then |word| >= 2 && StandsFor(word[2..], delimiter)
    else !EndsWord(word[0]) && delimiter != "" && delimiter[0] == word[0] && StandsFor(word[1..], delimiter[1..])
  }

  /** "<<", perhaps a dash, and blanks, with something else behind them. */
  predicate TagOpens(lead: string, dash: string, blanks: string, behind: string) {
    && (dash == "" || dash == "-") && IsBlanks(blanks)
    && (dash == "" && blanks == "" ==> !CharAt(behind, 0, '-')) && !CharAt(behind, 0, ' ') && !CharAt(behind, 0, '\t')
    && lead == "<<" + dash + blanks
  }

  /** A tag with its delimiter between quotes. */
  lemma QuotedTag(before: string, lead: string, dash: string, blanks: string, quote: char, inner: string, rest: string)
    requires (quote == '\'' || quote == '"') && quote !in inner
    requires TagOpens(lead, dash, blanks, [quote] + inner + [quote] + rest)
    ensures ReadHeredocTag(before + lead + [quote] + inner + [quote] + rest, |before|) ==
      if inner == "" then None else Some(Tag(|before + lead| + |inner| + 2, inner, dash == "-"))
  {
    hide TagOpens, SkipBlanks, BareDelimiter;
    var behind := [quote] + inner + [quote] + rest;
    var s := before + lead + [quote] + inner + [quote] + rest;
    assert s == before + lead + behind;
    TagLeads(before, lead, dash, blanks, behind);
    var at := |before + lead|;
    assert s[at] == quote && s[at + 1 + |inner|] == quote;
    assert s[at + 1..at + 1 + |inner|] == inner;
    assert forall k :: at + 1 <= k < at + 1 + |inner| ==> s[k] == inner[k - at - 1];
    IndexOfCharIs(s, quote, at + 1, at + 1 + |inner|);
  }

  /** A quote that is never closed makes no tag. */
  lemma OpenTag(before: string, lead: string, dash: string, blanks: string, quote: char, rest: string)
    requires (quote == '\'' || quote == '"') && quote !in rest && TagOpens(lead, dash, blanks, [quote] + rest)
    ensures ReadHeredocTag(before + lead + [quote] + rest, |before|) == None
  {
    var s, at := before + lead + [quote] + rest, |before + lead|;
    assert s == before + lead + ([quote] + rest);
    TagLeads(before, lead, dash, blanks, [quote] + rest);
    assert s[at] == quote && s[at + 1..] == rest;
    var close := IndexOfChar(s, quote, at + 1);
    assert forall k :: at + 1 <= k < |s| ==> s[k] == rest[k - at - 1];
  }

  /** A tag with a plain word. */
  lemma BareTag(before: string, lead: string, dash: string, blanks: string, word: string, delimiter: string, rest: string)
    requires TagOpens(lead, dash, blanks, word + rest) && !CharAt(word + rest, 0, '\'') && !CharAt(word + rest, 0, '"')
    requires StandsFor(word, delimiter) && (rest == "" || EndsWord(rest[0]))
    ensures ReadHeredocTag(before + lead + word + rest, |before|) ==
      if delimiter == "" then None else Some(Tag(|before + lead + word|, delimiter, dash == "-"))
  {
    var s, at := before + lead + word + rest, |before + lead|;
    assert s == before + lead + (word + rest);
    TagLeads(before, lead, dash, blanks, word + rest);
    assert |word + rest| > 0 ==> s[at] == (word + rest)[0];
    BareWord(before + lead, word, delimiter, rest);
  }

  lemma {:induction false} BareWord(before: string, word: string, delimiter: string, rest: string)
    requires StandsFor(word, delimiter) && (rest == "" || EndsWord(rest[0]))
    ensures BareDelimiter(before + word + rest, |before|) == (delimiter, |before + word|)
    decreases |word|
  {
    var s, at := before + word + rest, |before|;
    if word == "" {
      assert |s| > at ==> s[at] == rest[0] && DelimiterEnd(rest[0]) by {
        if |s| > at {
          EndsWordIs(rest[0]);
        }
      }
    } else if word[0] == '\\' {
      assert s == (before + word[..2]) + word[2..] + rest && s[at] == '\\';
      BareWord(before + word[..2], word[2..], delimiter, rest);
    } else {
      assert s == (before + [word[0]]) + word[1..] + rest && s[at] == word[0];
      EndsWordIs(word[0]);
      BareWord(before + [word[0]], word[1..], delimiter[1..], rest);
      assert |(before + [word[0]]) + word[1..]| == |before + word|;
      assert [word[0]] + delimiter[1..] == delimiter;
    }
  }

  lemma EndsWordIs(c: char)
    ensures EndsWord(c) <==> DelimiterEnd(c)
  {
  }

  lemma TagLeads(before: string, lead: string, dash: string, blanks: string, behind: string)
    requires TagOpens(lead, dash, blanks, behind)
    ensures var s := before + lead + behind;
      && CharAt(s, |before| + 2, '-') == (dash == "-")
      && SkipBlanks(s, if dash == "-" then |before| + 3 else |before| + 2) == |before + lead|
  {
    var s, at := before + lead + behind, |before| + 2 + |dash|;
    assert |lead| == 2 + |dash| + |blanks|;
    assert forall k :: 0 <= k < |lead| ==> s[|before| + k] == lead[k];
    assert forall k :: 0 <= k < |blanks| ==> s[at + k] == blanks[k];
    assert behind != "" ==> s[|before + lead|] == behind[0];
    SkipBlanksTo(s, at, |before + lead|);
  }

  lemma {:induction false} SkipBlanksTo(s: string, at: nat, end: nat)
    requires at <= end <= |s| && (forall k :: at <= k < end ==> s[k] == ' ' || s[k] == '\t')
    requires !CharAt(s, end, ' ') && !CharAt(s, end, '\t')
    ensures SkipBlanks(s, at) == end
    decreases end - at
  {
    if at < end {
      SkipBlanksTo(s, at + 1, end);
    }
  }

  lemma IndexOfCharIs(s: string, c: char, from: nat, at: nat)
    requires from <= at < |s| && s[at] == c && forall k :: from <= k < at ==> s[k] != c
    ensures IndexOfChar(s, c, from) == at
  {
  }
}
