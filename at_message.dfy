/**
  The mention matcher `AT_MESSAGE_MATCHER = re.compile(r'^\<@(\w+)\>:? (.*)$')`
  of slackbot/dispatcher.py, written out as a string function with Python's
  semantics for `re.match`: `\w` is the ASCII class [A-Za-z0-9_] (no UNICODE
  flag), `.` does not match a newline, and `$` matches at the end of the text
  or just before a newline that is the last character.
*/
module AtMessage {
  import opened Wrappers

  /** A character of Python's `\w` class without the UNICODE flag. */
  predicate IsWordChar(ch: char) {
    ('a' <= ch <= 'z') || ('A' <= ch <= 'Z') || ('0' <= ch <= '9') || ch == '_'
  }

  /** What `\w+` can capture: a non-empty run of word characters. */
  predicate WordId(s: string) {
    |s| > 0 && forall i :: 0 <= i < |s| ==> IsWordChar(s[i])
  }

  /** What `.*` can capture: text without a newline. */
  predicate NoNewline(s: string) {
    forall i :: 0 <= i < |s| ==> s[i] != '\n'
  }

  /** Length of the longest prefix of word characters: how far the greedy `\w+` reaches. */
  function WordRun(s: string): (n: nat)
    ensures n <= |s|
    ensures forall i :: 0 <= i < n ==> IsWordChar(s[i])
    ensures n < |s| ==> !IsWordChar(s[n])
  {
    if |s| == 0 || !IsWordChar(s[0]) then 0 else 1 + WordRun(s[1..])
  }

  /**
    `AT_MESSAGE_MATCHER.match(text)`: None when there is no match, otherwise the
    two groups (the mentioned id, the rest of the text).
  */
  function Match(text: string): Option<(string, string)>
  {
    if |text| < 2 || text[0] != '<' || text[1] != '@' then None
    else
      var n := WordRun(text[2..]);
      if n == 0 then None
      else
        match AfterId(text[2 + n..])
        case None => None
        case Some(rest) => Some((text[2..2 + n], rest))
  }

  /** The part of the pattern after `\w+`: `\>:? (.*)$`, giving the second group. */
  function AfterId(after: string): Option<string>
  {
    if |after| == 0 || after[0] != '>' then None
    else
      // `:?` takes the colon when there is one; giving it back cannot help,
      // since a colon is not the space that must follow.
      var sep := if |after| > 1 && after[1] == ':' then 2 else 1;
      if |after| <= sep || after[sep] != ' ' then None
      else LineRest(after[sep + 1..])
  }

  /** `(.*)$` at the end of the pattern: the rest of a line, then the end of the text. */
  function LineRest(tail: string): Option<string>
  {
    if NoNewline(tail) then Some(tail)
    else if tail[|tail| - 1] == '\n' && NoNewline(tail[..|tail| - 1]) then Some(tail[..|tail| - 1])
    else None
  }

  /**
    The texts the pattern describes: `<@id>`, an optional colon, one space,
    the rest, and optionally one final newline that `$` may stand before.
  */
  function MentionText(id: string, colon: bool, rest: string, newline: bool): string {
    "<@" + id + AfterText(colon, rest, newline)
  }

  /** The part of a mention text after the id. */
  function AfterText(colon: bool, rest: string, newline: bool): string {
    ">" + (if colon then ":" else "") + " " + rest + (if newline then "\n" else "")
  }

  /** `text` is a mention of `id` whose rest is `rest`, in the pattern's own terms. */
  ghost predicate IsMention(text: string, id: string, rest: string) {
    WordId(id) && NoNewline(rest) &&
    exists colon: bool, newline: bool :: text == MentionText(id, colon, rest, newline)
  }

  /** `\w+` stops exactly at the end of an id that is followed by a non-word character. */
  lemma {:induction false} WordRunOfId(id: string, s: string)
    requires WordId(id) && |s| > 0 && !IsWordChar(s[0])
    ensures WordRun(id + s) == |id|
  {
    if |id| > 1 {
      assert (id + s)[1..] == id[1..] + s;
      WordRunOfId(id[1..], s);
    } else {
      assert (id + s)[1..] == s;
    }
  }

  lemma LineRestComplete(rest: string, newline: bool)
    requires NoNewline(rest)
    ensures LineRest(rest + (if newline then "\n" else "")) == Some(rest)
  {
    if newline {
      var tail := rest + "\n";
      assert tail[|tail| - 1] == '\n';
      assert tail[..|tail| - 1] == rest;
    } else {
      assert rest + "" == rest;
    }
  }

  lemma LineRestSound(tail: string)
    requires LineRest(tail).Some?
    ensures NoNewline(LineRest(tail).value)
    ensures tail == LineRest(tail).value || tail == LineRest(tail).value + "\n"
  {
  }

  lemma AfterIdComplete(colon: bool, rest: string, newline: bool)
    requires NoNewline(rest)
    ensures AfterId(AfterText(colon, rest, newline)) == Some(rest)
  {
    var sepText := if colon then ":" else "";
    var nl := if newline then "\n" else "";
    var after := AfterText(colon, rest, newline);
    var sep := if |after| > 1 && after[1] == ':' then 2 else 1;
    assert sep == |sepText| + 1;
    assert after[sep] == ' ';
    assert after[sep + 1..] == rest + nl;
    LineRestComplete(rest, newline);
  }

  lemma AfterIdSound(after: string) returns (colon: bool, newline: bool)
    requires AfterId(after).Some?
    ensures NoNewline(AfterId(after).value)
    ensures after == AfterText(colon, AfterId(after).value, newline)
  {
    var sep := if |after| > 1 && after[1] == ':' then 2 else 1;
    var tail := after[sep + 1..];
    var rest := AfterId(after).value;
    LineRestSound(tail);
    colon := sep == 2;
    newline := tail != rest;
    assert after == ">" + (if colon then ":" else "") + " " + tail;
    assert tail == rest + (if newline then "\n" else "");
  }

  lemma IdIsWordId(text: string, n: nat)
    requires 2 + n <= |text| && n > 0
    requires forall i :: 0 <= i < n ==> IsWordChar(text[2..][i])
    ensures WordId(text[2..2 + n])
  {
    var id := text[2..2 + n];
    forall i | 0 <= i < |id| ensures IsWordChar(id[i]) {
      assert id[i] == text[2..][i];
    }
  }

  /** Every text of the mention shape matches, with exactly its id and rest as groups. */
  lemma MatchComplete(id: string, colon: bool, rest: string, newline: bool)
    requires WordId(id) && NoNewline(rest)
    ensures Match(MentionText(id, colon, rest, newline)) == Some((id, rest))
  {
    var text := MentionText(id, colon, rest, newline);
    var after := AfterText(colon, rest, newline);
    assert text[2..] == id + after;
    assert after[0] == '>';
    WordRunOfId(id, after);
    assert text[2..2 + |id|] == id;
    assert text[2 + |id|..] == after;
    AfterIdComplete(colon, rest, newline);
  }

  /** Whatever matches has the mention shape, with the groups as its id and rest. */
  lemma MatchSound(text: string)
    requires Match(text).Some?
    ensures IsMention(text, Match(text).value.0, Match(text).value.1)
  {
    var n := WordRun(text[2..]);
    var after := text[2 + n..];
    var id := text[2..2 + n];
    var rest := Match(text).value.1;
    IdIsWordId(text, n);
    var colon, newline := AfterIdSound(after);
    assert text == "<@" + id + after;
    assert text == MentionText(id, colon, rest, newline);
  }

  /** The matcher and the mention shape agree exactly: both directions. */
  lemma MatchIff(text: string, id: string, rest: string)
    ensures Match(text) == Some((id, rest)) <==> IsMention(text, id, rest)
  {
    if Match(text) == Some((id, rest)) {
      MatchSound(text);
    }
    if IsMention(text, id, rest) {
      var colon: bool, newline: bool :| text == MentionText(id, colon, rest, newline);
      MatchComplete(id, colon, rest, newline);
    }
  }

  /** A mention is longer than its rest: at least `<@`, one id character, `>` and the space. */
  lemma MentionIsLonger(text: string, id: string, rest: string)
    requires IsMention(text, id, rest)
    ensures |text| >= |rest| + 5
  {
    var colon: bool, newline: bool :| text == MentionText(id, colon, rest, newline);
  }

  /** A mention that does not stand at the very start of the text is not matched. */
  lemma OnlyPrefixMentions(lead: string, text: string)
    requires |lead| > 0 && lead[0] != '<'
    ensures Match(lead + text) == None
  {
  }
}
