/** Quoting a value for the shell, against a scanner that follows sections 2.2.2
    and 2.2.3 of the Shell Command Language of POSIX.1-2017. */
module ShellQuote {

  /** Single quotes around the value; each single quote inside is closed, written in
      double quotes, and opened again. */
  function Quote(value: string): string {
    "'" + Escaped(value) + "'"
  }

  function Escaped(value: string): string {
    if value == "" then ""
    else (if value[0] == '\'' then "'\"'\"'" else [value[0]]) + Escaped(value[1..])
  }

  // ----- the scanner -----

  datatype Mode = Plain | Single | Double

  /** `Scanned` holds the words read and the quoting at the end of the input;
      `Refused` means the input holds something that is not a simple word. */
  datatype Reading = Scanned(words: seq<string>, mode: Mode) | Refused

  /** The word being read, if one has begun. */
  datatype Word = NoWord | Begun(text: string)

  predicate IsBlank(c: char) {
    c == ' ' || c == '\t' || c == '\n'
  }

  /** Characters with a meaning of their own outside quotes. */
  predicate IsSpecial(c: char) {
    c in "|&;<>()$`\\#*?[]~=%!{}"
  }

  predicate IsOrdinary(c: char) {
    !IsBlank(c) && !IsSpecial(c) && c != '\'' && c != '"' && c != '\0'
  }

  function Extend(w: Word, c: char): Word {
    Begun((if w.Begun? then w.text else "") + [c])
  }

  function Begin(w: Word): Word {
    if w.Begun? then w else Begun("")
  }

  function Finish(words: seq<string>, w: Word): seq<string> {
    if w.Begun? then words + [w.text] else words
  }

  function Scan(s: string, mode: Mode, words: seq<string>, w: Word): Reading
    decreases |s|
  {
    if s == "" then Scanned(Finish(words, w), mode)
    else
      var c, rest := s[0], s[1..];
      if c == '\0' then Refused
      else
        match mode
        case Plain =>
          if c == '\'' then Scan(rest, Single, words, Begin(w))
          else if c == '"' then Scan(rest, Double, words, Begin(w))
          else if IsBlank(c) then Scan(rest, Plain, Finish(words, w), NoWord)
          else if IsSpecial(c) then Refused
          else Scan(rest, Plain, words, Extend(w, c))
        case Single =>
          if c == '\'' then Scan(rest, Plain, words, w) else Scan(rest, Single, words, Extend(w, c))
        case Double =>
          if c == '"' then Scan(rest, Plain, words, w)
          else if c in "$`\\" then Refused
          else Scan(rest, Double, words, Extend(w, c))
  }

  function Read(s: string): Reading {
    Scan(s, Plain, [], NoWord)
  }

  // ----- the round trip -----

  predicate NulFree(s: string) {
    '\0' !in s
  }

  /** The five characters that stand for one quote. */
  lemma EscapedQuote(rest: string, words: seq<string>, w: Word)
    requires w.Begun?
    ensures Scan("'\"'\"'" + rest, Single, words, w) == Scan(rest, Single, words, Extend(w, '\''))
  {
    var s := "'\"'\"'" + rest;
    assert s[1..][1..][1..][1..][1..] == rest;
    assert s[0] == '\'' && s[1] == '"' && s[2] == '\'' && s[3] == '"' && s[4] == '\'';
    assert Scan(s[1..], Plain, words, w) == Scan(s[1..][1..], Double, words, w);
    assert Scan(s[1..][1..], Double, words, w) == Scan(s[1..][1..][1..], Double, words, Extend(w, '\''));
    var w' := Extend(w, '\'');
    assert Scan(s[1..][1..][1..], Double, words, w') == Scan(s[1..][1..][1..][1..], Plain, words, w');
  }

  /** Inside the quotes, the escaped value is read back character by character; a
      NUL stops it. */
  lemma {:induction false} EscapedIsRead(s: string, rest: string, words: seq<string>, w: Word)
    requires w.Begun?
    ensures Scan(Escaped(s) + "'" + rest, Single, words, w) ==
              if NulFree(s) then Scan(rest, Plain, words, Begun(w.text + s)) else Refused
  {
    var input := Escaped(s) + "'" + rest;
    if s == "" {
      assert input == "'" + rest && input[1..] == rest;
      assert w.text + s == w.text;
    } else {
      var tail := Escaped(s[1..]) + "'" + rest;
      assert NulFree(s) <==> s[0] != '\0' && NulFree(s[1..]);
      assert w.text + s == (w.text + [s[0]]) + s[1..];
      if s[0] == '\'' {
        assert input == "'\"'\"'" + tail;
        EscapedQuote(tail, words, w);
      } else {
        assert input == [s[0]] + tail && input[1..] == tail;
      }
      if s[0] != '\0' { EscapedIsRead(s[1..], rest, words, Extend(w, s[0])); }
    }
  }

  lemma {:induction false} PrefixIsRead(p: string, rest: string, words: seq<string>, w: Word)
    requires forall k :: 0 <= k < |p| ==> IsOrdinary(p[k])
    ensures Scan(p + rest, Plain, words, w) ==
              Scan(rest, Plain, words, if p == "" then w else Begun((if w.Begun? then w.text else "") + p))
  {
    if p == "" {
      assert p + rest == rest;
    } else {
      assert (p + rest)[0] == p[0] && (p + rest)[1..] == p[1..] + rest;
      assert forall k :: 0 <= k < |p| - 1 ==> p[1..][k] == p[k + 1];
      PrefixIsRead(p[1..], rest, words, Extend(w, p[0]));
      var text := if w.Begun? then w.text else "";
      assert text + p == (text + [p[0]]) + p[1..];
      if |p| == 1 { assert text + p == text + [p[0]]; }
    }
  }

  /** For every value and every unquoted prefix of ordinary characters: the shell
      reads the quoted value as exactly one word, the prefix followed by the value,
      and ends unquoted, if and only if the value holds no NUL. */
  lemma QuoteRoundTrip(p: string, s: string)
    requires forall k :: 0 <= k < |p| ==> IsOrdinary(p[k])
    ensures Read(p + Quote(s)) == Scanned([p + s], Plain) <==> NulFree(s)
    ensures NulFree(s) || Read(p + Quote(s)) == Refused
  {
    PrefixIsRead(p, Quote(s), [], NoWord);
    var w := if p == "" then NoWord else Begun("" + p);
    assert "" + p == p;
    var body := Escaped(s) + "'" + "";
    assert Quote(s) == "'" + body && Quote(s)[1..] == body;
    EscapedIsRead(s, "", [], Begun(p));
    assert Begin(w) == Begun(p);
  }

  /** So different values are quoted differently. */
  lemma QuoteIsInjective(a: string, b: string)
    requires NulFree(a) && NulFree(b) && Quote(a) == Quote(b)
    ensures a == b
  {
    QuoteRoundTrip("", a);
    QuoteRoundTrip("", b);
    assert "" + a == a && "" + b == b;
    assert Read("" + Quote(a)) == Read("" + Quote(b));
  }
}
