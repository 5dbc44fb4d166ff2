/** Escaping and quoting of message text in `format_message_content` (src/note_generator.py). */
module Markdown {

  /** `str.replace` of a single character. */
  function Replace(s: string, c: char, with: string): string {
    if s == "" then "" else (if s[0] == c then with else [s[0]]) + Replace(s[1..], c, with)
  }

  /** The six successive replacements, in the order of the source. */
  function EscapeChain(text: string): string {
    var t1 := Replace(text, '\\', "\\\\");
    var t2 := Replace(t1, '*', "\\*");
    var t3 := Replace(t2, '_', "\\_");
    var t4 := Replace(t3, '[', "\\[");
    var t5 := Replace(t4, ']', "\\]");
    Replace(t5, '`', "\\`")
  }

  /** The quoted block a nonempty text becomes; an empty one leaves nothing. */
  function MessageText(text: string): string {
    if text == "" then "" else "> " + Replace(EscapeChain(text), '\n', "\n> ") + "\n\n"
  }

  predicate Special(c: char) { c == '\\' || c == '*' || c == '_' || c == '[' || c == ']' || c == '`' }

  /** The six characters of the source. */
  lemma SpecialIff(c: char)
    ensures Special(c) <==> c in "\\*_[]`"
  {
  }

  /** The single pass: a backslash before each special character. */
  function Escape(text: string): string {
    if text == "" then "" else (if Special(text[0]) then ['\\', text[0]] else [text[0]]) + Escape(text[1..])
  }

  function Unescape(s: string): string {
    if s == "" then ""
    else if s[0] == '\\' && |s| >= 2 then [s[1]] + Unescape(s[2..])
    else [s[0]] + Unescape(s[1..])
  }

  /** Drops the two characters after each newline. */
  function Unquote(s: string): string {
    if s == "" then ""
    else if s[0] == '\n' && |s| >= 3 then ['\n'] + Unquote(s[3..])
    else [s[0]] + Unquote(s[1..])
  }

  function Recover(block: string): string {
    if |block| < 4 then "" else Unescape(Unquote(block[2..|block| - 2]))
  }

  lemma {:induction false} ReplaceConcat(a: string, b: string, c: char, with: string)
    ensures Replace(a + b, c, with) == Replace(a, c, with) + Replace(b, c, with)
  {
    if a == "" {
      assert a + b == b;
    } else {
      assert (a + b)[1..] == a[1..] + b;
      ReplaceConcat(a[1..], b, c, with);
    }
  }

  lemma ReplaceTwo(x: char, y: char, c: char, with: string)
    ensures Replace([x], c, with) == if x == c then with else [x]
    ensures x != c && y != c ==> Replace([x, y], c, with) == [x, y]
  {
    assert [x][1..] == "";
    assert [x, y][1..] == [y];
    assert [y][1..] == "";
  }

  lemma ChainConcat(a: string, b: string)
    ensures EscapeChain(a + b) == EscapeChain(a) + EscapeChain(b)
  {
    var a1, b1 := Replace(a, '\\', "\\\\"), Replace(b, '\\', "\\\\");
    var a2, b2 := Replace(a1, '*', "\\*"), Replace(b1, '*', "\\*");
    var a3, b3 := Replace(a2, '_', "\\_"), Replace(b2, '_', "\\_");
    var a4, b4 := Replace(a3, '[', "\\["), Replace(b3, '[', "\\[");
    var a5, b5 := Replace(a4, ']', "\\]"), Replace(b4, ']', "\\]");
    ReplaceConcat(a, b, '\\', "\\\\");
    ReplaceConcat(a1, b1, '*', "\\*");
    ReplaceConcat(a2, b2, '_', "\\_");
    ReplaceConcat(a3, b3, '[', "\\[");
    ReplaceConcat(a4, b4, ']', "\\]");
    ReplaceConcat(a5, b5, '`', "\\`");
  }

  lemma ChainOfOne(x: char)
    ensures EscapeChain([x]) == if Special(x) then ['\\', x] else [x]
  {
    ReplaceTwo(x, x, '\\', "\\\\");
    ReplaceTwo(x, x, '*', "\\*");
    ReplaceTwo(x, x, '_', "\\_");
    ReplaceTwo(x, x, '[', "\\[");
    ReplaceTwo(x, x, ']', "\\]");
    ReplaceTwo(x, x, '`', "\\`");
    ReplaceTwo('\\', x, '*', "\\*");
    ReplaceTwo('\\', x, '_', "\\_");
    ReplaceTwo('\\', x, '[', "\\[");
    ReplaceTwo('\\', x, ']', "\\]");
    ReplaceTwo('\\', x, '`', "\\`");
  }

  /** The six replacements are one simultaneous escape: none of them touches what another inserted. */
  lemma {:induction false} ChainIsSinglePass(text: string)
    ensures EscapeChain(text) == Escape(text)
  {
    if text != "" {
      assert text == [text[0]] + text[1..];
      ChainConcat([text[0]], text[1..]);
      ChainOfOne(text[0]);
      ChainIsSinglePass(text[1..]);
    }
  }

  lemma {:induction false} UnescapeEscape(text: string)
    ensures Unescape(Escape(text)) == text
  {
    if text != "" {
      UnescapeEscape(text[1..]);
      var rest := Escape(text[1..]);
      if Special(text[0]) {
        assert (['\\', text[0]] + rest)[2..] == rest;
      } else {
        assert ([text[0]] + rest)[1..] == rest;
      }
    }
  }

  lemma {:induction false} UnquoteQuote(s: string)
    ensures Unquote(Replace(s, '\n', "\n> ")) == s
  {
    if s != "" {
      UnquoteQuote(s[1..]);
      var rest := Replace(s[1..], '\n', "\n> ");
      if s[0] == '\n' {
        assert ("\n> " + rest)[3..] == rest;
      } else {
        assert ([s[0]] + rest)[1..] == rest;
      }
    }
  }

  /** The text can be read back from the note, so two texts never give the same block. */
  lemma MessageTextRecovers(text: string)
    ensures Recover(MessageText(text)) == text
  {
    if text != "" {
      var quoted := Replace(EscapeChain(text), '\n', "\n> ");
      var block := "> " + quoted + "\n\n";
      assert block[2..|block| - 2] == quoted;
      UnquoteQuote(EscapeChain(text));
      ChainIsSinglePass(text);
      UnescapeEscape(text);
    }
  }

  lemma MessageTextInjective(a: string, b: string)
    requires MessageText(a) == MessageText(b)
    ensures a == b
  {
    MessageTextRecovers(a);
    MessageTextRecovers(b);
  }

  /** Reading from the left, every special character is the second of a pair that a backslash opens. */
  predicate WellEscaped(s: string) {
    if s == "" then true
    else if s[0] == '\\' then |s| >= 2 && Special(s[1]) && WellEscaped(s[2..])
    else !Special(s[0]) && WellEscaped(s[1..])
  }

  lemma {:induction false} EscapeIsWellEscaped(text: string)
    ensures WellEscaped(Escape(text))
  {
    if text != "" {
      EscapeIsWellEscaped(text[1..]);
      var rest := Escape(text[1..]);
      if Special(text[0]) {
        assert (['\\', text[0]] + rest)[2..] == rest;
      } else {
        assert ([text[0]] + rest)[1..] == rest;
      }
    }
  }

  /** Escaping is also complete on the way back: well-escaped text is the escape of what it reads as. */
  lemma {:induction false} WellEscapedIsEscape(s: string)
    requires WellEscaped(s)
    ensures Escape(Unescape(s)) == s
    decreases |s|
  {
    if s != "" {
      if s[0] == '\\' {
        WellEscapedIsEscape(s[2..]);
        assert ([s[1]] + Unescape(s[2..]))[1..] == Unescape(s[2..]);
        assert s == ['\\', s[1]] + s[2..];
      } else {
        WellEscapedIsEscape(s[1..]);
        assert ([s[0]] + Unescape(s[1..]))[1..] == Unescape(s[1..]);
        assert s == [s[0]] + s[1..];
      }
    }
  }

  ghost predicate LinesQuoted(s: string) {
    forall i :: 0 <= i < |s| && s[i] == '\n' ==> i + 2 < |s| && s[i + 1] == '>' && s[i + 2] == ' '
  }

  lemma {:induction false} QuotingMarksLines(s: string)
    ensures LinesQuoted(Replace(s, '\n', "\n> "))
  {
    if s != "" {
      QuotingMarksLines(s[1..]);
      var rest := Replace(s[1..], '\n', "\n> ");
      var whole := (if s[0] == '\n' then "\n> " else [s[0]]) + rest;
      var n := if s[0] == '\n' then 3 else 1;
      forall i | 0 <= i < |whole| && whole[i] == '\n'
        ensures i + 2 < |whole| && whole[i + 1] == '>' && whole[i + 2] == ' '
      {
        if i >= n {
          assert rest[i - n] == '\n';
          assert whole[i + 1] == rest[i - n + 1] && whole[i + 2] == rest[i - n + 2];
        }
      }
    }
  }

  /** The block of a nonempty text: the quote prefix, then escaped text in which every further line
      starts with the prefix, then one blank line. */
  lemma BlockShape(text: string)
    requires text != ""
    ensures exists body :: MessageText(text) == "> " + body + "\n\n" && LinesQuoted(body)
              && WellEscaped(Unquote(body)) && Unescape(Unquote(body)) == text
  {
    var body := Replace(EscapeChain(text), '\n', "\n> ");
    QuotingMarksLines(EscapeChain(text));
    UnquoteQuote(EscapeChain(text));
    ChainIsSinglePass(text);
    EscapeIsWellEscaped(text);
    UnescapeEscape(text);
    assert MessageText(text) == "> " + body + "\n\n";
  }
}
