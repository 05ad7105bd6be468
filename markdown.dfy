/** `escapeMarkdown`: the helper every handler uses before putting user text
    into a Telegram Markdown message. It puts one backslash in front of each
    Markdown-special character. The source defines it three times with the same
    body; it is modelled once here. */
module Markdown {

  /** The characters of the regular expression class `[_*\[\]()~`>#+=|{}.!-]`. */
  const Specials: string := "_*[]()~`>#+=|{}.!-"

  predicate IsSpecial(c: char) {
    c in Specials
  }

  /** Number of Markdown-special characters in `s`. */
  function CountSpecial(s: string): nat {
    if s == [] then 0 else (if IsSpecial(s[0]) then 1 else 0) + CountSpecial(s[1..])
  }

  /** `escapeMarkdown(text)`: a falsy text (undefined, null or "") is the empty
      string; otherwise every special character gets a backslash in front. */
  function EscapeMarkdown(text: string): (r: string)
    ensures |r| == |text| + CountSpecial(text)
    ensures r == [] ==> text == []
  {
    if text == [] then []
    else (if IsSpecial(text[0]) then ['\\', text[0]] else [text[0]]) + EscapeMarkdown(text[1..])
  }

  /** MarkdownV2's reading of an escaped string: a backslash followed by a
      special character stands for that character. (The bot sends in legacy
      Markdown, which drops the backslash only before `_`, `*`, `` ` `` and
      `[`.) */
  function Unescape(s: string): string
    decreases |s|
  {
    if s == [] then []
    else if |s| >= 2 && s[0] == '\\' && IsSpecial(s[1]) then [s[1]] + Unescape(s[2..])
    else [s[0]] + Unescape(s[1..])
  }

  /** An escaped string never starts with a special character. */
  lemma {:induction false} EscapedHead(text: string)
    requires text != []
    ensures !IsSpecial(EscapeMarkdown(text)[0])
  {
    assert !IsSpecial('\\');
  }

  /** Escaping loses nothing: reading the escaped text gives the original back. */
  lemma {:induction false} UnescapeEscape(text: string)
    ensures Unescape(EscapeMarkdown(text)) == text
  {
    if text != [] {
      var tail := EscapeMarkdown(text[1..]);
      UnescapeEscape(text[1..]);
      if IsSpecial(text[0]) {
        assert EscapeMarkdown(text) == ['\\', text[0]] + tail;
        assert (['\\', text[0]] + tail)[2..] == tail;
      } else {
        assert EscapeMarkdown(text) == [text[0]] + tail;
        assert ([text[0]] + tail)[1..] == tail;
        if text[0] == '\\' && tail != [] {
          EscapedHead(text[1..]);
        }
      }
      assert [text[0]] + text[1..] == text;
    }
  }

  /** Two different texts never escape to the same string. */
  lemma EscapeInjective(a: string, b: string)
    requires EscapeMarkdown(a) == EscapeMarkdown(b)
    ensures a == b
  {
    UnescapeEscape(a);
    UnescapeEscape(b);
  }

  /** Every special character in the escaped text has a backslash right before it. */
  lemma {:induction false} SpecialsArePrefixed(text: string, i: int)
    requires 0 <= i < |EscapeMarkdown(text)| && IsSpecial(EscapeMarkdown(text)[i])
    ensures i > 0 && EscapeMarkdown(text)[i - 1] == '\\'
  {
    var head := if IsSpecial(text[0]) then ['\\', text[0]] else [text[0]];
    var tail := EscapeMarkdown(text[1..]);
    assert EscapeMarkdown(text) == head + tail;
    if i >= |head| {
      assert EscapeMarkdown(text)[i] == tail[i - |head|];
      if i - |head| == 0 {
        EscapedHead(text[1..]);
      } else {
        SpecialsArePrefixed(text[1..], i - |head|);
      }
    }
  }
}
