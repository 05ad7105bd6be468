/** `sanitizeCourse`: the cleaner applied to every course name a user types
    during registration. It deletes unusual characters, turns every run of
    whitespace into one space and trims both ends. */
module Sanitize {
  import opened Text

  /** The letters of `\p{L}` in the scripts the bot's users write: ASCII,
      the Latin-1 letters (with ª, µ and º), Latin Extended-A and B, the IPA
      letters and the modifier letters (among them ʻ and ʼ of the Uzbek Latin
      oʻ and gʻ), and Cyrillic with its supplement. */
  predicate IsLetter(c: char) {
    ('A' <= c <= 'Z') || ('a' <= c <= 'z')
    || c == '\U{00AA}' || c == '\U{00B5}' || c == '\U{00BA}'
    || ('\U{00C0}' <= c <= '\U{02C1}' && c != '\U{00D7}' && c != '\U{00F7}')
    || ('\U{02C6}' <= c <= '\U{02D1}') || ('\U{02E0}' <= c <= '\U{02E4}')
    || c == '\U{02EC}' || c == '\U{02EE}'
    || ('\U{0400}' <= c <= '\U{0481}') || ('\U{048A}' <= c <= '\U{052F}')
  }

  /** The numbers of `\p{N}` in the same range: the ASCII digits, the
      superscripts ¹ ² ³ and the fractions ¼ ½ ¾. */
  predicate IsDigit(c: char) {
    ('0' <= c <= '9')
    || c == '\U{00B2}' || c == '\U{00B3}' || c == '\U{00B9}'
    || ('\U{00BC}' <= c <= '\U{00BE}')
  }

  /** The characters the first replacement keeps: `[\p{L}\p{N}\s\-,.]`. */
  predicate IsKept(c: char) {
    IsLetter(c) || IsDigit(c) || IsWhitespace(c) || c == '-' || c == ',' || c == '.'
  }

  /** The characters a sanitised course name is made of. */
  predicate IsCourseChar(c: char) {
    IsLetter(c) || IsDigit(c) || c == ' ' || c == '-' || c == ',' || c == '.'
  }

  predicate NoDoubleWhitespace(s: string) {
    forall i :: 0 <= i < |s| - 1 ==> !(IsWhitespace(s[i]) && IsWhitespace(s[i + 1]))
  }

  /** What `sanitizeCourse` promises of its result. */
  predicate IsCleanCourse(s: string) {
    && (forall i :: 0 <= i < |s| ==> IsCourseChar(s[i]))
    && NoDoubleWhitespace(s)
    && (s == [] || (!IsWhitespace(s[0]) && !IsWhitespace(s[|s| - 1])))
  }

  /** `replace(/[^\p{L}\p{N}\s\-,.]/gu, "")` */
  function RemoveUnusual(s: string): string
  {
    if s == [] then []
    else (if IsKept(s[0]) then [s[0]] else []) + RemoveUnusual(s[1..])
  }

  /** `replace(/\s+/g, " ")` */
  function CollapseWhitespace(s: string): string
    decreases |s|
  {
    if s == [] then []
    else if IsWhitespace(s[0]) then
      var rest := TrimStart(s);
      assert |rest| < |s|;
      [' '] + CollapseWhitespace(rest)
    else [s[0]] + CollapseWhitespace(s[1..])
  }

  /** `sanitizeCourse(text)`; a falsy text gives the empty string. */
  function SanitizeCourse(text: string): (r: string)
    ensures text == [] ==> r == []
  {
    Trim(CollapseWhitespace(RemoveUnusual(text)))
  }

  /** Only kept characters survive the first replacement. */
  lemma {:induction false} RemoveUnusualKept(s: string)
    ensures forall i :: 0 <= i < |RemoveUnusual(s)| ==> IsKept(RemoveUnusual(s)[i])
  {
    if s != [] {
      RemoveUnusualKept(s[1..]);
      var head := if IsKept(s[0]) then [s[0]] else [];
      var rest := RemoveUnusual(s[1..]);
      assert RemoveUnusual(s) == head + rest;
      forall i | |head| <= i < |head + rest| ensures (head + rest)[i] == rest[i - |head|] {
      }
    }
  }

  /** Every kept character survives the first replacement, as often as it
      occurs; only the characters outside the class are removed. */
  lemma {:induction false} RemoveUnusualKeepsKept(s: string)
    ensures forall c :: IsKept(c) ==> multiset(RemoveUnusual(s))[c] == multiset(s)[c]
    ensures forall c :: !IsKept(c) ==> multiset(RemoveUnusual(s))[c] == 0
  {
    if s != [] {
      RemoveUnusualKeepsKept(s[1..]);
      var head := if IsKept(s[0]) then [s[0]] else [];
      assert RemoveUnusual(s) == head + RemoveUnusual(s[1..]);
      assert s == [s[0]] + s[1..];
    }
  }

  /** After the second replacement every whitespace character is a single
      space. */
  lemma {:induction false} CollapseSpaces(s: string)
    ensures forall i :: 0 <= i < |CollapseWhitespace(s)| && IsWhitespace(CollapseWhitespace(s)[i]) ==>
      CollapseWhitespace(s)[i] == ' '
    decreases |s|
  {
    if s != [] {
      var next := if IsWhitespace(s[0]) then TrimStart(s) else s[1..];
      var head := if IsWhitespace(s[0]) then ' ' else s[0];
      CollapseSpaces(next);
      var rest := CollapseWhitespace(next);
      var r := [head] + rest;
      assert CollapseWhitespace(s) == r;
      forall i | 1 <= i < |r| ensures r[i] == rest[i - 1] {
      }
    }
  }

  /** After the second replacement no two whitespace characters are
      adjacent, and the text starts with a space exactly where it started
      with whitespace. */
  lemma {:induction false} CollapseNoDouble(s: string)
    ensures NoDoubleWhitespace(CollapseWhitespace(s))
    ensures s != [] ==>
      (CollapseWhitespace(s) != [] && CollapseWhitespace(s)[0] == (if IsWhitespace(s[0]) then ' ' else s[0]))
    decreases |s|
  {
    if s != [] {
      var next := if IsWhitespace(s[0]) then TrimStart(s) else s[1..];
      var head := if IsWhitespace(s[0]) then ' ' else s[0];
      CollapseNoDouble(next);
      var rest := CollapseWhitespace(next);
      var r := [head] + rest;
      assert CollapseWhitespace(s) == r;
      forall i | 0 <= i < |r| - 1 ensures !(IsWhitespace(r[i]) && IsWhitespace(r[i + 1])) {
        assert r[i + 1] == rest[i];
        if i > 0 {
          assert r[i] == rest[i - 1];
        } else if IsWhitespace(s[0]) {
          assert rest[0] == next[0];
        }
      }
    }
  }

  /** Deleting characters brings in no new one. */
  lemma {:induction false} RemoveUnusualSubset(s: string)
    ensures forall c :: c in RemoveUnusual(s) ==> c in s
  {
    if s != [] {
      RemoveUnusualSubset(s[1..]);
    }
  }

  /** Collapsing whitespace brings in no character but the space. */
  lemma {:induction false} CollapseAddsOnlySpaces(s: string)
    ensures forall c :: c in CollapseWhitespace(s) ==> c in s || c == ' '
    decreases |s|
  {
    if s != [] {
      if IsWhitespace(s[0]) {
        var rest := TrimStart(s);
        CollapseAddsOnlySpaces(rest);
        forall c | c in rest ensures c in s {
          var k :| 0 <= k < |rest| && rest[k] == c;
          assert s[|s| - |rest| + k] == c;
        }
      } else {
        CollapseAddsOnlySpaces(s[1..]);
      }
    }
  }

  /** A slice of a string keeps every per-character property of it. */
  lemma SliceKeepsShape(s: string, i: int, j: int)
    requires 0 <= i <= j <= |s|
    requires forall k :: 0 <= k < |s| ==> IsKept(s[k]) && (IsWhitespace(s[k]) ==> s[k] == ' ')
    requires NoDoubleWhitespace(s)
    ensures forall k :: 0 <= k < j - i ==> IsCourseChar(s[i..j][k])
    ensures NoDoubleWhitespace(s[i..j])
  {
    forall k | 0 <= k < j - i ensures IsCourseChar(s[i..j][k]) {
      assert s[i..j][k] == s[i + k];
    }
    forall k | 0 <= k < j - i - 1 ensures !(IsWhitespace(s[i..j][k]) && IsWhitespace(s[i..j][k + 1])) {
      assert s[i..j][k] == s[i + k] && s[i..j][k + 1] == s[i + k + 1];
    }
  }

  /** After the first two replacements every character is kept and every
      whitespace character is a space. */
  lemma CollapsedShape(text: string)
    ensures forall k :: 0 <= k < |CollapseWhitespace(RemoveUnusual(text))| ==>
      var c := CollapseWhitespace(RemoveUnusual(text))[k];
      IsKept(c) && (IsWhitespace(c) ==> c == ' ')
    ensures NoDoubleWhitespace(CollapseWhitespace(RemoveUnusual(text)))
  {
    var kept := RemoveUnusual(text);
    var collapsed := CollapseWhitespace(kept);
    RemoveUnusualKept(text);
    CollapseSpaces(kept);
    CollapseNoDouble(kept);
    CollapseAddsOnlySpaces(kept);
    forall k | 0 <= k < |collapsed|
      ensures IsKept(collapsed[k]) && (IsWhitespace(collapsed[k]) ==> collapsed[k] == ' ')
    {
      var c := collapsed[k];
      assert c in collapsed;
      if !IsWhitespace(c) {
        assert c in kept;
        var m :| 0 <= m < |kept| && kept[m] == c;
      }
    }
  }

  /** The result holds only letters, digits, spaces, '-', ',' and '.', never two
      whitespace characters in a row and none at either end. */
  lemma SanitizeIsClean(text: string)
    ensures IsCleanCourse(SanitizeCourse(text))
  {
    var collapsed := CollapseWhitespace(RemoveUnusual(text));
    CollapsedShape(text);
    var i, j := TrimIsSlice(collapsed);
    SliceKeepsShape(collapsed, i, j);
  }

  /** Trimming brings in no new character. */
  lemma TrimKeepsChars(s: string)
    ensures forall c :: c in Trim(s) ==> c in s
  {
    var i, j := TrimIsSlice(s);
    forall c | c in s[i..j] ensures c in s {
      var k :| 0 <= k < j - i && s[i..j][k] == c;
      assert s[i + k] == c;
    }
  }

  /** Sanitising only deletes characters and writes spaces: it never brings in
      any other character. */
  lemma SanitizeAddsOnlySpaces(text: string)
    ensures forall c :: c in SanitizeCourse(text) ==> c in text || c == ' '
  {
    var kept := RemoveUnusual(text);
    var collapsed := CollapseWhitespace(kept);
    RemoveUnusualSubset(text);
    CollapseAddsOnlySpaces(kept);
    TrimKeepsChars(collapsed);
  }

  lemma {:induction false} RemoveUnusualKeepsClean(s: string)
    requires forall i :: 0 <= i < |s| ==> IsCourseChar(s[i])
    ensures RemoveUnusual(s) == s
  {
    if s != [] {
      RemoveUnusualKeepsClean(s[1..]);
      assert [s[0]] + s[1..] == s;
    }
  }

  lemma {:induction false} CollapseKeepsClean(s: string)
    requires forall i :: 0 <= i < |s| ==> IsWhitespace(s[i]) ==> s[i] == ' '
    requires NoDoubleWhitespace(s)
    ensures CollapseWhitespace(s) == s
    decreases |s|
  {
    if s != [] {
      var t := s[1..];
      forall i | 0 <= i < |t| ensures IsWhitespace(t[i]) ==> t[i] == ' ' {
        assert t[i] == s[i + 1];
      }
      forall i | 0 <= i < |t| - 1 ensures !(IsWhitespace(t[i]) && IsWhitespace(t[i + 1])) {
        assert t[i] == s[i + 1] && t[i + 1] == s[i + 2];
      }
      CollapseKeepsClean(t);
      if IsWhitespace(s[0]) {
        if t != [] {
          assert t[0] == s[1];
          assert !IsWhitespace(t[0]);
        }
        assert TrimStart(s) == t;
        assert CollapseWhitespace(s) == [' '] + CollapseWhitespace(t);
      } else {
        assert CollapseWhitespace(s) == [s[0]] + CollapseWhitespace(t);
      }
      assert [s[0]] + t == s;
    }
  }

  /** A clean course name is its own sanitisation. */
  lemma CleanIsFixedPoint(s: string)
    requires IsCleanCourse(s)
    ensures SanitizeCourse(s) == s
  {
    RemoveUnusualKeepsClean(s);
    CollapseKeepsClean(s);
    assert TrimStart(s) == s;
    assert TrimEnd(s) == s;
  }

  /** Sanitising twice is the same as sanitising once. */
  lemma SanitizeIdempotent(text: string)
    ensures SanitizeCourse(SanitizeCourse(text)) == SanitizeCourse(text)
  {
    SanitizeIsClean(text);
    CleanIsFixedPoint(SanitizeCourse(text));
  }
}
