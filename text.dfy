/** String helpers shared by the bot's handlers: the JavaScript string
    operations the handlers rely on (`split`, `join`, `trim`, `includes`,
    `toLowerCase`, number-to-string), written out over `seq<char>`. */
module Text {

  datatype Option<+T> = None | Some(value: T)

  /** JavaScript's `\s` class (and the characters `String.prototype.trim` removes). */
  predicate IsWhitespace(c: char) {
    c == ' ' || c == '\t' || c == '\n' || c == '\U{000B}' || c == '\U{000C}' || c == '\r'
    || c == '\U{00A0}' || c == '\U{1680}' || ('\U{2000}' <= c <= '\U{200A}')
    || c == '\U{2028}' || c == '\U{2029}' || c == '\U{202F}' || c == '\U{205F}'
    || c == '\U{3000}' || c == '\U{FEFF}'
  }

  /** No character of `s` is one of `seps`. */
  predicate NoneOf(s: string, seps: set<char>) {
    forall i :: 0 <= i < |s| ==> s[i] !in seps
  }

  /** `s.split(re)` where `re` matches exactly one character of `seps`:
      "a,b" gives ["a", "b"], "" gives [""], "a," gives ["a", ""]. */
  function Split(s: string, seps: set<char>): (parts: seq<string>)
    ensures |parts| >= 1
    ensures forall i :: 0 <= i < |parts| ==> NoneOf(parts[i], seps)
  {
    if s == [] then [[]]
    else
      var rest := Split(s[1..], seps);
      if s[0] in seps then [[]] + rest else [[s[0]] + rest[0]] + rest[1..]
  }

  /** `parts.join(d)` for a one-character separator. */
  function Join(parts: seq<string>, d: char): string {
    if |parts| == 0 then []
    else if |parts| == 1 then parts[0]
    else parts[0] + [d] + Join(parts[1..], d)
  }

  /** Splitting on `d` and joining with `d` gives back the original string. */
  lemma {:induction false} JoinSplit(s: string, d: char)
    ensures Join(Split(s, {d}), d) == s
  {
    if s != [] {
      JoinSplit(s[1..], d);
      var rest := Split(s[1..], {d});
      if s[0] == d {
        assert Split(s, {d}) == [[]] + rest;
      } else {
        var parts := [[s[0]] + rest[0]] + rest[1..];
        assert Split(s, {d}) == parts;
        if |rest| == 1 {
          assert Join(parts, d) == [s[0]] + rest[0] == [s[0]] + Join(rest, d);
        } else {
          assert parts[1..] == rest[1..];
          assert Join(parts, d) == [s[0]] + (rest[0] + [d] + Join(rest[1..], d));
        }
      }
    }
  }

  /** A string with no separator in it splits into itself alone. */
  lemma {:induction false} SplitNoSeparator(s: string, seps: set<char>)
    requires NoneOf(s, seps)
    ensures Split(s, seps) == [s]
  {
    if s != [] {
      assert s[0] !in seps && NoneOf(s[1..], seps);
      SplitNoSeparator(s[1..], seps);
      assert [s[0]] + s[1..] == s;
    }
  }

  /** A leading field without separators comes off as the first part. */
  lemma {:induction false} SplitPrefix(a: string, d: char, b: string, seps: set<char>)
    requires NoneOf(a, seps) && d in seps
    ensures Split(a + [d] + b, seps) == [a] + Split(b, seps)
  {
    if a == [] {
      assert a + [d] + b == [d] + b;
      assert ([d] + b)[1..] == b;
    } else {
      assert (a + [d] + b)[1..] == a[1..] + [d] + b;
      SplitPrefix(a[1..], d, b, seps);
      assert [a[0]] + a[1..] == a;
    }
  }

  /** Joining fields that hold no separator and splitting again gives the fields back. */
  lemma {:induction false} SplitJoin(parts: seq<string>, d: char, seps: set<char>)
    requires |parts| >= 1 && d in seps
    requires forall i :: 0 <= i < |parts| ==> NoneOf(parts[i], seps)
    ensures Split(Join(parts, d), seps) == parts
  {
    if |parts| == 1 {
      SplitNoSeparator(parts[0], seps);
    } else {
      SplitJoin(parts[1..], d, seps);
      SplitPrefix(parts[0], d, Join(parts[1..], d), seps);
      assert [parts[0]] + parts[1..] == parts;
    }
  }

  /** `sub` occurs in `s` starting at index `i`. */
  predicate OccursAt(s: string, sub: string, i: int) {
    0 <= i <= |s| - |sub| && s[i..i + |sub|] == sub
  }

  /** `s.includes(sub)`, searched from the front. */
  predicate Contains(s: string, sub: string)
    decreases |s|
  {
    |sub| <= |s| && (s[..|sub|] == sub || Contains(s[1..], sub))
  }

  /** A window of `s[1..]` is the window of `s` one position further on. */
  lemma DropOneSlice(s: string, i: int, n: int)
    requires 0 <= i && 0 <= n && i + n < |s|
    ensures s[1..][i..i + n] == s[i + 1..i + 1 + n]
  {
    var a, b := s[1..][i..i + n], s[i + 1..i + 1 + n];
    forall k | 0 <= k < n ensures a[k] == b[k] {
    }
  }

  /** `Contains` holds exactly when the text occurs at some position. */
  lemma {:induction false} ContainsOccurs(s: string, sub: string)
    ensures Contains(s, sub) <==> exists i :: OccursAt(s, sub, i)
    decreases |s|
  {
    if |sub| <= |s| && s[..|sub|] != sub {
      ContainsOccurs(s[1..], sub);
      if exists i :: OccursAt(s, sub, i) {
        var i :| OccursAt(s, sub, i);
        assert i != 0;
        DropOneSlice(s, i - 1, |sub|);
        assert OccursAt(s[1..], sub, i - 1);
      }
      if exists i :: OccursAt(s[1..], sub, i) {
        var i :| OccursAt(s[1..], sub, i);
        DropOneSlice(s, i, |sub|);
        assert OccursAt(s, sub, i + 1);
      }
    } else if |sub| <= |s| {
      assert OccursAt(s, sub, 0);
    }
  }

  /** Drops leading whitespace (`trimStart`). */
  function TrimStart(s: string): (r: string)
    ensures |r| <= |s| && r == s[|s| - |r|..]
    ensures r == [] || !IsWhitespace(r[0])
    ensures forall k :: 0 <= k < |s| - |r| ==> IsWhitespace(s[k])
  {
    if s != [] && IsWhitespace(s[0]) then TrimStart(s[1..]) else s
  }

  /** Drops trailing whitespace (`trimEnd`). */
  function TrimEnd(s: string): (r: string)
    ensures |r| <= |s| && r == s[..|r|]
    ensures r == [] || !IsWhitespace(r[|r| - 1])
    ensures forall k :: |r| <= k < |s| ==> IsWhitespace(s[k])
  {
    if s != [] && IsWhitespace(s[|s| - 1]) then TrimEnd(s[..|s| - 1]) else s
  }

  /** `s.trim()`: no whitespace at either end. */
  function Trim(s: string): (r: string)
    ensures |r| <= |s|
    ensures r == [] || (!IsWhitespace(r[0]) && !IsWhitespace(r[|r| - 1]))
  {
    TrimEnd(TrimStart(s))
  }

  /** What `trim` keeps is one contiguous piece of the text, and all it
      drops is whitespace at the two ends. */
  lemma TrimIsSlice(s: string) returns (i: nat, j: nat)
    ensures i <= j <= |s| && Trim(s) == s[i..j]
    ensures forall k :: 0 <= k < i ==> IsWhitespace(s[k])
    ensures forall k :: j <= k < |s| ==> IsWhitespace(s[k])
  {
    var a := TrimStart(s);
    var b := TrimEnd(a);
    assert Trim(s) == b;
    i, j := |s| - |a|, |s| - |a| + |b|;
    assert a == s[i..];
    assert b == a[..|b|];
    assert a[..|b|] == s[i..j];
    forall k | j <= k < |s| ensures IsWhitespace(s[k]) {
      assert s[k] == a[k - i];
    }
  }

  /** `toLowerCase` on the scripts the bot's users write in: ASCII, Latin-1,
      Latin Extended-A, and Cyrillic with its supplement (including the Uzbek
      letters Ғ, Қ, Ҳ, Ў). Other characters are left as they are. */
  function ToLowerChar(c: char): char {
    if 'A' <= c <= 'Z' then (c as int + 32) as char
    else if 'À' <= c <= 'Þ' && c != '×' then (c as int + 32) as char
    else if (('\U{0100}' <= c <= '\U{0137}' && c != '\U{0130}') || ('\U{014A}' <= c <= '\U{0177}'))
            && c as int % 2 == 0 then (c as int + 1) as char
    else if (('\U{0139}' <= c <= '\U{0148}') || ('\U{0179}' <= c <= '\U{017E}'))
            && c as int % 2 == 1 then (c as int + 1) as char
    else if c == '\U{0178}' then '\U{00FF}'
    else if 'Ѐ' <= c <= 'Џ' then (c as int + 0x50) as char
    else if 'А' <= c <= 'Я' then (c as int + 0x20) as char
    else if (('Ѡ' <= c <= 'Ҁ') || ('Ҋ' <= c <= 'Ҿ') || ('Ӑ' <= c <= 'Ӿ') || ('\U{0500}' <= c <= '\U{052E}'))
            && c as int % 2 == 0 then (c as int + 1) as char
    else if 'Ӂ' <= c <= 'Ӎ' && c as int % 2 == 1 then (c as int + 1) as char
    else if c == '\U{04C0}' then '\U{04CF}'
    else c
  }

  function ToLower(s: string): (r: string)
    ensures |r| == |s|
  {
    if s == [] then [] else [ToLowerChar(s[0])] + ToLower(s[1..])
  }

  /** Decimal digits of a natural number, as JavaScript prints it. */
  function NatToString(n: nat): string {
    var digit := ['0' + (n % 10) as char];
    if n < 10 then digit else NatToString(n / 10) + digit
  }

  /** Decimal form of an integer, as a template literal prints it. */
  function IntToString(n: int): string {
    if n < 0 then "-" + NatToString(-n) else NatToString(n)
  }
}
