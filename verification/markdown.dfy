/** `escape_markdown`: puts a backslash in front of each of eighteen
    Markdown control characters. The bot defines it but never calls it. */
module Markdown {

  /** The characters `escape_markdown` escapes, in the order it processes
      them. */
  const SpecialChars: seq<char> :=
    ['*', '_', '[', ']', '(', ')', '~', '`', '>', '#', '+', '-', '=', '|', '{', '}', '.', '!']

  /** No character occurs twice in `cs`, and the backslash is not one of
      them. */
  predicate EscapableList(cs: seq<char>) {
    && (forall i, j :: 0 <= i < j < |cs| ==> cs[i] != cs[j])
    && '\\' !in cs
  }

  /** Python's `s.replace(c, '\\' + c)`: every occurrence of `c` gets a
      backslash in front of it. */
  function ReplaceEscape(s: string, c: char): (r: string)
    ensures |r| >= |s|
    ensures c !in s ==> r == s
  {
    if s == [] then []
    else (if s[0] == c then ['\\', c] else [s[0]]) + ReplaceEscape(s[1..], c)
  }

  /** The loop at the heart of `escape_markdown`: one `replace` per
      character of `cs`, in order. */
  function ReplaceEach(s: string, cs: seq<char>): string
    decreases |cs|
  {
    if cs == [] then s else ReplaceEach(ReplaceEscape(s, cs[0]), cs[1..])
  }

  /** The function as written: empty text gives the empty text, anything
      else goes through the eighteen replacements. */
  function EscapeMarkdown(text: string): string {
    if text == [] then [] else ReplaceEach(text, SpecialChars)
  }

  /** Reference definition: a single left-to-right pass that puts a
      backslash before every character that belongs to `specials`. */
  function EscapeEach(s: string, specials: set<char>): (r: string)
    ensures |r| >= |s|
  {
    if s == [] then []
    else (if s[0] in specials then ['\\', s[0]] else [s[0]]) + EscapeEach(s[1..], specials)
  }

  /** The inverse of `EscapeEach`: a backslash followed by a special
      character stands for that character. */
  function Unescape(s: string, specials: set<char>): string
    decreases |s|
  {
    if |s| >= 2 && s[0] == '\\' && s[1] in specials then [s[1]] + Unescape(s[2..], specials)
    else if s == [] then []
    else [s[0]] + Unescape(s[1..], specials)
  }

  lemma {:induction false} EscapeNothing(s: string)
    ensures EscapeEach(s, {}) == s
  {
    if s != [] {
      EscapeNothing(s[1..]);
      assert [s[0]] + s[1..] == s;
    }
  }

  lemma {:induction false} ReplaceEscapeAppend(a: string, b: string, c: char)
    ensures ReplaceEscape(a + b, c) == ReplaceEscape(a, c) + ReplaceEscape(b, c)
    decreases |a|
  {
    if a == [] {
      assert a + b == b;
    } else {
      var x := if a[0] == c then ['\\', c] else [a[0]];
      assert (a + b)[1..] == a[1..] + b;
      assert ReplaceEscape(a + b, c) == x + ReplaceEscape(a[1..] + b, c);
      ReplaceEscapeAppend(a[1..], b, c);
    }
  }

  /** Replacing one more character in a text already escaped for
      `specials` is the same as escaping for `specials + {c}` in one pass,
      provided `c` is new and is not the backslash. */
  lemma {:induction false} ReplaceAfterEscape(s: string, specials: set<char>, c: char)
    requires c !in specials && c != '\\' && '\\' !in specials
    ensures ReplaceEscape(EscapeEach(s, specials), c) == EscapeEach(s, specials + {c})
  {
    if s != [] {
      var head := if s[0] in specials then ['\\', s[0]] else [s[0]];
      ReplaceEscapeAppend(head, EscapeEach(s[1..], specials), c);
      ReplaceAfterEscape(s[1..], specials, c);
      if s[0] in specials {
        assert ReplaceEscape(head, c) == ['\\', s[0]] by {
          assert head[1..] == [s[0]];
          assert head[1..][1..] == [];
        }
      } else {
        assert head[1..] == [];
      }
    }
  }

  lemma {:induction false} ReplaceEachAfterEscape(s: string, specials: set<char>, cs: seq<char>)
    requires EscapableList(cs)
    requires '\\' !in specials
    requires forall i :: 0 <= i < |cs| ==> cs[i] !in specials
    ensures ReplaceEach(EscapeEach(s, specials), cs) == EscapeEach(s, specials + set c | c in cs)
    decreases |cs|
  {
    if cs == [] {
      assert (set c | c in cs) == {};
      assert specials + {} == specials;
    } else {
      ReplaceAfterEscape(s, specials, cs[0]);
      var rest := cs[1..];
      EscapableTail(cs, specials);
      ReplaceEachAfterEscape(s, specials + {cs[0]}, rest);
      ElementsOfCons(cs, specials);
    }
  }

  lemma EscapableTail(cs: seq<char>, specials: set<char>)
    requires cs != [] && EscapableList(cs)
    requires forall i :: 0 <= i < |cs| ==> cs[i] !in specials
    ensures EscapableList(cs[1..])
    ensures forall i :: 0 <= i < |cs[1..]| ==> cs[1..][i] !in specials + {cs[0]}
  {
    var rest := cs[1..];
    assert forall i :: 0 <= i < |rest| ==> rest[i] == cs[i + 1];
  }

  lemma ElementsOfCons(cs: seq<char>, specials: set<char>)
    requires cs != []
    ensures specials + {cs[0]} + (set c | c in cs[1..]) == specials + set c | c in cs
  {
    assert cs == [cs[0]] + cs[1..];
  }

  /** The position of a special character in `SpecialChars`, and 18 for
      any other character. */
  function Rank(c: char): nat {
    if c == '*' then 0 else if c == '_' then 1 else if c == '[' then 2 else if c == ']' then 3
    else if c == '(' then 4 else if c == ')' then 5 else if c == '~' then 6 else if c == '`' then 7
    else if c == '>' then 8 else if c == '#' then 9 else if c == '+' then 10 else if c == '-' then 11
    else if c == '=' then 12 else if c == '|' then 13 else if c == '{' then 14 else if c == '}' then 15
    else if c == '.' then 16 else if c == '!' then 17 else 18
  }

  lemma SpecialCharsRanked()
    ensures forall i :: 0 <= i < |SpecialChars| ==> Rank(SpecialChars[i]) == i
  {
  }

  lemma SpecialCharsEscapable()
    ensures EscapableList(SpecialChars)
  {
    SpecialCharsRanked();
    assert Rank('\\') == 18;
  }

  /** The eighteen successive replacements never interfere with one
      another: `escape_markdown` is a single pass that escapes each special
      character exactly once. */
  lemma EscapeMarkdownIsOnePass(text: string)
    ensures EscapeMarkdown(text) == EscapeEach(text, set c | c in SpecialChars)
  {
    if text != [] {
      EscapeNothing(text);
      SpecialCharsEscapable();
      assert {} + (set c | c in SpecialChars) == set c | c in SpecialChars;
      ReplaceEachAfterEscape(text, {}, SpecialChars);
    }
  }

  lemma {:induction false} UnescapeEscape(s: string, specials: set<char>)
    requires '\\' !in specials
    ensures Unescape(EscapeEach(s, specials), specials) == s
    decreases |s|
  {
    if s != [] {
      var e := EscapeEach(s, specials);
      var tail := EscapeEach(s[1..], specials);
      UnescapeEscape(s[1..], specials);
      if s[0] in specials {
        assert e == ['\\', s[0]] + tail;
        assert e[2..] == tail;
      } else {
        assert e == [s[0]] + tail;
        assert e[1..] == tail;
        if |e| >= 2 && s[0] == '\\' {
          assert e[1] == tail[0];
          assert tail[0] == '\\' || tail[0] == s[1..][0];
        }
      }
      assert [s[0]] + s[1..] == s;
    }
  }

  /** Escaped text can always be read back: removing the backslash in
      front of each special character restores the original text. */
  lemma EscapeMarkdownRoundTrip(text: string)
    ensures Unescape(EscapeMarkdown(text), set c | c in SpecialChars) == text
  {
    EscapeMarkdownIsOnePass(text);
    UnescapeEscape(text, set c | c in SpecialChars);
  }
}
