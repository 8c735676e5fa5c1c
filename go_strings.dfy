/**
 * The three Go standard-library string functions the core relies on:
 * strconv.Quote (attribute values), strings.Split (node identifiers)
 * and strings.Replace (subgraph identifiers).
 */
module GoStrings {
  import opened Wrappers

  // ---------------------------------------------------------------------
  // strconv.Quote
  // ---------------------------------------------------------------------

  /** The escape of one character inside a double-quoted Go string literal. */
  function EscapeChar(c: char): string {
    if c == '"' then ['\\', '"']
    else if c == '\\' then ['\\', '\\']
    else if c == '\n' then ['\\', 'n']
    else if c == '\t' then ['\\', 't']
    else if c == '\r' then ['\\', 'r']
    else [c]
  }

  function Escape(s: string): string
    decreases |s|
  {
    if s == [] then [] else EscapeChar(s[0]) + Escape(s[1..])
  }

  /** strconv.Quote: the string between double quotes, escaped. */
  function Quote(s: string): (q: string)
    ensures |q| >= 2 && q[0] == '"' && q[|q| - 1] == '"'
  {
    ['"'] + Escape(s) + ['"']
  }

  /** The character a backslash escape stands for, if it is one Quote writes. */
  function UnescapeCode(c: char): Option<char> {
    if c == '"' then Some('"')
    else if c == '\\' then Some('\\')
    else if c == 'n' then Some('\n')
    else if c == 't' then Some('\t')
    else if c == 'r' then Some('\r')
    else None
  }

  function Unescape(s: string): Option<string>
    decreases |s|
  {
    if s == [] then Some([])
    else if s[0] == '"' then None
    else if s[0] == '\\' then
      if |s| < 2 || UnescapeCode(s[1]).None? then None
      else
        match Unescape(s[2..])
        case None => None
        case Some(rest) => Some([UnescapeCode(s[1]).value] + rest)
    else
      match Unescape(s[1..])
      case None => None
      case Some(rest) => Some([s[0]] + rest)
  }

  /** The inverse of Quote on the strings Quote produces. */
  function Unquote(q: string): Option<string> {
    if |q| >= 2 && q[0] == '"' && q[|q| - 1] == '"' then Unescape(q[1..|q| - 1]) else None
  }

  /** Unescape reads one escaped character back, then the rest. */
  lemma UnescapeStep(c: char, tail: string, rest: string)
    requires Unescape(tail) == Some(rest)
    ensures Unescape(EscapeChar(c) + tail) == Some([c] + rest)
  {
    var e := EscapeChar(c) + tail;
    if |EscapeChar(c)| == 2 {
      assert e[0] == '\\' && UnescapeCode(e[1]) == Some(c);
      assert e[2..] == tail;
    } else {
      assert e[0] == c && c != '"' && c != '\\';
      assert e[1..] == tail;
    }
  }

  lemma {:induction false} UnescapeEscape(s: string)
    ensures Unescape(Escape(s)) == Some(s)
    decreases |s|
  {
    if s != [] {
      UnescapeEscape(s[1..]);
      UnescapeStep(s[0], Escape(s[1..]), s[1..]);
      assert [s[0]] + s[1..] == s;
    }
  }

  /** Quote loses nothing: Unquote recovers its argument. */
  lemma UnquoteQuote(s: string)
    ensures Unquote(Quote(s)) == Some(s)
  {
    var q := Quote(s);
    assert q[1..|q| - 1] == Escape(s);
    UnescapeEscape(s);
  }

  /** Hence Quote is injective. */
  lemma QuoteInjective(a: string, b: string)
    requires Quote(a) == Quote(b)
    ensures a == b
  {
    UnquoteQuote(a);
    UnquoteQuote(b);
  }

  /** A character Quote copies through as it is. */
  predicate PlainChar(c: char) {
    c != '"' && c != '\\' && c != '\n' && c != '\t' && c != '\r'
  }

  /** Escape leaves a string of plain characters as it is. */
  lemma {:induction false} EscapePlain(s: string)
    requires forall i :: 0 <= i < |s| ==> PlainChar(s[i])
    ensures Escape(s) == s
    decreases |s|
  {
    if s != [] {
      EscapePlain(s[1..]);
      assert [s[0]] + s[1..] == s;
    }
  }

  /** So Quote of plain characters only adds the two double quotes. */
  lemma QuotePlain(s: string)
    requires forall i :: 0 <= i < |s| ==> PlainChar(s[i])
    ensures Quote(s) == ['"'] + s + ['"']
  {
    EscapePlain(s);
  }

  // ---------------------------------------------------------------------
  // strings.Split with a one-character separator
  // ---------------------------------------------------------------------

  function Count(s: string, sep: char): nat
    decreases |s|
  {
    if s == [] then 0 else (if s[0] == sep then 1 else 0) + Count(s[1..], sep)
  }

  /** strings.Split(s, sep): the pieces between the separators, one more than there are separators. */
  function Split(s: string, sep: char): (parts: seq<string>)
    ensures |parts| == Count(s, sep) + 1
    ensures forall i :: 0 <= i < |parts| ==> sep !in parts[i]
    decreases |s|
  {
    if s == [] then [""]
    else
      var rest := Split(s[1..], sep);
      if s[0] == sep then [""] + rest
      else [[s[0]] + rest[0]] + rest[1..]
  }

  /** The pieces joined with the separator give the original string back. */
  function Join(parts: seq<string>, sep: char): string
    requires |parts| >= 1
    decreases |parts|
  {
    if |parts| == 1 then parts[0] else parts[0] + [sep] + Join(parts[1..], sep)
  }

  lemma {:induction false} JoinSplit(s: string, sep: char)
    ensures Join(Split(s, sep), sep) == s
    decreases |s|
  {
    if s != [] {
      var rest := Split(s[1..], sep);
      JoinSplit(s[1..], sep);
      if s[0] == sep {
        assert ([""] + rest)[1..] == rest;
      } else if |rest| > 1 {
        assert ([[s[0]] + rest[0]] + rest[1..])[1..] == rest[1..];
      }
    }
  }

  lemma {:induction false} SplitNoSeparator(s: string, sep: char)
    requires sep !in s
    ensures Split(s, sep) == [s]
    decreases |s|
  {
    if s != [] {
      assert sep !in s[1..];
      SplitNoSeparator(s[1..], sep);
      assert [s[0]] + s[1..] == s;
    }
  }

  /** Two separator-free strings joined by one separator split back into exactly those two. */
  lemma {:induction false} SplitPair(a: string, b: string, sep: char)
    requires sep !in a && sep !in b
    ensures Split(a + [sep] + b, sep) == [a, b]
    decreases |a|
  {
    if a == [] {
      assert ([sep] + b)[1..] == b;
      SplitNoSeparator(b, sep);
    } else {
      assert (a + [sep] + b)[1..] == a[1..] + [sep] + b;
      assert sep !in a[1..];
      SplitPair(a[1..], b, sep);
      assert [a[0]] + a[1..] == a;
    }
  }

  // ---------------------------------------------------------------------
  // strings.Replace(s, pattern, replacement, -1)
  // ---------------------------------------------------------------------

  /**
   * strings.Replace with a negative count: every non-overlapping occurrence
   * of `pattern`, found left to right, is replaced by `replacement`.
   */
  function ReplaceAll(s: string, pattern: string, replacement: string): string
    requires pattern != []
    decreases |s|
  {
    if |s| < |pattern| then s
    else if s[..|pattern|] == pattern then replacement + ReplaceAll(s[|pattern|..], pattern, replacement)
    else [s[0]] + ReplaceAll(s[1..], pattern, replacement)
  }

  /** `pattern` occurs in `s` starting at index `i`. */
  predicate At(s: string, pattern: string, i: int)
  {
    0 <= i && i + |pattern| <= |s| && s[i..i + |pattern|] == pattern
  }

  /** A string in which `pattern` occurs nowhere is left as it is. */
  lemma {:induction false} ReplaceAllAbsent(s: string, pattern: string, replacement: string)
    requires pattern != [] && forall i :: !At(s, pattern, i)
    ensures ReplaceAll(s, pattern, replacement) == s
    decreases |s|
  {
    if |s| >= |pattern| {
      assert !At(s, pattern, 0);
      forall i ensures !At(s[1..], pattern, i)
      {
        assert !At(s, pattern, i + 1);
        if 0 <= i && i + |pattern| <= |s| - 1 {
          assert s[1..][i..i + |pattern|] == s[i + 1..i + 1 + |pattern|];
        }
      }
      ReplaceAllAbsent(s[1..], pattern, replacement);
    }
  }

  /**
   * Removing `pattern` from `pattern + s`, where `s` holds no occurrence of
   * it, gives back `s`: the prefix is stripped and nothing else is touched.
   */
  lemma StripPrefix(s: string, pattern: string)
    requires pattern != [] && forall i :: !At(s, pattern, i)
    ensures ReplaceAll(pattern + s, pattern, "") == s
  {
    assert (pattern + s)[..|pattern|] == pattern;
    assert (pattern + s)[|pattern|..] == s;
    ReplaceAllAbsent(s, pattern, "");
  }
}
