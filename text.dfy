/** The Python string operations the configuration code relies on. */
module Text {

  /** `c.isspace()`: the characters Python's `str.strip()` removes by default. */
  predicate IsWhitespace(c: char) {
    || ('\U{0009}' <= c <= '\U{000D}')
    || ('\U{001C}' <= c <= '\U{001F}')
    || c == ' ' || c == '\U{0085}' || c == '\U{00A0}' || c == '\U{1680}'
    || ('\U{2000}' <= c <= '\U{200A}')
    || c == '\U{2028}' || c == '\U{2029}' || c == '\U{202F}' || c == '\U{205F}' || c == '\U{3000}'
  }

  /** `s.lstrip()`. */
  function TrimStart(s: string): string
  {
    if s != [] && IsWhitespace(s[0]) then TrimStart(s[1..]) else s
  }

  /** `s.rstrip()`. */
  function TrimEnd(s: string): string
  {
    if s != [] && IsWhitespace(s[|s| - 1]) then TrimEnd(s[..|s| - 1]) else s
  }

  /** `lstrip` removes exactly the leading whitespace. */
  lemma {:induction false} TrimStartShape(s: string)
    ensures var r := TrimStart(s);
      && |r| <= |s| && r == s[|s| - |r|..]
      && (r == [] || !IsWhitespace(r[0]))
      && (forall i :: 0 <= i < |s| - |r| ==> IsWhitespace(s[i]))
  {
    if s != [] && IsWhitespace(s[0]) {
      var t := s[1..];
      TrimStartShape(t);
      var r := TrimStart(t);
      assert TrimStart(s) == r;
      assert t[|t| - |r|..] == s[|s| - |r|..];
      forall i | 0 <= i < |s| - |r|
        ensures IsWhitespace(s[i])
      {
        if i > 0 {
          assert s[i] == t[i - 1];
        }
      }
    }
  }

  /** `rstrip` removes exactly the trailing whitespace. */
  lemma {:induction false} TrimEndShape(s: string)
    ensures var r := TrimEnd(s);
      && |r| <= |s| && r == s[..|r|]
      && (r == [] || !IsWhitespace(r[|r| - 1]))
      && (forall i :: |r| <= i < |s| ==> IsWhitespace(s[i]))
  {
    if s != [] && IsWhitespace(s[|s| - 1]) {
      TrimEndShape(s[..|s| - 1]);
      assert s[..|s| - 1][..|TrimEnd(s)|] == s[..|TrimEnd(s)|];
    }
  }

  /** `s.strip()`. */
  function Strip(s: string): (r: string)
  {
    TrimEnd(TrimStart(s))
  }

  /** A stripped text has no whitespace at either end, is a piece of the original, and keeps its inner characters. */
  lemma StripShape(s: string)
    ensures var r := Strip(s);
      && (r == [] || (!IsWhitespace(r[0]) && !IsWhitespace(r[|r| - 1])))
      && (forall c :: c in r ==> c in s)
  {
    var t := TrimStart(s);
    var r := TrimEnd(t);
    TrimStartShape(s);
    TrimEndShape(t);
    if r != [] {
      assert r[0] == t[0];
    }
    forall c | c in r ensures c in s {
      var i :| 0 <= i < |r| && r[i] == c;
      assert t[i] == c;
      assert s[|s| - |t| + i] == c;
    }
  }

  /** `s.split(sep)` for a one-character separator. */
  function Split(s: string, sep: char): (parts: seq<string>)
    ensures |parts| >= 1
  {
    if s == [] then [""]
    else if s[0] == sep then [""] + Split(s[1..], sep)
    else
      var rest := Split(s[1..], sep);
      [[s[0]] + rest[0]] + rest[1..]
  }

  /** `sep.join(parts)`, the inverse of `Split`. */
  function Join(parts: seq<string>, sep: char): string
  {
    if parts == [] then ""
    else if |parts| == 1 then parts[0]
    else parts[0] + [sep] + Join(parts[1..], sep)
  }

  lemma {:induction false} SplitPartsHaveNoSeparator(s: string, sep: char)
    ensures forall i :: 0 <= i < |Split(s, sep)| ==> sep !in Split(s, sep)[i]
  {
    if s != [] {
      SplitPartsHaveNoSeparator(s[1..], sep);
      var rest := Split(s[1..], sep);
      if s[0] != sep {
        assert sep !in rest[0];
        var parts := Split(s, sep);
        assert parts[0] == [s[0]] + rest[0];
        forall i | 0 <= i < |parts| ensures sep !in parts[i] {
          if i > 0 { assert parts[i] == rest[i]; }
        }
      }
    }
  }

  lemma {:induction false} JoinSplit(s: string, sep: char)
    ensures Join(Split(s, sep), sep) == s
  {
    if s != [] {
      JoinSplit(s[1..], sep);
      var rest := Split(s[1..], sep);
      if s[0] == sep {
        assert Split(s, sep) == [""] + rest;
        assert ([""] + rest)[1..] == rest;
      } else {
        var parts := Split(s, sep);
        assert parts[1..] == rest[1..];
        if |rest| == 1 {
          assert parts == [[s[0]] + rest[0]];
        } else {
          assert Join(rest, sep) == rest[0] + [sep] + Join(rest[1..], sep);
        }
      }
    }
  }

  /** `c.lower()` on ASCII letters; other characters are returned as they are. */
  function LowerChar(c: char): char {
    if 'A' <= c <= 'Z' then (c as int + 32) as char else c
  }

  /** `s.lower()`, ASCII case folding only. */
  function Lower(s: string): (r: string)
    ensures |r| == |s|
    ensures forall i :: 0 <= i < |s| ==> r[i] == LowerChar(s[i])
  {
    if s == [] then [] else [LowerChar(s[0])] + Lower(s[1..])
  }

  /** A lower-case hexadecimal digit, as `uuid.UUID.hex` prints them. */
  predicate IsHexDigit(c: char) {
    ('0' <= c <= '9') || ('a' <= c <= 'f')
  }

  predicate IsHex(s: string) {
    forall i :: 0 <= i < |s| ==> IsHexDigit(s[i])
  }

  /** The body of a quoted `repr`: every backslash and every `quote` gets a backslash before it. */
  function Escaped(s: string, quote: char): (r: string)
    ensures |r| >= |s|
    ensures (forall i | 0 <= i < |s| :: s[i] != quote && s[i] != '\\') ==> r == s
  {
    if s == [] then []
    else (if s[0] == '\\' || s[0] == quote then ['\\', s[0]] else [s[0]]) + Escaped(s[1..], quote)
  }

  /** Reads an escaped body back: a backslash stands for the character after it. */
  function Unescaped(s: string): string
  {
    if s == [] then []
    else if s[0] == '\\' && |s| >= 2 then [s[1]] + Unescaped(s[2..])
    else [s[0]] + Unescaped(s[1..])
  }

  /** Escaping loses nothing: the body reads back as the text. */
  lemma {:induction false} UnescapedEscaped(s: string, quote: char)
    ensures Unescaped(Escaped(s, quote)) == s
  {
    if s != [] {
      UnescapedEscaped(s[1..], quote);
      var head := if s[0] == '\\' || s[0] == quote then ['\\', s[0]] else [s[0]];
      assert Escaped(s, quote) == head + Escaped(s[1..], quote);
      if s[0] == '\\' || s[0] == quote {
        assert (head + Escaped(s[1..], quote))[2..] == Escaped(s[1..], quote);
      } else {
        assert (head + Escaped(s[1..], quote))[1..] == Escaped(s[1..], quote);
      }
    }
  }

  /**
    Python's `repr` of a text without control characters: in double quotes when the text holds a
    single quote and no double quote, otherwise in single quotes; the quote used and backslashes
    are escaped.
   */
  function Repr(s: string): (r: string)
    ensures |r| >= |s| + 2
    ensures r[0] == r[|r| - 1] && (r[0] == '"' || r[0] == '\'')
    ensures r[0] == '"' <==> '\'' in s && '"' !in s
    ensures Unescaped(r[1..|r| - 1]) == s
  {
    var quote := if '\'' in s && '"' !in s then '"' else '\'';
    UnescapedEscaped(s, quote);
    assert ([quote] + Escaped(s, quote) + [quote])[1..|Escaped(s, quote)| + 1] == Escaped(s, quote);
    [quote] + Escaped(s, quote) + [quote]
  }

  lemma ReprExamples()
    ensures Repr("a") == "'a'"
    ensures Repr("'") == "\"'\""
    ensures Repr("\\") == "'\\\\'"
  {
    assert Escaped("a", '\'') == "a";
    assert Escaped("'", '"') == "'";
    assert Escaped([], '\'') == [];
    assert Escaped("\\", '\'') == "\\\\";
  }
}
