/** The JavaScript string operations the help helpers rely on, with ECMAScript semantics:
    `trim`, `startsWith`, `endsWith`, `substr`, `split(/\r?\n/)` and `join`.
    Strings are sequences of code points. */
module JsStrings {

  /** ECMAScript WhiteSpace and LineTerminator code points, the set `trim` removes. */
  predicate IsWhitespace(c: char)
  {
    c == '\t' || c == '\n' || c == '\U{B}' || c == '\U{C}' || c == '\r' || c == ' '
    || c == '\U{A0}' || c == '\U{1680}' || ('\U{2000}' <= c <= '\U{200A}')
    || c == '\U{2028}' || c == '\U{2029}' || c == '\U{202F}' || c == '\U{205F}'
    || c == '\U{3000}' || c == '\U{FEFF}'
  }

  /** `s.trimStart()`. */
  function TrimStart(s: string): string
  {
    if s != [] && IsWhitespace(s[0]) then TrimStart(s[1..]) else s
  }

  /** `s.trimEnd()`. */
  function TrimEnd(s: string): string
  {
    if s != [] && IsWhitespace(s[|s| - 1]) then TrimEnd(s[..|s| - 1]) else s
  }

  /** `s.trim()`. */
  function Trim(s: string): string
  {
    TrimEnd(TrimStart(s))
  }

  /** `trimStart` drops exactly the longest whitespace prefix. */
  lemma {:induction false} TrimStartSpec(s: string)
    ensures var r := TrimStart(s);
      |r| <= |s| && r == s[|s| - |r|..]
      && (forall i :: 0 <= i < |s| - |r| ==> IsWhitespace(s[i]))
      && (r != [] ==> !IsWhitespace(r[0]))
  {
    if s == [] || !IsWhitespace(s[0]) {
      assert TrimStart(s) == s;
    } else {
      var t := s[1..];
      var r := TrimStart(t);
      TrimStartSpec(t);
      assert t[|t| - |r|..] == s[|s| - |r|..];
      forall i | 1 <= i < |s| - |r|
        ensures IsWhitespace(s[i])
      {
        assert s[i] == t[i - 1];
      }
      TrimStartStep(s);
    }
  }

  /** One step of `TrimStartSpec`: what trimming `s` minus its leading whitespace character
      leaves, read as a suffix of `s`, is what trimming `s` leaves. */
  lemma TrimStartStep(s: string)
    requires s != [] && IsWhitespace(s[0])
    requires var r := TrimStart(s[1..]);
      |r| < |s| && r == s[|s| - |r|..]
      && (forall i :: 1 <= i < |s| - |r| ==> IsWhitespace(s[i]))
      && (r != [] ==> !IsWhitespace(r[0]))
    ensures var r := TrimStart(s);
      |r| <= |s| && r == s[|s| - |r|..]
      && (forall i :: 0 <= i < |s| - |r| ==> IsWhitespace(s[i]))
      && (r != [] ==> !IsWhitespace(r[0]))
  {
    assert TrimStart(s) == TrimStart(s[1..]);
  }

  /** `trimEnd` drops exactly the longest whitespace suffix. */
  lemma {:induction false} TrimEndSpec(s: string)
    ensures var r := TrimEnd(s);
      |r| <= |s| && r == s[..|r|]
      && (forall i :: |r| <= i < |s| ==> IsWhitespace(s[i]))
      && (r != [] ==> !IsWhitespace(r[|r| - 1]))
  {
    if s == [] || !IsWhitespace(s[|s| - 1]) {
      assert TrimEnd(s) == s;
    } else {
      var t := s[..|s| - 1];
      var r := TrimEnd(t);
      TrimEndSpec(t);
      assert t[..|r|] == s[..|r|];
      forall i | |r| <= i < |s| - 1
        ensures IsWhitespace(s[i])
      {
        assert s[i] == t[i];
      }
      TrimEndStep(s);
    }
  }

  /** One step of `TrimEndSpec`: what trimming `s` minus its trailing whitespace character
      leaves, read as a prefix of `s`, is what trimming `s` leaves. */
  lemma TrimEndStep(s: string)
    requires s != [] && IsWhitespace(s[|s| - 1])
    requires var r := TrimEnd(s[..|s| - 1]);
      |r| < |s| && r == s[..|r|]
      && (forall i :: |r| <= i < |s| - 1 ==> IsWhitespace(s[i]))
      && (r != [] ==> !IsWhitespace(r[|r| - 1]))
    ensures var r := TrimEnd(s);
      |r| <= |s| && r == s[..|r|]
      && (forall i :: |r| <= i < |s| ==> IsWhitespace(s[i]))
      && (r != [] ==> !IsWhitespace(r[|r| - 1]))
  {
    assert TrimEnd(s) == TrimEnd(s[..|s| - 1]);
  }

  /** Trimming drops whitespace at both ends and keeps the middle of `s` as it is. */
  lemma TrimSpec(s: string)
    ensures var r := Trim(s); var a := |s| - |TrimStart(s)|;
      0 <= a && a + |r| <= |s| && r == s[a..a + |r|]
      && (forall i :: 0 <= i < a ==> IsWhitespace(s[i]))
      && (forall i :: a + |r| <= i < |s| ==> IsWhitespace(s[i]))
      && (r != [] ==> !IsWhitespace(r[0]) && !IsWhitespace(r[|r| - 1]))
  {
    TrimStartSpec(s);
    TrimEndSpec(TrimStart(s));
  }

  /** Indentation before a word with no whitespace at its ends is all `trim` removes. */
  lemma {:induction false} TrimIndented(w: string, t: string)
    requires forall k :: 0 <= k < |w| ==> IsWhitespace(w[k])
    requires t != [] && !IsWhitespace(t[0]) && !IsWhitespace(t[|t| - 1])
    ensures Trim(w + t) == t
  {
    if w == [] {
      assert w + t == t;
    } else {
      TrimIndented(w[1..], t);
      assert (w + t)[1..] == w[1..] + t;
    }
  }

  predicate StartsWith(s: string, prefix: string)
  {
    |prefix| <= |s| && s[..|prefix|] == prefix
  }

  predicate EndsWith(s: string, suffix: string)
  {
    |suffix| <= |s| && s[|s| - |suffix|..] == suffix
  }

  /** `s.substr(start, length)`: the start is clamped to the string, a negative length
      gives the empty string, and the length is cut at the end of the string. */
  function Substr(s: string, start: nat, length: int): (r: string)
    ensures start < |s| && 0 <= length <= |s| - start ==> r == s[start..start + length]
    ensures length <= 0 || start >= |s| ==> r == []
    ensures |r| <= |s| && (start <= |s| ==> StartsWith(s[start..], r))
  {
    var st := if start < |s| then start else |s|;
    var len := if length < 0 then 0 else if length < |s| - st then length else |s| - st;
    s[st..st + len]
  }

  /** `s.split(/\r?\n/)`: every "\n", together with a "\r" just before it, separates two lines. */
  function SplitLines(s: string): (lines: seq<string>)
    ensures |lines| >= 1
    ensures forall i :: 0 <= i < |lines| ==> '\n' !in lines[i]
  {
    if s == [] then [""]
    else if s[0] == '\n' then [""] + SplitLines(s[1..])
    else if s[0] == '\r' && |s| > 1 && s[1] == '\n' then [""] + SplitLines(s[2..])
    else
      var rest := SplitLines(s[1..]);
      [[s[0]] + rest[0]] + rest[1..]
  }

  /** Text with neither "\n" nor "\r" in it. */
  predicate SingleLine(s: string)
  {
    '\n' !in s && '\r' !in s
  }

  /** Text without line breaks is a single line. */
  lemma {:induction false} SplitLinesSingle(s: string)
    requires SingleLine(s)
    ensures SplitLines(s) == [s]
  {
    if s != [] {
      SplitLinesSingle(s[1..]);
      assert [s[0]] + s[1..] == s;
    }
  }

  /** A first line without "\r" or "\n" is split off at the first "\n". */
  lemma {:induction false} SplitLinesCons(a: string, b: string)
    requires SingleLine(a)
    ensures SplitLines(a + "\n" + b) == [a] + SplitLines(b)
  {
    if a == [] {
      assert a + "\n" + b == "\n" + b;
    } else {
      var t := a + "\n" + b;
      SplitLinesCons(a[1..], b);
      assert t[0] == a[0] && t[1..] == a[1..] + "\n" + b;
      assert [a[0]] + a[1..] == a;
    }
  }

  /** `lines.join(sep)`. */
  function Join(lines: seq<string>, sep: string): string
  {
    if lines == [] then ""
    else if |lines| == 1 then lines[0]
    else lines[0] + sep + Join(lines[1..], sep)
  }

  /** Splitting on line breaks and joining with "\n" gives back any text without "\r". */
  lemma {:induction false} JoinSplitLines(s: string)
    requires '\r' !in s
    ensures Join(SplitLines(s), "\n") == s
  {
    if s == [] {
    } else if s[0] == '\n' {
      JoinSplitLines(s[1..]);
      assert s == "\n" + s[1..];
    } else {
      var rest := SplitLines(s[1..]);
      JoinSplitLines(s[1..]);
      if |rest| == 1 {
        assert s == [s[0]] + s[1..];
      } else {
        assert Join(rest, "\n") == rest[0] + "\n" + Join(rest[1..], "\n");
        assert s == [s[0]] + s[1..];
      }
    }
  }
}
