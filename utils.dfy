/** The `utils` namespace of mod.ts: right-padding of names and the extraction of a
    task's description from the leading string literal of its source text. */
module Utils {
  import opened Common
  import opened JsStrings

  /** `n` copies of `p` one after another. */
  function Repeat(p: string, n: nat): string
  {
    if n == 0 then "" else p + Repeat(p, n - 1)
  }

  /** What `rightPad` computes: `padChar` appended until the length reaches `size`.
      With an empty `padChar` and a short `s` the source loops forever, hence the requires. */
  function Padded(s: string, size: int, padChar: string): string
    requires |padChar| > 0 || |s| >= size
    decreases size - |s|
  {
    if |s| >= size then s else Padded(s + padChar, size, padChar)
  }

  /** The padded string is `s` followed by whole copies of `padChar`, and it is the shortest
      such string whose length reaches `size`. */
  lemma {:induction false} PaddedShape(s: string, size: int, padChar: string)
    requires |padChar| > 0 || |s| >= size
    ensures var r := Padded(s, size, padChar);
      (exists n: nat :: r == s + Repeat(padChar, n))
      && (|s| >= size ==> r == s)
      && (|s| < size ==> size <= |r| < size + |padChar|)
    decreases size - |s|
  {
    var r := Padded(s, size, padChar);
    if |s| >= size {
      assert r == s + Repeat(padChar, 0);
    } else {
      PaddedShape(s + padChar, size, padChar);
      var n: nat :| r == s + padChar + Repeat(padChar, n);
      assert r == s + Repeat(padChar, n + 1);
    }
  }

  /** With a one-character `padChar` the result is exactly `max(|s|, size)` long and
      starts with `s`. */
  lemma PaddedOneChar(s: string, size: int, padChar: string)
    requires |padChar| == 1
    ensures var r := Padded(s, size, padChar);
      |r| == (if |s| >= size then |s| else size) && r[..|s|] == s
  {
    PaddedShape(s, size, padChar);
    var r := Padded(s, size, padChar);
    var n: nat :| r == s + Repeat(padChar, n);
    assert r[..|s|] == s;
  }

  /** `utils.rightPad(s, size, padChar)`: appends `padChar` while the string is shorter than `size`. */
  method RightPad(s: string, size: int, padChar: string) returns (r: string)
    requires |padChar| > 0 || |s| >= size
    ensures r == Padded(s, size, padChar)
    ensures |s| >= size ==> r == s
    ensures |s| < size ==> size <= |r| < size + |padChar|
    ensures exists n: nat :: r == s + Repeat(padChar, n)
  {
    PaddedShape(s, size, padChar);
    r := s;
    while |r| < size
      invariant |padChar| > 0 || |r| >= size
      invariant Padded(r, size, padChar) == Padded(s, size, padChar)
      decreases size - |r|
    {
      r := r + padChar;
    }
  }

  /** The characters that may open a description literal. */
  const Delims := "'\"`"

  /** A source line whose trimmed text starts with a quote character. */
  predicate IsOpening(line: string)
  {
    var t := Trim(line);
    t != [] && t[0] in Delims
  }

  /** A source line whose trimmed text ends with the quote `c`, or with `c` and ";". */
  predicate Closes(line: string, c: char)
  {
    var t := Trim(line);
    EndsWith(t, [c, ';']) || EndsWith(t, [c])
  }

  /** The first line from `i` on, among the first four, that opens a description. */
  function FindOpening(lines: seq<string>, i: nat): (r: Option<nat>)
    ensures r.Some? ==> i <= r.value < |lines| && r.value < 4 && IsOpening(lines[r.value])
    decreases |lines| - i
  {
    if i >= |lines| || i >= 4 then None
    else if IsOpening(lines[i]) then Some(i)
    else FindOpening(lines, i + 1)
  }

  /** The first line from `j` on that closes a description opened with `c`. */
  function FindClosing(lines: seq<string>, j: nat, c: char): (r: Option<nat>)
    ensures r.Some? ==> j <= r.value < |lines|
    decreases |lines| - j
  {
    if j >= |lines| then None
    else if Closes(lines[j], c) then Some(j)
    else FindClosing(lines, j + 1, c)
  }

  /** The opening line found is the first opening line among the first four from `i` on;
      none is found exactly when none of them opens. */
  lemma {:induction false} FindOpeningSpec(lines: seq<string>, i: nat)
    ensures var r := FindOpening(lines, i);
      (r.Some? ==> i <= r.value < |lines| && r.value < 4 && IsOpening(lines[r.value])
                   && forall k :: i <= k < r.value ==> !IsOpening(lines[k]))
      && (r.None? ==> forall k :: i <= k < |lines| && k < 4 ==> !IsOpening(lines[k]))
    decreases |lines| - i
  {
    if i < |lines| && i < 4 && !IsOpening(lines[i]) {
      FindOpeningSpec(lines, i + 1);
    }
  }

  /** The closing line found is the first closing line from `j` on; none is found exactly
      when no later line closes. */
  lemma {:induction false} FindClosingSpec(lines: seq<string>, j: nat, c: char)
    ensures var r := FindClosing(lines, j, c);
      (r.Some? ==> j <= r.value < |lines| && Closes(lines[r.value], c)
                   && forall k :: j <= k < r.value ==> !Closes(lines[k], c))
      && (r.None? ==> forall k :: j <= k < |lines| ==> !Closes(lines[k], c))
    decreases |lines| - j
  {
    if j < |lines| && !Closes(lines[j], c) {
      FindClosingSpec(lines, j + 1, c);
    }
  }

  /** The text of a literal: a trailing ";" dropped, then the first and last character. */
  function Unquote(docs: string): string
  {
    var d := if EndsWith(docs, ";") then Substr(docs, 0, |docs| - 1) else docs;
    Substr(d, 1, |d| - 2)
  }

  /** The description of a literal opened on line `i` with quote `c`: the lines up to the
      first closing one, joined, trimmed and unquoted; none when no line closes it. */
  function DocsFrom(lines: seq<string>, i: nat, c: char): Option<string>
    requires i <= |lines|
  {
    match FindClosing(lines, i, c)
    case None => None
    case Some(j) => Some(Unquote(Trim(Join(lines[i..j + 1], "\n"))))
  }

  /** What `extractFunctionDocs` returns for a function whose source text is `src`. */
  function ExtractedDocs(src: string): Option<string>
  {
    var lines := SplitLines(src);
    match FindOpening(lines, 0)
    case None => None
    case Some(i) => DocsFrom(lines, i, Trim(lines[i])[0])
  }

  /** `utils.extractFunctionDocs(func)`, with the function given by its source text: scans
      the first four lines for an opening one, then reads its literal. */
  method ExtractFunctionDocs(src: string) returns (r: Option<string>)
    ensures r == ExtractedDocs(src)
  {
    var srcLines := SplitLines(src);
    var i := 0;
    while i < |srcLines| && i < 4
      invariant 0 <= i <= |srcLines|
      invariant FindOpening(srcLines, i) == FindOpening(srcLines, 0)
    {
      var line := Trim(srcLines[i]);
      if |line| == 0 {
        assert !IsOpening(srcLines[i]);
        i := i + 1;
        continue;
      }
      var startChar := line[0];
      if startChar in Delims {
        assert IsOpening(srcLines[i]) && FindOpening(srcLines, 0) == Some(i);
        r := ReadLiteral(srcLines, i, startChar);
        return;
      }
      assert !IsOpening(srcLines[i]);
      i := i + 1;
    }
    return None;
  }

  /** The inner loop of `extractFunctionDocs`: from the opening line `i` on, finds the
      first line that closes the literal and unquotes the block. */
  method ReadLiteral(srcLines: seq<string>, i: nat, startChar: char) returns (r: Option<string>)
    requires i <= |srcLines|
    ensures r == DocsFrom(srcLines, i, startChar)
  {
    var j := i;
    while j < |srcLines|
      invariant i <= j <= |srcLines|
      invariant FindClosing(srcLines, j, startChar) == FindClosing(srcLines, i, startChar)
    {
      var endLine := Trim(srcLines[j]);
      if EndsWith(endLine, [startChar, ';']) || EndsWith(endLine, [startChar]) {
        ClosingFound(srcLines, i, j, startChar);
        var docs := UnquoteBlock(Trim(Join(srcLines[i..j + 1], "\n")));
        return Some(docs);
      }
      assert !Closes(srcLines[j], startChar);
      j := j + 1;
    }
    return None;
  }

  /** When line `j` is the first closing line from `i` on, the literal read is that of lines
      `i` to `j`. */
  lemma ClosingFound(lines: seq<string>, i: nat, j: nat, c: char)
    requires i <= j < |lines| && Closes(lines[j], c)
    requires FindClosing(lines, j, c) == FindClosing(lines, i, c)
    ensures DocsFrom(lines, i, c) == Some(Unquote(Trim(Join(lines[i..j + 1], "\n"))))
  {
    assert FindClosing(lines, i, c) == Some(j);
  }

  /** Drops a trailing ";", then the first and last character. */
  method UnquoteBlock(block: string) returns (docs: string)
    ensures docs == Unquote(block)
  {
    docs := block;
    if EndsWith(docs, ";") {
      docs := Substr(docs, 0, |docs| - 1);
    }
    docs := Substr(docs, 1, |docs| - 2);
  }

  /** A function whose first source line does not open a literal and whose second line is an
      indented `"<doc>";` statement is described by `doc`: the quotes and the ";" are dropped. */
  lemma DocsOfLeadingLiteral(header: string, indent: string, doc: string, rest: string)
    requires SingleLine(header) && !IsOpening(header)
    requires forall k :: 0 <= k < |indent| ==> IsWhitespace(indent[k])
    requires SingleLine(indent) && SingleLine(doc)
    ensures ExtractedDocs(header + "\n" + indent + "\"" + doc + "\";\n" + rest) == Some(doc)
  {
    var line := indent + "\"" + doc + "\";";
    var lines := SplitLines(header + "\n" + indent + "\"" + doc + "\";\n" + rest);
    LeadingLines(header, line, rest, indent, doc);
    LiteralLine(indent, doc);
    assert FindOpening(lines, 1) == Some(1);
    assert FindOpening(lines, 0) == Some(1);
    assert FindClosing(lines, 1, '"') == Some(1);
    assert lines[1..2] == [line];
  }

  /** The first two lines of such a source text are the header and the literal line. */
  lemma LeadingLines(header: string, line: string, rest: string, indent: string, doc: string)
    requires SingleLine(header)
    requires SingleLine(indent) && SingleLine(doc)
    requires line == indent + "\"" + doc + "\";"
    ensures var lines := SplitLines(header + "\n" + indent + "\"" + doc + "\";\n" + rest);
      |lines| >= 2 && lines[0] == header && lines[1] == line
  {
    var src := header + "\n" + indent + "\"" + doc + "\";\n" + rest;
    assert src == header + "\n" + (line + "\n" + rest);
    assert SingleLine(line);
    SplitLinesCons(header, line + "\n" + rest);
    SplitLinesCons(line, rest);
  }

  /** An indented `"<doc>";` line opens and closes a literal whose text is `doc`. */
  lemma LiteralLine(indent: string, doc: string)
    requires forall k :: 0 <= k < |indent| ==> IsWhitespace(indent[k])
    ensures var line := indent + "\"" + doc + "\";";
      IsOpening(line) && Trim(line)[0] == '"' && Closes(line, '"') && Join([line], "\n") == line
      && Unquote(Trim(line)) == doc
  {
    var lit := "\"" + doc + "\";";
    assert indent + "\"" + doc + "\";" == indent + lit;
    LiteralText(doc);
    TrimIndented(indent, lit);
  }

  /** The statement `"<doc>";` starts with a quote, ends with the quote and ";", and
      unquotes to `doc`. */
  lemma LiteralText(doc: string)
    ensures var lit := "\"" + doc + "\";";
      |lit| >= 2 && lit[0] == '"' && EndsWith(lit, ['"', ';']) && EndsWith(lit, ";")
      && !IsWhitespace(lit[|lit| - 1]) && Unquote(lit) == doc
  {
    var lit := "\"" + doc + "\";";
    var d := Substr(lit, 0, |lit| - 1);
    assert d == "\"" + doc + "\"";
    assert Substr(d, 1, |d| - 2) == doc;
  }
}
