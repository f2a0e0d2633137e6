/** Breaking a report paragraph into lines that fit the column. */
module ReportText {

  predicate IsSpace(c: char) {
    c in " \t\n\r\U{000B}\U{000C}\U{00A0}\U{1680}\U{2028}\U{2029}\U{202F}\U{205F}\U{3000}\U{FEFF}"
        || '\U{2000}' <= c <= '\U{200A}'
  }

  predicate IsWord(word: string) {
    word != "" && forall i :: 0 <= i < |word| ==> !IsSpace(word[i])
  }

  function LeadingLength(text: string): (n: nat)
    ensures n <= |text|
    ensures forall i :: 0 <= i < n ==> !IsSpace(text[i])
    ensures n < |text| ==> IsSpace(text[n])
  {
    if text == "" || IsSpace(text[0]) then 0 else 1 + LeadingLength(text[1..])
  }

  /** The maximal runs of characters other than white space, in order. */
  function Words(text: string): (words: seq<string>)
    ensures forall i :: 0 <= i < |words| ==> IsWord(words[i])
    decreases |text|
  {
    if text == "" then []
    else if IsSpace(text[0]) then Words(text[1..])
    else
      var n := LeadingLength(text);
      [text[..n]] + Words(text[n..])
  }

  function AllWords(lines: seq<string>): seq<string> {
    if lines == [] then [] else Words(lines[0]) + AllWords(lines[1..])
  }

  lemma BlanksAreSpace()
    ensures IsSpace(' ') && IsSpace('\n') && IsSpace('\r')
    ensures Words("") == [] && Words(" ") == []
  {
    assert " "[1..] == "";
  }

  /** White space separates words wherever it stands. */
  lemma {:induction false} SpaceSeparates(left: string, space: string, right: string)
    requires |space| == 1 && IsSpace(space[0])
    ensures Words(left + space + right) == Words(left) + Words(right)
    decreases |left|
  {
    hide IsSpace, IsWord;
    var text := left + space + right;
    if left == "" {
      assert text[0] == space[0] && text[1..] == right;
    } else if IsSpace(left[0]) {
      SpaceSeparates(left[1..], space, right);
      assert text[1..] == left[1..] + space + right;
    } else {
      var n := LeadingLength(left);
      assert LeadingLength(text) == n by {
        assert n < |left| ==> text[n] == left[n];
        assert forall i :: 0 <= i < n ==> text[i] == left[i];
        LeadingIsUnique(text, n);
      }
      SpaceSeparates(left[n..], space, right);
      assert text[n..] == left[n..] + space + right;
      assert text[..n] == left[..n];
    }
  }

  lemma {:induction false} LeadingIsUnique(text: string, n: nat)
    requires n < |text| && IsSpace(text[n]) && forall i :: 0 <= i < n ==> !IsSpace(text[i])
    ensures LeadingLength(text) == n
  {
  }

  lemma {:induction false} WordIsItself(word: string)
    requires IsWord(word)
    ensures Words(word) == [word]
  {
    assert LeadingLength(word) == |word|;
    assert word[..|word|] == word;
  }

  lemma {:induction false} WordsAppend(lines: seq<string>, line: string)
    ensures AllWords(lines + [line]) == AllWords(lines) + Words(line)
    decreases |lines|
  {
    if lines == [] {
      assert AllWords([line]) == Words(line) + AllWords([]);
      assert lines + [line] == [line];
    } else {
      assert (lines + [line])[1..] == lines[1..] + [line];
      WordsAppend(lines[1..], line);
    }
  }

  lemma {:induction false} WordsConcatenate(left: seq<string>, right: seq<string>)
    ensures AllWords(left + right) == AllWords(left) + AllWords(right)
    decreases |left|
  {
    if left == [] {
      assert left + right == right;
    } else {
      assert (left + right)[1..] == left[1..] + right;
      WordsConcatenate(left[1..], right);
    }
  }

  // ---------------------------------------------------------------------------------------------
  // Paragraphs
  // ---------------------------------------------------------------------------------------------

  function LineEnd(text: string): (n: nat)
    ensures n <= |text|
    ensures n < |text| ==> text[n] == '\n'
  {
    if text == "" || text[0] == '\n' then 0 else 1 + LineEnd(text[1..])
  }

  /** The text before position `n`, without one carriage return at its end. */
  function Head(text: string, n: nat): string
    requires n <= |text|
  {
    if n > 0 && text[n - 1] == '\r' then text[..n - 1] else text[..n]
  }

  /** Splitting at line feeds, each taking one carriage return before it. */
  function Paragraphs(text: string): (paragraphs: seq<string>)
    ensures paragraphs != []
    decreases |text|
  {
    var n := LineEnd(text);
    if n == |text| then [text]
    else
      [Head(text, n)] + Paragraphs(text[n + 1..])
  }

  lemma {:induction false} HeadKeepsWords(text: string, n: nat)
    requires n <= |text|
    ensures Words(Head(text, n)) == Words(text[..n])
  {
    hide IsSpace, IsWord, Words;
    BlanksAreSpace();
    if n > 0 && text[n - 1] == '\r' {
      SpaceSeparates(text[..n - 1], "\r", "");
      assert text[..n] == text[..n - 1] + "\r" + "";
    }
  }

  lemma {:induction false} ParagraphsKeepWords(text: string)
    ensures AllWords(Paragraphs(text)) == Words(text)
    decreases |text|
  {
    hide IsSpace, IsWord, Words, Head;
    BlanksAreSpace();
    var n := LineEnd(text);
    if n == |text| {
      assert AllWords([text]) == Words(text) + AllWords([]);
    } else {
      var rest := text[n + 1..];
      ParagraphsKeepWords(rest);
      HeadKeepsWords(text, n);
      SpaceSeparates(text[..n], "\n", rest);
      assert text == text[..n] + "\n" + rest;
      assert Paragraphs(text)[1..] == Paragraphs(rest);
    }
  }

  // ---------------------------------------------------------------------------------------------
  // Wrapping
  // ---------------------------------------------------------------------------------------------

  /** A line of several words fits; a word too wide for the column stands alone. */
  predicate FitsColumn(line: string, width: string -> int, maxWidth: int) {
    width(line) <= maxWidth || |Words(line)| <= 1
  }

  /** No line is broken early: the next line's first word would not have fitted. */
  predicate BreaksLate(line: string, next: string, width: string -> int, maxWidth: int) {
    Words(next) != [] && width(line + " " + Words(next)[0]) > maxWidth
  }

  predicate WellWrapped(lines: seq<string>, width: string -> int, maxWidth: int) {
    && (forall i :: 0 <= i < |lines| ==> FitsColumn(lines[i], width, maxWidth))
    && (forall i :: 0 <= i < |lines| - 1 ==> BreaksLate(lines[i], lines[i + 1], width, maxWidth))
  }

  /** The lines drawn so far with the line being built, as the wrapping loop holds them. */
  predicate Building(lines: seq<string>, line: string, words: seq<string>, width: string -> int, maxWidth: int) {
    && Words(line) != []
    && line != ""
    && AllWords(lines) + Words(line) == words
    && WellWrapped(lines + [line], width, maxWidth)
  }

  lemma {:induction false} StartLine(word: string, width: string -> int, maxWidth: int)
    requires IsWord(word)
    ensures Building([], word, [word], width, maxWidth)
  {
    WordIsItself(word);
  }

  lemma {:induction false} BreakLine(lines: seq<string>, line: string, words: seq<string>, word: string,
      width: string -> int, maxWidth: int)
    requires Building(lines, line, words, width, maxWidth) && IsWord(word)
    requires width(line + " " + word) > maxWidth
    ensures Building(lines + [line], word, words + [word], width, maxWidth)
  {
    hide IsSpace, Words;
    WordIsItself(word);
    WordsAppend(lines, line);
    var drawn := lines + [line] + [word];
    forall i | 0 <= i < |drawn| - 1 ensures BreaksLate(drawn[i], drawn[i + 1], width, maxWidth) {
      assert i < |lines| ==> drawn[i] == (lines + [line])[i] && drawn[i + 1] == (lines + [line])[i + 1];
    }
  }

  lemma {:induction false} ExtendLine(lines: seq<string>, line: string, words: seq<string>, word: string,
      width: string -> int, maxWidth: int)
    requires Building(lines, line, words, width, maxWidth) && IsWord(word)
    requires width(line + " " + word) <= maxWidth
    ensures Building(lines, line + " " + word, words + [word], width, maxWidth)
  {
    hide IsSpace, IsWord, Words;
    BlanksAreSpace();
    WordIsItself(word);
    SpaceSeparates(line, " ", word);
    var longer := line + " " + word;
    var drawn := lines + [longer];
    forall i | 0 <= i < |drawn| - 1 ensures BreaksLate(drawn[i], drawn[i + 1], width, maxWidth) {
      assert BreaksLate((lines + [line])[i], (lines + [line])[i + 1], width, maxWidth);
    }
    forall i | 0 <= i < |drawn| ensures FitsColumn(drawn[i], width, maxWidth) {
      assert i < |lines| ==> drawn[i] == (lines + [line])[i];
    }
  }

  lemma {:induction false} BlankLine(width: string -> int, maxWidth: int)
    ensures AllWords([" "]) == [] && WellWrapped([" "], width, maxWidth)
  {
    BlanksAreSpace();
  }

  method WrapParagraph(paragraph: string, width: string -> int, maxWidth: int) returns (lines: seq<string>)
    ensures AllWords(lines) == Words(paragraph)
    ensures lines != [] && (Words(paragraph) == [] ==> lines == [" "])
    ensures WellWrapped(lines, width, maxWidth)
  {
    hide IsSpace, IsWord, Words, AllWords, WellWrapped, FitsColumn, BreaksLate;
    var words := Words(paragraph);
    var line := "";
    lines := [];
    var i := 0;
    while i < |words|
      invariant 0 <= i <= |words|
      invariant if i == 0 then line == "" && lines == [] else Building(lines, line, words[..i], width, maxWidth)
    {
      var word := words[i];
      var candidate := if line != "" then line + " " + word else word;
      assert words[..i + 1] == words[..i] + [word];
      if line != "" && width(candidate) > maxWidth {
        BreakLine(lines, line, words[..i], word, width, maxWidth);
        lines := lines + [line];
        line := word;
      } else {
        if line == "" {
          StartLine(word, width, maxWidth);
        } else {
          ExtendLine(lines, line, words[..i], word, width, maxWidth);
        }
        line := candidate;
      }
      i := i + 1;
    }
    assert words[..i] == words;
    BlankLine(width, maxWidth);
    WordsAppend(lines, line);
    assert lines == [] ==> lines + [" "] == [" "];
    lines := lines + [if line != "" then line else " "];
  }

  /** Wrapping a text wraps its paragraphs one after the other: every word is kept, in order, once. */
  method Wrap(text: string, width: string -> int, maxWidth: int) returns (lines: seq<string>)
    ensures AllWords(lines) == Words(text)
    ensures |lines| >= |Paragraphs(text)|
    ensures forall line :: line in lines ==> FitsColumn(line, width, maxWidth)
  {
    hide IsSpace, IsWord, Words, FitsColumn, BreaksLate, Paragraphs;
    var paragraphs := Paragraphs(text);
    lines := [];
    var i := 0;
    while i < |paragraphs|
      invariant 0 <= i <= |paragraphs| && |lines| >= i
      invariant AllWords(lines) == AllWords(paragraphs[..i])
      invariant forall line :: line in lines ==> FitsColumn(line, width, maxWidth)
    {
      var wrapped := WrapParagraph(paragraphs[i], width, maxWidth);
      WordsConcatenate(lines, wrapped);
      WordsAppend(paragraphs[..i], paragraphs[i]);
      assert paragraphs[..i + 1] == paragraphs[..i] + [paragraphs[i]];
      lines := lines + wrapped;
      i := i + 1;
    }
    assert paragraphs[..i] == paragraphs;
    ParagraphsKeepWords(text);
  }
}
