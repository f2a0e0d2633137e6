/** A document's text, and spans into it. */
module DocumentText {
  import opened Wrappers
  import opened ClaimBatching

  /** Which characters trimming removes; a line break is one of them. */
  type Spacing = char -> bool

  function TrimEnd(text: string, space: Spacing): (trimmed: string)
    ensures |trimmed| <= |text| && trimmed == text[..|trimmed|]
    ensures forall i :: |trimmed| <= i < |text| ==> space(text[i])
    ensures trimmed != "" ==> !space(trimmed[|trimmed| - 1])
  {
    if text != "" && space(text[|text| - 1]) then TrimEnd(text[..|text| - 1], space) else text
  }

  /** The sections lie in the text one after the other, each followed by a line break. */
  ghost predicate LaidOut(sections: seq<string>, text: string, boundaries: seq<Span>) {
    && |boundaries| == |sections|
    && (forall i :: 0 <= i < |sections| ==>
          && 0 <= boundaries[i].start <= boundaries[i].end < |text|
          && text[boundaries[i].start..boundaries[i].end] == sections[i] && text[boundaries[i].end] == '\n')
    && (forall i :: 0 <= i < |sections| - 1 ==> boundaries[i + 1].start == boundaries[i].end + 1)
    && (sections == [] ==> text == "")
    && (sections != [] ==> boundaries[0].start == 0 && boundaries[|sections| - 1].end == |text| - 1)
  }

  method Assemble(sections: seq<string>) returns (text: string, boundaries: seq<Span>)
    ensures LaidOut(sections, text, boundaries)
  {
    hide LaidOut;
    text, boundaries := "", [];
    NoSections();
    assert sections[..0] == [];
    for i := 0 to |sections|
      invariant LaidOut(sections[..i], text, boundaries)
    {
      var start := |text|;
      LaidOutOneMore(sections, i, text, boundaries);
      text := text + sections[i] + "\n";
      boundaries := boundaries + [Span(start, start + |sections[i]|)];
    }
    assert sections[..|sections|] == sections;
  }

  lemma NoSections()
    ensures LaidOut([], "", [])
  {
  }

  lemma LaidOutOneMore(sections: seq<string>, i: nat, text: string, boundaries: seq<Span>)
    requires i < |sections| && LaidOut(sections[..i], text, boundaries)
    ensures LaidOut(sections[..i + 1], text + sections[i] + "\n", boundaries + [Span(|text|, |text| + |sections[i]|)])
  {
    var after, spans := text + sections[i] + "\n", boundaries + [Span(|text|, |text| + |sections[i]|)];
    forall k | 0 <= k < i + 1
      ensures 0 <= spans[k].start <= spans[k].end < |after|
      ensures after[spans[k].start..spans[k].end] == sections[k] && after[spans[k].end] == '\n'
    {
      if k < i {
        assert sections[..i][k] == sections[k];
        assert after[spans[k].start..spans[k].end] == text[spans[k].start..spans[k].end];
      }
    }
  }

  /** Only whitespace at the very end of the document is missing from a section's slice of the trimmed
      text, although the boundaries were taken before trimming. */
  lemma SliceKeepsSection(sections: seq<string>, text: string, boundaries: seq<Span>, space: Spacing, i: nat)
    requires LaidOut(sections, text, boundaries) && i < |sections|
    ensures var kept := Slice(TrimEnd(text, space), boundaries[i].start, boundaries[i].end);
      && |kept| <= |sections[i]| && kept == sections[i][..|kept|]
      && forall k :: |kept| <= k < |sections[i]| ==> space(sections[i][k])
  {
    var start, end := boundaries[i].start, boundaries[i].end;
    var trimmed := TrimEnd(text, space);
    var kept := Slice(trimmed, start, end);
    assert forall k :: 0 <= k < |sections[i]| ==> sections[i][k] == text[start + k];
  }

  /** A document with normalized text contributes one segment for each boundary that is not empty; any
      other document is passed on whole. */
  function DocumentSegments(documents: seq<Document>, first: nat): seq<Segment> {
    if documents == [] then [] else SegmentsOf(documents[0], first) + DocumentSegments(documents[1..], first + 1)
  }

  function SegmentsOf(document: Document, source: nat): seq<Segment> {
    if document.normalized == None || document.normalized.value == "" || document.boundaries == []
    then [Segment(source, document.text, None)]
    else BoundarySegments(document.normalized.value, document.boundaries, source)
  }

  function BoundarySegments(text: string, boundaries: seq<Boundary>, source: nat): seq<Segment> {
    if boundaries == [] then []
    else
      var b := boundaries[0];
      (if b.start == None || b.end == None || b.end.value <= b.start.value then []
        else [Segment(source, Some(Slice(text, b.start.value, b.end.value)), Some(Span(b.start.value, b.end.value)))])
      + BoundarySegments(text, boundaries[1..], source)
  }

  /** Every boundary that is not empty gives a segment that quotes the text at its span, and every segment
      comes from such a boundary. */
  lemma {:induction false} SegmentsQuoteText(text: string, boundaries: seq<Boundary>, source: nat)
    ensures forall s :: s in BoundarySegments(text, boundaries, source) ==>
              s.source == source && s.span.Some? && s.text == Some(Slice(text, s.span.value.start, s.span.value.end))
    ensures forall b :: b in boundaries && b.start.Some? && b.end.Some? && b.start.value < b.end.value ==>
              Segment(source, Some(Slice(text, b.start.value, b.end.value)), Some(Span(b.start.value, b.end.value)))
                  in BoundarySegments(text, boundaries, source)
    ensures forall s ::
        s in BoundarySegments(text, boundaries, source) ==>
        Boundary(Some(s.span.value.start), Some(s.span.value.end)) in boundaries
  {
    if boundaries != [] {
      SegmentsQuoteText(text, boundaries[1..], source);
    }
  }

  // ---------------------------------------------------------------------------------------------
  // From pages to batches
  // ---------------------------------------------------------------------------------------------

  /** A processed document: the trimmed text, with the boundaries taken before trimming. */
  function Processed(text: string, boundaries: seq<Span>, space: Spacing, other: Option<string>): Document {
    Document(Some(TrimEnd(text, space)),
              seq(|boundaries|, i requires 0 <= i < |boundaries| => Boundary(Some(boundaries[i].start),
                  Some(boundaries[i].end))), other)
  }

  /** The part belongs to the document, quotes its normalized text at its span, and holds the character at `p`. */
  ghost predicate HoldsCharacter(part: Segment, source: nat, normalized: string, p: nat) {
    && part.source == source && part.text.Some? && part.span.Some?
    && part.text.value == Slice(normalized, part.span.value.start, part.span.value.end)
    && 0 <= part.span.value.start <= p < part.span.value.start + |part.text.value| && p < |normalized|
    && part.text.value[p - part.span.value.start] == normalized[p]
  }

  lemma FirstAndRest(documents: seq<Document>, first: nat)
    requires documents != []
    ensures DocumentSegments(documents, first) ==
        SegmentsOf(documents[0], first) + DocumentSegments(documents[1..], first + 1)
  {
    hide SegmentsOf;
  }

  lemma {:induction false} SegmentsAreAmong(documents: seq<Document>, first: nat, n: nat)
    requires n < |documents|
    ensures forall s :: s in SegmentsOf(documents[n], first + n) ==> s in DocumentSegments(documents, first)
    decreases n
  {
    hide SegmentsOf, DocumentSegments;
    FirstAndRest(documents, first);
    if n > 0 {
      SegmentsAreAmong(documents[1..], first + 1, n - 1);
      assert documents[1..][n - 1] == documents[n];
    }
  }

  lemma SectionHasSegment(text: string, boundaries: seq<Span>, space: Spacing, other: Option<string>, source: nat,
      i: nat)
    requires i < |boundaries| && boundaries[i].start < boundaries[i].end && TrimEnd(text, space) != ""
    ensures Segment(source, Some(Slice(TrimEnd(text, space), boundaries[i].start, boundaries[i].end)),
        Some(boundaries[i]))
          in SegmentsOf(Processed(text, boundaries, space, other), source)
  {
    var document := Processed(text, boundaries, space, other);
    assert document.boundaries[i] == Boundary(Some(boundaries[i].start), Some(boundaries[i].end));
    SegmentsQuoteText(document.normalized.value, document.boundaries, source);
  }

  lemma PartHoldsCharacter(x: Segment, parts: seq<Segment>, normalized: string, p: nat) returns (k: nat)
    requires Covers(x, parts) && x.span.Some? && 0 <= x.span.value.start <= p < x.span.value.end && p < |normalized|
    requires x.text == Some(Slice(normalized, x.span.value.start, x.span.value.end))
    ensures k < |parts| && HoldsCharacter(parts[k], x.source, normalized, p)
  {
    hide Placed, Covers;
    var i: nat := p - x.span.value.start;
    NoCharacterLost(x, parts, i);
    var m, at: nat :| 0 <= m < |parts| && at <= i && Piece(x, parts[m], at) && i < at + Length(parts[m])
        && parts[m].text.value[i - at] == x.text.value[i];
    k := m;
    PieceQuotes(x, parts[m], at, normalized);
  }

  lemma PieceQuotes(x: Segment, part: Segment, at: nat, normalized: string)
    requires x.text.Some? && x.span.Some? && 0 <= x.span.value.start && Piece(x, part, at)
    requires x.text.value == Slice(normalized, x.span.value.start, x.span.value.end)
    ensures part.span.Some? && part.span.value.start == x.span.value.start + at
    ensures part.text.value == Slice(normalized, part.span.value.start, part.span.value.end)
  {
    SubSlice(normalized, x.span.value.start, x.span.value.end, at, |part.text.value|);
  }

  /** No character of a document is lost on its way to the model: whatever the other documents are, every
      character of every page that trimming keeps is in some part of some batch, and that part quotes the
      document's normalized text at its span. */
  lemma {:induction false} EveryCharacterIsBatched(documents: seq<Document>, n: nat, sections: seq<string>,
      text: string, boundaries: seq<Span>, space: Spacing,
      other: Option<string>, batches: seq<Batch<Segment>>, i: nat, j: nat)
    requires LaidOut(sections, text, boundaries) && n < |documents|
        && documents[n] == Processed(text, boundaries, space, other)
    requires CoversAll(DocumentSegments(documents, 0), Flatten(batches))
    requires i < |sections| && j < |sections[i]| && boundaries[i].start + j < |TrimEnd(text, space)|
    ensures TrimEnd(text, space)[boundaries[i].start + j] == sections[i][j]
    ensures exists b, m ::
        0 <= b < |batches| && 0 <= m < |batches[b].items|
        && HoldsCharacter(batches[b].items[m], n, TrimEnd(text, space), boundaries[i].start + j)
  {
    hide Covers, Piece, HoldsCharacter, DocumentSegments, SegmentsOf, Processed, Slice, Concat, Flatten;
    var p := boundaries[i].start + j;
    assert text[boundaries[i].start..boundaries[i].end][j] == text[p];
    SegmentsAreAmong(documents, 0, n);
    SectionHasSegment(text, boundaries, space, other, n, i);
    var x := Segment(n, Some(Slice(TrimEnd(text, space), boundaries[i].start, boundaries[i].end)), Some(boundaries[i]));
    assert x in SegmentsOf(documents[n], 0 + n);
    assert x in DocumentSegments(documents, 0);
    var q :| 0 <= q < |DocumentSegments(documents, 0)| && DocumentSegments(documents, 0)[q] == x;
    var groups: seq<seq<Segment>> :|
      |groups| == |DocumentSegments(documents, 0)| && Flatten(batches) == Concat(groups)
      && forall g :: 0 <= g < |groups| ==> Covers(DocumentSegments(documents, 0)[g], groups[g]);
    var k := PartHoldsCharacter(x, groups[q], TrimEnd(text, space), p);
    InConcat(groups, q, k);
    var b, m := InSomeBatch(batches, groups[q][k]);
  }

  // ---------------------------------------------------------------------------------------------
  // Locators
  // ---------------------------------------------------------------------------------------------

  predicate OccursAt(text: string, word: string, i: nat) {
    i + |word| <= |text| && text[i..i + |word|] == word
  }

  /** The first place where `word` occurs in `text`, or None. */
  method IndexOf(text: string, word: string) returns (at: Option<nat>)
    ensures at.Some? ==> OccursAt(text, word, at.value) && forall i :: 0 <= i < at.value ==> !OccursAt(text, word, i)
    ensures at == None ==> forall i: nat :: !OccursAt(text, word, i)
  {
    var i := 0;
    while i + |word| <= |text|
      invariant forall k :: 0 <= k < i ==> !OccursAt(text, word, k)
    {
      if text[i..i + |word|] == word { return Some(i); }
      i := i + 1;
    }
    return None;
  }

  datatype Place = Place(page: Option<nat>, paragraph: Option<nat>, span: Span)

  datatype Located = Found(span: Span) | BoundaryNotFound | TextNotFound

  predicate Matches(p: Place, page: Option<nat>, paragraph: Option<nat>) {
    (page.Some? && p.page == page) || (paragraph.Some? && p.paragraph == paragraph)
  }

  ghost predicate FirstMatch(places: seq<Place>, i: nat, page: Option<nat>, paragraph: Option<nat>) {
    i < |places| && Matches(places[i], page, paragraph) && forall j ::
        0 <= j < i ==> !Matches(places[j], page, paragraph)
  }

  /** `exact` is not in the text of the place. */
  ghost predicate Absent(text: string, place: Place, exact: string) {
    forall k: nat :: !OccursAt(Slice(text, place.span.start, place.span.end), exact, k)
  }

  /** `span` is the first occurrence of `exact` in the text of the place. */
  ghost predicate FirstIn(text: string, place: Place, exact: string, span: Span) {
    var slice, at := Slice(text, place.span.start, place.span.end), span.start - place.span.start;
    && at >= 0 && span.end == span.start + |exact|
    && OccursAt(slice, exact, at) && forall k: nat :: k < at ==> !OccursAt(slice, exact, k)
  }

  /** The text is looked for in the first boundary that matches, and nowhere else: its first occurrence there is
      located, and its span quotes exactly the text; without one it is not found. */
  method Locate(text: string, places: seq<Place>, page: Option<nat>, paragraph: Option<nat>, exact: string)
      returns (located: Located)
    requires forall p :: p in places ==> 0 <= p.span.start <= p.span.end
    ensures located == BoundaryNotFound <==> forall p :: p in places ==> !Matches(p, page, paragraph)
    ensures located == TextNotFound <==> exists i: nat ::
        FirstMatch(places, i, page, paragraph) && Absent(text, places[i], exact)
    ensures located.Found? <==> exists i: nat ::
        FirstMatch(places, i, page, paragraph) && !Absent(text, places[i], exact)
    ensures located.Found? ==> exists i: nat ::
        FirstMatch(places, i, page, paragraph) && FirstIn(text, places[i], exact, located.span)
    ensures located.Found? && exact != "" ==>
              0 <= located.span.start <= located.span.end <= |text|
                  && text[located.span.start..located.span.end] == exact
  {
    hide OccursAt, Slice;
    for i := 0 to |places|
      invariant forall j :: 0 <= j < i ==> !Matches(places[j], page, paragraph)
    {
      if Matches(places[i], page, paragraph) {
        OnlyFirstMatch(places, i, page, paragraph);
        located := LocateIn(text, places[i], exact);
        return;
      }
    }
    return BoundaryNotFound;
  }

  method LocateIn(text: string, place: Place, exact: string) returns (located: Located)
    requires 0 <= place.span.start <= place.span.end
    ensures if Absent(text, place, exact) then located == TextNotFound
        else located.Found? && FirstIn(text, place, exact, located.span)
    ensures located.Found? && exact != "" ==>
              0 <= located.span.start <= located.span.end <= |text|
                  && text[located.span.start..located.span.end] == exact
  {
    var start, end := place.span.start, place.span.end;
    var at := IndexOf(Slice(text, start, end), exact);
    if at == None { return TextNotFound; }
    SubSliceText(text, start, end, at.value, |exact|);
    return Found(Span(start + at.value, start + at.value + |exact|));
  }

  lemma OnlyFirstMatch(places: seq<Place>, i: nat, page: Option<nat>, paragraph: Option<nat>)
    requires i < |places| && Matches(places[i], page, paragraph) && forall j ::
        0 <= j < i ==> !Matches(places[j], page, paragraph)
    ensures FirstMatch(places, i, page, paragraph) && forall k: nat :: FirstMatch(places, k, page, paragraph) ==> k == i
  {
  }

  lemma SubSliceText(text: string, start: int, end: int, at: nat, length: nat)
    requires 0 <= start <= end && at + length <= |Slice(text, start, end)|
    ensures length > 0 ==>
        start + at + length <= |text| && start + at + length <= end
        && Slice(text, start, end)[at..at + length] == text[start + at..start + at + length]
  {
  }
}
