/** Laying a report out in cards down its pages. Lengths are tenths of a point. */
module ReportPages {
  import opened ReportText

  const FIRST_PAGE_TOP := 6800
  const CONTINUATION_TOP := 7660
  const BOTTOM := 580
  const CARD_CHROME := 390
  const LINE_HEIGHT := 136
  const CARD_GAP := 130

  /** `bottom` is the lower edge of the card; a card continues a section that has one before it. */
  datatype Card = Card(section: nat, page: nat, top: int, bottom: int, continued: bool, lines: seq<string>)

  type Paragraph = seq<string>

  function Flatten(paragraphs: seq<Paragraph>): seq<string> {
    if paragraphs == [] then [] else paragraphs[0] + Flatten(paragraphs[1..])
  }

  function AvailableLines(columnY: int): int {
    (columnY - BOTTOM - CARD_CHROME) / LINE_HEIGHT
  }

  lemma {:induction false} FlattenConcatenates(left: seq<Paragraph>, right: seq<Paragraph>)
    ensures Flatten(left + right) == Flatten(left) + Flatten(right)
    decreases |left|
  {
    if left == [] {
      assert left + right == right;
    } else {
      assert (left + right)[1..] == left[1..] + right;
      FlattenConcatenates(left[1..], right);
    }
  }

  // ---------------------------------------------------------------------------------------------
  // The lines of one card
  // ---------------------------------------------------------------------------------------------

  /** The paragraphs left over: the last ones, of which the first may have lost lines. */
  predicate IsRest(rest: seq<Paragraph>, paragraphs: seq<Paragraph>) {
    rest != [] ==> |rest| <= |paragraphs| && rest[1..] == paragraphs[|paragraphs| - |rest| + 1..]
  }

  /** What goes into a card and what stays pending: whole paragraphs as long as the next one fits, and a cut
      paragraph only when not even the first one fits; then the card is full. */
  method TakeLines(pending: seq<Paragraph>, available: int) returns (body: seq<string>, rest: seq<Paragraph>)
    requires available >= 1
    ensures Flatten(pending) == body + Flatten(rest)
    ensures |body| <= available
    ensures rest == [] || (rest[0] != [] && body != [])
    ensures IsRest(rest, pending)
    ensures |body| < available ==> |rest| <= |pending| && rest == pending[|pending| - |rest|..]
    ensures rest != [] ==> |body| == available || |body| + |rest[0]| > available
  {
    body, rest := [], pending;
    while rest != [] && |body| + |rest[0]| <= available
      invariant |rest| <= |pending| && rest == pending[|pending| - |rest|..]
      invariant Flatten(pending) == body + Flatten(rest)
      invariant |body| <= available
      decreases |rest|
    {
      body, rest := body + rest[0], rest[1..];
    }
    if body == [] && rest != [] {
      var count := if available > 1 then available else 1;
      body := rest[0][..count];
      var remaining := rest[0][count..];
      assert rest[0] == body + remaining;
      assert Flatten([remaining] + rest[1..]) ==
          remaining + Flatten(rest[1..]) by { assert ([remaining] + rest[1..])[1..] == rest[1..]; }
      rest := (if remaining == [] then [] else [remaining]) + rest[1..];
    }
  }

  // ---------------------------------------------------------------------------------------------
  // What a laid out report is
  // ---------------------------------------------------------------------------------------------

  predicate FitsPage(card: Card) {
    && card.top - card.bottom == CARD_CHROME + |card.lines| * LINE_HEIGHT
    && card.top <= (if card.page == 0 then FIRST_PAGE_TOP else CONTINUATION_TOP)
    && BOTTOM <= card.bottom
  }

  /** A card stands below the one before it, or tops the next page: because it continues its section,
      or because not one line would have fitted below. */
  predicate Follows(card: Card, previous: Card) {
    if card.page == previous.page then card.top == previous.bottom - CARD_GAP && !card.continued
    else card.page == previous.page + 1 && card.top == CONTINUATION_TOP
          && (card.continued || AvailableLines(previous.bottom - CARD_GAP) < 1)
  }

  predicate LaidOut(cards: seq<Card>) {
    && (forall i :: 0 <= i < |cards| ==> FitsPage(cards[i]))
    && (forall i :: 0 < i < |cards| ==> Follows(cards[i], cards[i - 1]))
    && (cards != [] ==> cards[0].page == 0 && cards[0].top == FIRST_PAGE_TOP)
  }

  function DrawnLines(cards: seq<Card>): seq<string> {
    if cards == [] then [] else DrawnLines(cards[..|cards| - 1]) + cards[|cards| - 1].lines
  }

  /** The cards of one section: headed once, every line once and in order, and none of several empty. */
  predicate ShowsSection(cards: seq<Card>, section: nat, paragraphs: seq<Paragraph>) {
    && cards != []
    && (forall i :: 0 <= i < |cards| ==> cards[i].section == section && (cards[i].continued <==> i > 0))
    && (|cards| > 1 ==> forall i :: 0 <= i < |cards| ==> cards[i].lines != [])
    && DrawnLines(cards) == Flatten(paragraphs)
    && CutsOnlyWhenFull(cards, paragraphs)
  }

  /** Not one more line would have fitted. */
  predicate IsFull(card: Card) {
    card.bottom - LINE_HEIGHT < BOTTOM
  }

  /** So many more lines would have fitted. */
  predicate HasRoom(card: Card, lines: nat) {
    card.bottom - lines * LINE_HEIGHT >= BOTTOM
  }

  /** The lines up to the end of the card are whole paragraphs, and the next one would not have fitted. */
  predicate StopsShort(card: Card, lines: seq<string>, paragraphs: seq<Paragraph>) {
    exists k :: 0 <= k < |paragraphs| && lines == Flatten(paragraphs[..k]) && !HasRoom(card, |paragraphs[k]|)
  }

  /** A card that does not end its section is full, or ends a paragraph whose successor would not have fitted. */
  predicate CutsOnlyWhenFull(cards: seq<Card>, paragraphs: seq<Paragraph>) {
    forall i ::
        0 <= i < |cards| - 1 ==> IsFull(cards[i]) || StopsShort(cards[i], DrawnLines(cards[..i + 1]), paragraphs)
  }

  /** The cards of a section of which `pending` is still to be drawn. */
  predicate DrawsSection(cards: seq<Card>, section: nat, paragraphs: seq<Paragraph>, pending: seq<Paragraph>) {
    && cards != []
    && (forall i :: 0 <= i < |cards| ==> cards[i].section == section && (cards[i].continued <==> i > 0))
    && (pending != [] || |cards| > 1 ==> forall i :: 0 <= i < |cards| ==> cards[i].lines != [])
    && (pending != [] ==> pending[0] != [])
    && IsRest(pending, paragraphs)
    && DrawnLines(cards) + Flatten(pending) == Flatten(paragraphs)
    && CutsOnlyWhenFull(cards, paragraphs)
    && (pending != [] ==> IsFull(cards[|cards| - 1]) || StopsShort(cards[|cards| - 1], DrawnLines(cards), paragraphs))
  }

  /** How one pass leaves the section: the card's lines come off the front of what was pending. */
  predicate TakesFrom(card: Card, pending: seq<Paragraph>, rest: seq<Paragraph>) {
    && Flatten(pending) == card.lines + Flatten(rest)
    && (rest != [] ==> rest[0] != [] && card.lines != [])
    && IsRest(rest, pending)
    && (IsFull(card) || (|rest| <= |pending| && rest == pending[|pending| - |rest|..]
        && (rest != [] ==> !HasRoom(card, |rest[0]|))))
  }

  lemma {:induction false} SuffixStopsShort(card: Card, lines: seq<string>, paragraphs: seq<Paragraph>,
      rest: seq<Paragraph>)
    requires rest != [] && |rest| <= |paragraphs| && rest == paragraphs[|paragraphs| - |rest|..]
        && !HasRoom(card, |rest[0]|)
    requires lines + Flatten(rest) == Flatten(paragraphs)
    ensures StopsShort(card, lines, paragraphs)
  {
    var k := |paragraphs| - |rest|;
    assert paragraphs == paragraphs[..k] + rest;
    FlattenConcatenates(paragraphs[..k], rest);
    assert lines == (lines + Flatten(rest))[..|lines|];
    assert Flatten(paragraphs[..k]) == (Flatten(paragraphs[..k]) + Flatten(rest))[..|Flatten(paragraphs[..k])|];
    assert paragraphs[k] == rest[0];
  }

  lemma {:induction false} RestStopsShort(card: Card, lines: seq<string>, paragraphs: seq<Paragraph>,
      pending: seq<Paragraph>, rest: seq<Paragraph>)
    requires IsRest(pending, paragraphs) && 0 < |rest| < |pending| && rest == pending[|pending| - |rest|..]
        && !HasRoom(card, |rest[0]|)
    requires lines + Flatten(rest) == Flatten(paragraphs)
    ensures StopsShort(card, lines, paragraphs)
  {
    assert rest == pending[1..][|pending| - 1 - |rest|..];
    assert rest == paragraphs[|paragraphs| - |rest|..];
    SuffixStopsShort(card, lines, paragraphs, rest);
  }

  lemma {:induction false} RestOfRest(rest: seq<Paragraph>, pending: seq<Paragraph>, paragraphs: seq<Paragraph>)
    requires IsRest(rest, pending) && IsRest(pending, paragraphs)
    ensures IsRest(rest, paragraphs)
  {
    if rest != [] {
      assert rest[1..] == pending[1..][|pending| - |rest|..];
    }
  }

  lemma {:induction false} FirstCard(card: Card, section: nat, paragraphs: seq<Paragraph>, rest: seq<Paragraph>)
    requires TakesFrom(card, paragraphs, rest) && card.section == section && !card.continued
    ensures DrawsSection([card], section, paragraphs, rest)
  {
    DrawOne([], card);
    assert [] + [card] == [card];
    if rest != [] && !IsFull(card) {
      SuffixStopsShort(card, card.lines, paragraphs, rest);
    }
  }

  lemma {:induction false} NextCard(cards: seq<Card>, card: Card, section: nat, paragraphs: seq<Paragraph>,
      pending: seq<Paragraph>, rest: seq<Paragraph>)
    requires DrawsSection(cards, section, paragraphs, pending) && pending != []
    requires TakesFrom(card, pending, rest) && card.section == section && card.continued && card.lines != []
    ensures DrawsSection(cards + [card], section, paragraphs, rest)
    ensures |Flatten(rest)| < |Flatten(pending)|
  {
    hide FitsPage, IsFull, StopsShort, HasRoom;
    var drawn := cards + [card];
    DrawOne(cards, card);
    RestOfRest(rest, pending, paragraphs);
    assert DrawnLines(drawn) + Flatten(rest) == Flatten(paragraphs);
    if rest != [] && !IsFull(card) {
      assert |rest| == |pending| ==> rest == pending;
      RestStopsShort(card, DrawnLines(drawn), paragraphs, pending, rest);
    }
    forall i | 0 <= i < |drawn| - 1 ensures IsFull(drawn[i])
        || StopsShort(drawn[i], DrawnLines(drawn[..i + 1]), paragraphs) {
      assert drawn[..i + 1] == cards[..i + 1];
      assert cards[..|cards|] == cards;
    }
  }

  lemma {:induction false} DrawOne(cards: seq<Card>, card: Card)
    ensures DrawnLines(cards + [card]) == DrawnLines(cards) + card.lines
  {
    assert (cards + [card])[..|cards|] == cards;
  }

  lemma {:induction false} AddCard(cards: seq<Card>, card: Card)
    requires LaidOut(cards) && FitsPage(card)
    requires if cards == [] then card.page == 0 && card.top == FIRST_PAGE_TOP else Follows(card, cards[|cards| - 1])
    ensures LaidOut(cards + [card])
  {
  }

  lemma PendingIsNotBlank(cards: seq<Card>, section: nat, paragraphs: seq<Paragraph>, pending: seq<Paragraph>)
    requires DrawsSection(cards, section, paragraphs, pending) && pending != []
    ensures pending[0] != []
  {
  }

  lemma {:induction false} NothingPending(cards: seq<Card>, section: nat, paragraphs: seq<Paragraph>)
    requires DrawsSection(cards, section, paragraphs, [])
    ensures ShowsSection(cards, section, paragraphs)
  {
  }

  /** A section never takes more cards than it has lines, or one if it has none. */
  lemma {:induction false} CardsPerLine(cards: seq<Card>)
    requires forall i :: 0 <= i < |cards| ==> cards[i].lines != []
    ensures |cards| <= |DrawnLines(cards)|
    decreases |cards|
  {
    if cards != [] {
      CardsPerLine(cards[..|cards| - 1]);
    }
  }

  // ---------------------------------------------------------------------------------------------
  // The layout
  // ---------------------------------------------------------------------------------------------

  class ReportLayout {
    var page: nat
    var columnY: int
    var cards: seq<Card>

    /** The cursor stands right below the last card. */
    ghost predicate Valid() reads this {
      && LaidOut(cards)
      && if cards == [] then page == 0 && columnY == FIRST_PAGE_TOP
          else page == cards[|cards| - 1].page && columnY == cards[|cards| - 1].bottom - CARD_GAP
    }

    /** Within a section that continues, the cursor tops a page of its own. */
    ghost predicate OnNewPage() reads this {
      && LaidOut(cards)
      && cards != []
      && page == cards[|cards| - 1].page + 1
      && columnY == CONTINUATION_TOP
    }

    constructor ()
      ensures Valid() && cards == []
    {
      page, columnY, cards := 0, FIRST_PAGE_TOP, [];
    }

    method AddContinuationPage()
      modifies this`page, this`columnY
      ensures page == old(page) + 1 && columnY == CONTINUATION_TOP
    {
      page := page + 1;
      columnY := CONTINUATION_TOP;
    }

    /** One pass of the section loop: a card with as many of the pending lines as it takes. */
    method DrawCard(section: nat, pending: seq<Paragraph>, continuation: bool) returns (rest: seq<Paragraph>)
      requires if continuation then OnNewPage() && pending != [] && pending[0] != [] else Valid()
      modifies this
      ensures Valid()
      ensures |cards| == |old(cards)| + 1 && cards[..|old(cards)|] == old(cards)
      ensures var card := cards[|old(cards)|];
              card.section == section && card.continued == continuation && TakesFrom(card, pending, rest)
      ensures pending != [] && pending[0] != [] ==> cards[|old(cards)|].lines != []
    {
      var available := AvailableLines(columnY);
      if available < 1 {
        AddContinuationPage();
        available := AvailableLines(columnY);
      }
      var body;
      body, rest := TakeLines(pending, available);
      var height := CARD_CHROME + |body| * LINE_HEIGHT;
      var card := Card(section, page, columnY, columnY - height, continuation, body);
      AddCard(cards, card);
      cards := cards + [card];
      columnY := columnY - height - CARD_GAP;
    }

    method DrawSection(section: nat, paragraphs: seq<Paragraph>)
      requires Valid()
      modifies this
      ensures Valid()
      ensures |old(cards)| <= |cards| && cards[..|old(cards)|] == old(cards)
      ensures ShowsSection(cards[|old(cards)|..], section, paragraphs)
    {
      hide LaidOut, DrawsSection, TakesFrom;
      ghost var before := cards;
      var pending := DrawCard(section, paragraphs, false);
      assert cards[|before|..] == [cards[|before|]];
      FirstCard(cards[|before|], section, paragraphs, pending);
      while pending != []
        invariant Valid() && |before| < |cards| && cards[..|before|] == before
        invariant DrawsSection(cards[|before|..], section, paragraphs, pending)
        decreases |Flatten(pending)|
      {
        ghost var drawn, last := cards[|before|..], pending;
        PendingIsNotBlank(drawn, section, paragraphs, pending);
        AddContinuationPage();
        pending := DrawCard(section, pending, true);
        assert cards[|before|..] == drawn + [cards[|cards| - 1]];
        NextCard(drawn, cards[|cards| - 1], section, paragraphs, last, pending);
      }
      NothingPending(cards[|before|..], section, paragraphs);
    }
  }
  // ---------------------------------------------------------------------------------------------
  // The whole report
  // ---------------------------------------------------------------------------------------------

  function CardsOf(cards: seq<Card>, section: nat): seq<Card> {
    if cards == [] then []
    else CardsOf(cards[..|cards| - 1], section)
          + (if cards[|cards| - 1].section == section then [cards[|cards| - 1]] else [])
  }

  lemma {:induction false} CardsOfConcatenates(left: seq<Card>, right: seq<Card>, section: nat)
    ensures CardsOf(left + right, section) == CardsOf(left, section) + CardsOf(right, section)
    decreases |right|
  {
    if right == [] {
      assert left + right == left;
    } else {
      assert (left + right)[..|left + right| - 1] == left + right[..|right| - 1];
      CardsOfConcatenates(left, right[..|right| - 1], section);
    }
  }

  lemma {:induction false} CardsOfOneSection(cards: seq<Card>, own: nat, section: nat)
    requires forall i :: 0 <= i < |cards| ==> cards[i].section == own
    ensures CardsOf(cards, section) == if section == own then cards else []
    decreases |cards|
  {
    if cards != [] {
      CardsOfOneSection(cards[..|cards| - 1], own, section);
    }
  }

  lemma {:induction false} NoCardsOf(cards: seq<Card>, section: nat)
    requires forall i :: 0 <= i < |cards| ==> cards[i].section != section
    ensures CardsOf(cards, section) == []
    decreases |cards|
  {
    if cards != [] {
      NoCardsOf(cards[..|cards| - 1], section);
    }
  }

  predicate Wraps(lines: seq<string>, paragraph: string, width: string -> int, maxWidth: int) {
    && AllWords(lines) == Words(paragraph)
    && forall i :: 0 <= i < |lines| ==> FitsColumn(lines[i], width, maxWidth)
  }

  predicate WrapsAll(paragraphs: seq<Paragraph>, body: seq<string>, width: string -> int, maxWidth: int) {
    |paragraphs| == |body| && forall p :: 0 <= p < |body| ==> Wraps(paragraphs[p], body[p], width, maxWidth)
  }

  ghost predicate IsShown(cards: seq<Card>, section: nat, body: seq<string>, width: string -> int, maxWidth: int) {
    exists paragraphs :: WrapsAll(paragraphs, body, width, maxWidth) && ShowsSection(cards, section, paragraphs)
  }

  lemma {:induction false} WrappedWords(paragraphs: seq<Paragraph>, body: seq<string>, width: string -> int,
      maxWidth: int)
    requires WrapsAll(paragraphs, body, width, maxWidth)
    ensures AllWords(Flatten(paragraphs)) == AllWords(body)
    decreases |paragraphs|
  {
    hide Words, FitsColumn;
    if paragraphs != [] {
      WordsConcatenate(paragraphs[0], Flatten(paragraphs[1..]));
      assert Wraps(paragraphs[0], body[0], width, maxWidth);
      forall p | 0 <= p < |body| - 1 ensures Wraps(paragraphs[1..][p], body[1..][p], width, maxWidth) {
        assert Wraps(paragraphs[p + 1], body[p + 1], width, maxWidth);
      }
      WrappedWords(paragraphs[1..], body[1..], width, maxWidth);
    }
  }

  /** Every word of the section's body is drawn exactly once and in order. */
  lemma {:induction false} ShownKeepsWords(cards: seq<Card>, section: nat, body: seq<string>, width: string -> int,
      maxWidth: int)
    requires IsShown(cards, section, body, width, maxWidth)
    ensures AllWords(DrawnLines(cards)) == AllWords(body)
  {
    hide ShowsSection, WrapsAll;
    var paragraphs :| WrapsAll(paragraphs, body, width, maxWidth) && ShowsSection(cards, section, paragraphs);
    WrappedWords(paragraphs, body, width, maxWidth);
    assert DrawnLines(cards) == Flatten(paragraphs) by { ShownLines(cards, section, paragraphs); }
  }

  lemma ShownLines(cards: seq<Card>, section: nat, paragraphs: seq<Paragraph>)
    requires ShowsSection(cards, section, paragraphs)
    ensures DrawnLines(cards) == Flatten(paragraphs)
    ensures forall i :: 0 <= i < |cards| ==> cards[i].section == section
  {
  }

  /** The lines of a section's body, each of its cleaned paragraphs wrapped by itself. */
  method SectionParagraphLines(body: seq<string>, width: string -> int, maxWidth: int)
      returns (paragraphs: seq<Paragraph>)
    ensures WrapsAll(paragraphs, body, width, maxWidth)
  {
    hide Words, AllWords, FitsColumn;
    paragraphs := [];
    while |paragraphs| < |body|
      invariant |paragraphs| <= |body|
      invariant forall p :: 0 <= p < |paragraphs| ==> Wraps(paragraphs[p], body[p], width, maxWidth)
    {
      var lines := Wrap(body[|paragraphs|], width, maxWidth);
      paragraphs := paragraphs + [lines];
    }
  }

  /** The first `count` sections have been laid out, one after the other. */
  ghost predicate AllShown(cards: seq<Card>, count: nat, bodies: seq<seq<string>>, width: string -> int, maxWidth: int)
    requires count <= |bodies|
  {
    && (forall i :: 0 <= i < |cards| ==> cards[i].section < count)
    && (forall i, j :: 0 <= i < j < |cards| ==> cards[i].section <= cards[j].section)
    && (forall section ::
        0 <= section < count ==> IsShown(CardsOf(cards, section), section, bodies[section], width, maxWidth))
  }

  lemma {:induction false} OneMoreShown(cards: seq<Card>, drawn: seq<Card>, paragraphs: seq<Paragraph>, index: nat,
      bodies: seq<seq<string>>, width: string -> int, maxWidth: int)
    requires index < |bodies| && AllShown(cards, index, bodies, width, maxWidth)
    requires WrapsAll(paragraphs, bodies[index], width, maxWidth) && ShowsSection(drawn, index, paragraphs)
    ensures AllShown(cards + drawn, index + 1, bodies, width, maxWidth)
  {
    ShownLines(drawn, index, paragraphs);
    hide ShowsSection, WrapsAll;
    forall section | 0 <= section <= index
      ensures IsShown(CardsOf(cards + drawn, section), section, bodies[section], width, maxWidth)
    {
      CardsOfConcatenates(cards, drawn, section);
      CardsOfOneSection(drawn, index, section);
      if section == index {
        NoCardsOf(cards, index);
        assert CardsOf(cards + drawn, index) == drawn;
      } else {
        assert CardsOf(cards + drawn, section) == CardsOf(cards, section);
      }
    }
  }

  /** The report's visible sections, laid out one after the other in a single column. */
  method RenderSections(bodies: seq<seq<string>>, width: string -> int, maxWidth: int) returns (cards: seq<Card>)
    ensures LaidOut(cards)
    ensures AllShown(cards, |bodies|, bodies, width, maxWidth)
  {
    hide LaidOut, ShowsSection, WrapsAll, IsShown;
    var layout := new ReportLayout();
    var index := 0;
    while index < |bodies|
      invariant 0 <= index <= |bodies| && layout.Valid() && fresh(layout)
      invariant AllShown(layout.cards, index, bodies, width, maxWidth)
    {
      var paragraphs := SectionParagraphLines(bodies[index], width, maxWidth);
      ghost var before := layout.cards;
      layout.DrawSection(index, paragraphs);
      OneMoreShown(before, layout.cards[|before|..], paragraphs, index, bodies, width, maxWidth);
      assert layout.cards == before + layout.cards[|before|..];
      index := index + 1;
    }
    cards := layout.cards;
  }
}
