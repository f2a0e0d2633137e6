/** Requests that fit a token limit. */
module ClaimBatching {
  import opened Wrappers

  // ---------------------------------------------------------------------------------------------
  // Documents
  // ---------------------------------------------------------------------------------------------

  datatype Span = Span(start: int, end: int)

  /** A piece of a document. Documents without extracted boundaries are passed on whole, perhaps without
      any text. */
  datatype Segment = Segment(source: nat, text: Option<string>, span: Option<Span>)

  /** What the token counter sees of a segment. The counter is any deterministic function of what the model
      sees; batch identifiers and text spans are not counted. */
  datatype Seen = Seen(source: nat, text: Option<string>)

  datatype Boundary = Boundary(start: Option<int>, end: Option<int>)

  /** `normalized` is None when the document was not processed to text. */
  datatype Document = Document(normalized: Option<string>, boundaries: seq<Boundary>, text: Option<string>)

  datatype Batch<T> = Batch(order: nat, items: seq<T>)

  datatype BatchingError =
    | LIMIT_INVALID
    | OVERLAP_INVALID
    | BASE_EXCEEDS_LIMIT
    | DOCUMENT_SEGMENT_EXCEEDS_LIMIT
    | UTTERANCE_EXCEEDS_LIMIT

  datatype Packing<T> = Packed(batches: seq<Batch<T>>) | Failed(error: BatchingError)

  type DocumentCounter = (nat, seq<Seen>) -> int

  const OVERLAP_CHARACTERS := 256

  function Min(x: int, y: int): int {
    if x < y then x else y
  }

  function Max(x: int, y: int): int {
    if x < y then y else x
  }

  function View(segments: seq<Segment>): (seen: seq<Seen>)
    ensures |seen| == |segments|
  {
    seq(|segments|, i requires 0 <= i < |segments| => Seen(segments[i].source, segments[i].text))
  }

  function Length(s: Segment): nat {
    if s.text.Some? then |s.text.value| else 0
  }

  function TotalLength(segments: seq<Segment>): nat {
    if segments == [] then 0 else Length(segments[0]) + TotalLength(segments[1..])
  }

  function Flatten<T>(batches: seq<Batch<T>>): seq<T> {
    if batches == [] then [] else Flatten(batches[..|batches| - 1]) + batches[|batches| - 1].items
  }

  lemma FlattenOneMore<T>(batches: seq<Batch<T>>, b: Batch<T>)
    ensures Flatten(batches + [b]) == Flatten(batches) + b.items
  {
    assert (batches + [b])[..|batches|] == batches;
  }

  /** String slicing of the host language: negative bounds count from the end, and both are clamped. */
  function Bound(i: int, n: nat): (b: nat)
    ensures b <= n
  {
    if i < 0 then Max(n + i, 0) else Min(i, n)
  }

  function Slice(text: string, start: int, end: int): string {
    var from, to := Bound(start, |text|), Bound(end, |text|);
    if from <= to then text[from..to] else ""
  }

  function Base(s: Segment): int {
    if s.span.Some? then s.span.value.start else 0
  }

  function Overlap(accepted: nat): (n: nat)
    ensures accepted > 0 ==> n < accepted && n <= OVERLAP_CHARACTERS
  {
    Min(OVERLAP_CHARACTERS, Max(0, accepted - 1))
  }

  /** The first `n` characters. */
  function Prefix(s: Segment, n: nat): Segment
    requires s.text.Some? && n <= |s.text.value|
  {
    s.(text := Some(s.text.value[..n]), span := Some(Span(Base(s), Base(s) + n)))
  }

  /** What is left from the `n`-th character on. */
  function Rest(s: Segment, n: nat): Segment
    requires s.text.Some? && n <= |s.text.value|
  {
    s.(text := Some(s.text.value[n..]), span := Some(Span(Base(s) + n, Base(s) + |s.text.value|)))
  }

  /** `s` is cut into a prefix and a rest that repeats a little of it. */
  ghost predicate SplitAt(s: Segment, accepted: nat, p: Segment, r: Segment) {
    && s.text.Some? && 1 <= accepted < |s.text.value|
    && p == Prefix(s, accepted)
    && r == Rest(s, accepted - Overlap(accepted))
  }

  /** A part of `x` that lies at `at`. */
  ghost predicate Piece(x: Segment, part: Segment, at: nat)
    requires x.text.Some?
  {
    && part.source == x.source && part.text.Some?
    && at + |part.text.value| <= |x.text.value|
    && part.text.value == x.text.value[at..at + |part.text.value|]
    && (part == x || part.span == Some(Span(Base(x) + at, Base(x) + at + |part.text.value|)))
  }

  /** After a part of the given length at `at`, the next one starts later, leaves no gap, and repeats at
      most 256 characters. */
  ghost predicate Follows(length: nat, at: nat, next: nat) {
    at < next <= at + length <= next + OVERLAP_CHARACTERS
  }

  /** The parts cover every character of `x`, in order, and each lies where its span says. */
  ghost predicate Placed(x: Segment, parts: seq<Segment>, at: seq<nat>)
    requires x.text.Some?
  {
    && |at| == |parts| > 0 && at[0] == 0
    && (forall i :: 0 <= i < |parts| ==> Piece(x, parts[i], at[i]))
    && (forall i :: 0 <= i < |parts| - 1 ==> Follows(Length(parts[i]), at[i], at[i + 1]))
    && at[|parts| - 1] + |parts[|parts| - 1].text.value| == |x.text.value|
  }

  lemma WholeIsPlaced(x: Segment)
    requires x.text.Some?
    ensures Placed(x, [x], [0])
  {
  }

  lemma SplitPieces(x: Segment, s: Segment, at: nat, accepted: nat, p: Segment, r: Segment)
    requires x.text.Some? && Piece(x, s, at) && at + |s.text.value| == |x.text.value| && SplitAt(s, accepted, p, r)
    requires s == x ==> at == 0
    ensures Piece(x, p, at) && Piece(x, r, at + accepted - Overlap(accepted))
        && Follows(Length(p), at, at + accepted - Overlap(accepted))
    ensures at + accepted - Overlap(accepted) + |r.text.value| == |x.text.value|
  {
    assert s.text.value == x.text.value[at..];
    assert p.text.value == x.text.value[at..at + accepted];
    assert r.text.value == x.text.value[at + accepted - Overlap(accepted)..];
  }

  /** Cutting the last part keeps the parts in place. */
  lemma SplitLastIsPlaced(x: Segment, front: seq<Segment>, s: Segment, at: seq<nat>, accepted: nat, p: Segment,
      r: Segment)
    requires x.text.Some? && Placed(x, front + [s], at) && SplitAt(s, accepted, p, r)
    ensures Placed(x, front + [p, r], at + [at[|front|] + accepted - Overlap(accepted)])
  {
    hide Piece, Follows, SplitAt;
    var before, after, n := front + [s], front + [p, r], |front|;
    var later := at + [at[n] + accepted - Overlap(accepted)];
    assert before[n] == s && Piece(x, s, at[n]);
    PieceOfItself(x, s, at[n]);
    SplitPieces(x, s, at[n], accepted, p, r);
    forall i | 0 <= i < |after|
      ensures Piece(x, after[i], later[i])
    {
      if i < n { assert after[i] == before[i]; }
    }
    forall i | 0 <= i < |after| - 1
      ensures Follows(Length(after[i]), later[i], later[i + 1])
    {
      if i < n {
        assert after[i] == before[i];
        assert Follows(Length(before[i]), at[i], at[i + 1]);
      }
    }
  }

  lemma PieceOfItself(x: Segment, s: Segment, at: nat)
    requires x.text.Some? && Piece(x, s, at)
    ensures s == x ==> at == 0
    ensures s.text.Some?
  {
  }

  /** What becomes of one input segment. */
  ghost predicate Covers(x: Segment, parts: seq<Segment>) {
    if x.text.Some? then exists at: seq<nat> :: Placed(x, parts, at) else parts == [x]
  }

  lemma CoveredWhole(x: Segment)
    ensures Covers(x, [x])
  {
    if x.text.Some? { WholeIsPlaced(x); }
  }

  lemma CoveredSplit(x: Segment, front: seq<Segment>, s: Segment, accepted: nat, p: Segment, r: Segment)
    requires Covers(x, front + [s]) && SplitAt(s, accepted, p, r)
    ensures Covers(x, front + [p, r])
  {
    hide Placed;
    if x.text.Some? {
      var at: seq<nat> :| Placed(x, front + [s], at);
      PlacedLength(x, front + [s], at);
      SplitLastIsPlaced(x, front, s, at, accepted, p, r);
    } else {
      LastOfOne(x, front, s);
    }
  }

  lemma LastOfOne(x: Segment, front: seq<Segment>, s: Segment)
    requires front + [s] == [x]
    ensures s == x
  {
    assert (front + [s])[|front|] == s;
  }

  lemma PlacedLength(x: Segment, parts: seq<Segment>, at: seq<nat>)
    requires x.text.Some? && Placed(x, parts, at)
    ensures |at| == |parts|
  {
  }

  // ---------------------------------------------------------------------------------------------
  // Packing documents
  // ---------------------------------------------------------------------------------------------

  function Concat<T>(groups: seq<seq<T>>): seq<T> {
    if groups == [] then [] else Concat(groups[..|groups| - 1]) + groups[|groups| - 1]
  }

  lemma ConcatOneMore<T>(groups: seq<seq<T>>, g: seq<T>)
    ensures Concat(groups + [g]) == Concat(groups) + g
  {
    assert (groups + [g])[..|groups|] == groups;
  }

  /** The parts of all the segments, in order. */
  ghost predicate CoversAll(segments: seq<Segment>, parts: seq<Segment>) {
    exists groups: seq<seq<Segment>> ::
      |groups| == |segments| && parts == Concat(groups) && forall i ::
          0 <= i < |groups| ==> Covers(segments[i], groups[i])
  }

  /** Every batch carries its position as its order, is not empty, and was measured within the limit. */
  ghost predicate DocumentBatches(batches: seq<Batch<Segment>>, startOrder: nat, limit: int, count: DocumentCounter) {
    forall k :: 0 <= k < |batches| ==>
      batches[k].order == startOrder + k && batches[k].items != []
          && count(batches[k].order, View(batches[k].items)) <= limit
  }

  function Measure(s: Segment, n: nat): seq<Seen>
    requires s.text.Some? && n <= |s.text.value|
  {
    [Seen(s.source, Some(s.text.value[..n]))]
  }

  /** Not even one character of the segment fits, or it has no text to cut. */
  ghost predicate TooBig(s: Segment, order: nat, limit: int, count: DocumentCounter) {
    && count(order, View([s])) > limit
    && (s.text == None || s.text.value == "" || count(order, Measure(s, 1)) > limit)
  }

  /** An input segment, or a part cut from one. */
  ghost predicate IsPartOf(s: Segment, segments: seq<Segment>) {
    s in segments || exists x, at: nat :: x in segments && x.text.Some? && Piece(x, s, at)
  }

  /** So many characters of the segment fit, and one more does not. */
  ghost predicate FitsUpTo(s: Segment, n: nat, order: nat, limit: int, count: DocumentCounter) {
    && s.text.Some? && 1 <= n < |s.text.value|
    && count(order, [Seen(s.source, Some(s.text.value[..n]))]) <= limit
    && count(order, [Seen(s.source, Some(s.text.value[..n + 1]))]) > limit
  }

  /** How a batch is closed while `pending` waits to be packed. It takes whole segments as long as the next one still
      fits. Only a segment that does not fit alone is cut, where one character more would not fit; what is left of it
      begins 256 characters before the cut, or as many as there are but one. */
  ghost predicate Closes(pending: seq<Segment>, b: Batch<Segment>, rest: seq<Segment>, order: nat, limit: int,
      count: DocumentCounter)
  {
    && pending != [] && b.order == order && b.items != []
    && if count(order, View([pending[0]])) <= limit then
          var n := |b.items|;
          && n <= |pending| && b.items == pending[..n] && rest == pending[n..]
          && (forall m :: 1 <= m <= n ==> count(order, View(pending[..m])) <= limit)
          && (n < |pending| ==> count(order, View(pending[..n + 1])) > limit)
        else
          var s, n := pending[0], Length(b.items[0]);
          && FitsUpTo(s, n, order, limit, count) && b.items == [Prefix(s, n)]
          && rest == [Rest(s, if n > 256 then n - 256 else 1)] + pending[1..]
  }

  /** `queues[k]` is what waits to be packed when the first `k` batches are closed. */
  ghost predicate Packs(queues: seq<seq<Segment>>, batches: seq<Batch<Segment>>, startOrder: nat, limit: int,
      count: DocumentCounter)
  {
    && |queues| == |batches| + 1
    && forall k :: 0 <= k < |batches| ==>
        Closes(queues[k], batches[k], queues[k + 1], startOrder + k, limit, count)
  }

  lemma {:induction false} OneMoreClosed(queues: seq<seq<Segment>>, batches: seq<Batch<Segment>>, startOrder: nat,
      limit: int, count: DocumentCounter, b: Batch<Segment>, rest: seq<Segment>)
    requires Packs(queues, batches, startOrder, limit, count)
    requires Closes(queues[|batches|], b, rest, startOrder + |batches|, limit, count)
    ensures Packs(queues + [rest], batches + [b], startOrder, limit, count)
  {
    hide Closes;
    forall k | 0 <= k <= |batches|
      ensures Closes((queues + [rest])[k], (batches + [b])[k], (queues + [rest])[k + 1], startOrder + k, limit, count)
    {
      if k < |batches| { assert Closes(queues[k], batches[k], queues[k + 1], startOrder + k, limit, count); }
    }
  }

  /** The segments of a batch that is being filled: the first of those that waited, and each of them has fitted. */
  ghost predicate Filling(queue: seq<Segment>, current: seq<Segment>, pending: seq<Segment>, order: nat, limit: int,
      count: DocumentCounter)
  {
    && queue == current + pending
    && forall m :: 1 <= m <= |current| ==> count(order, View(queue[..m])) <= limit
  }

  lemma OneMoreFits(queue: seq<Segment>, current: seq<Segment>, pending: seq<Segment>, order: nat, limit: int,
      count: DocumentCounter)
    requires Filling(queue, current, pending, order, limit, count) && pending != []
    requires count(order, View(current + [pending[0]])) <= limit
    ensures Filling(queue, current + [pending[0]], pending[1..], order, limit, count)
  {
    assert queue[..|current| + 1] == current + [pending[0]];
    assert queue == (current + [pending[0]]) + pending[1..];
  }

  lemma ClosesFull(queue: seq<Segment>, current: seq<Segment>, pending: seq<Segment>, order: nat, limit: int,
      count: DocumentCounter)
    requires Filling(queue, current, pending, order, limit, count) && current != []
    requires pending != [] ==> count(order, View(current + [pending[0]])) > limit
    ensures Closes(queue, Batch(order, current), pending, order, limit, count)
  {
    hide View;
    assert queue[..1] == [queue[0]];
    assert queue[..|current|] == current && queue[|current|..] == pending;
    if pending != [] { assert queue[..|current| + 1] == current + [pending[0]]; }
  }

  lemma ClosesCut(queue: seq<Segment>, order: nat, limit: int, count: DocumentCounter, n: nat)
    requires queue != [] && count(order, View([queue[0]])) > limit && FitsUpTo(queue[0], n, order, limit, count)
    ensures Closes(queue, Batch(order, [Prefix(queue[0], n)]), [Rest(queue[0], n - Overlap(n))] + queue[1..], order,
        limit, count)
  {
    hide View;
  }

  /** Binary search for a prefix that fits while one character more does not. For a counter that grows
      with the text this is the longest prefix that fits. */
  method FittingPrefix(s: Segment, order: nat, limit: int, count: DocumentCounter) returns (accepted: nat)
    requires s.text.Some?
    ensures accepted <= |s.text.value|
    ensures accepted > 0 ==> count(order, Measure(s, accepted)) <= limit
    ensures accepted < |s.text.value| ==> count(order, Measure(s, accepted + 1)) > limit
  {
    var low, high := 1, |s.text.value|;
    accepted := 0;
    while low <= high
      invariant accepted == low - 1 <= high <= |s.text.value|
      invariant accepted > 0 ==> count(order, Measure(s, accepted)) <= limit
      invariant high < |s.text.value| ==> count(order, Measure(s, high + 1)) > limit
      decreases high - low
    {
      var middle := (low + high) / 2;
      if count(order, Measure(s, middle)) <= limit {
        accepted := middle;
        low := middle + 1;
      } else {
        high := middle - 1;
      }
    }
  }

  /** Where to cut a segment that does not fit alone; 0 when it cannot be cut. */
  method CutOversized(s: Segment, order: nat, limit: int, count: DocumentCounter) returns (accepted: nat)
    requires count(order, View([s])) > limit
    ensures accepted == 0 ==> TooBig(s, order, limit, count)
    ensures accepted > 0 ==>
        s.text.Some? && accepted < |s.text.value| && count(order, View([Prefix(s, accepted)])) <= limit
    ensures accepted > 0 ==> FitsUpTo(s, accepted, order, limit, count)
  {
    if s.text == None || s.text.value == "" { return 0; }
    accepted := FittingPrefix(s, order, limit, count);
    WholeDoesNotFit(s, order, limit, count);
    if accepted > 0 { assert View([Prefix(s, accepted)]) == Measure(s, accepted); }
  }

  /** How far the packing has come: `done` holds the parts already placed, `groups` the parts of each
      segment begun so far, and `head` is the part of the last one that is still pending. */
  ghost predicate Progress(segments: seq<Segment>, groups: seq<seq<Segment>>, head: seq<Segment>, done: seq<Segment>,
      pending: seq<Segment>) {
    && |groups| <= |segments| && pending == head + segments[|groups|..]
    && done + head == Concat(groups)
    && |head| <= 1
    && (head != [] ==>
        groups != [] && groups[|groups| - 1] != [] && groups[|groups| - 1][|groups[|groups| - 1]| - 1] == head[0])
    && (forall i :: 0 <= i < |groups| ==> Covers(segments[i], groups[i]))
  }

  lemma BeginSegment(segments: seq<Segment>, groups: seq<seq<Segment>>, head: seq<Segment>, done: seq<Segment>,
      pending: seq<Segment>) returns (after: seq<seq<Segment>>)
    requires Progress(segments, groups, head, done, pending) && pending != []
    ensures Progress(segments, after, [pending[0]], done, pending)
  {
    hide Covers;
    if head == [] {
      after := groups + [[pending[0]]];
      CoveredWhole(pending[0]);
      ConcatOneMore(groups, [pending[0]]);
      assert segments[|groups|] == pending[0];
    } else {
      after := groups;
      assert head == [pending[0]];
    }
  }

  lemma PendingIsPart(segments: seq<Segment>, groups: seq<seq<Segment>>, done: seq<Segment>, pending: seq<Segment>)
    requires pending != [] && Progress(segments, groups, [pending[0]], done, pending)
    ensures IsPartOf(pending[0], segments)
  {
    hide Piece, Follows, Concat;
    var x, parts := segments[|groups| - 1], groups[|groups| - 1];
    assert x in segments && Covers(x, parts) && parts[|parts| - 1] == pending[0];
    if x.text.Some? {
      var at: seq<nat> :| Placed(x, parts, at);
      assert Piece(x, parts[|parts| - 1], at[|parts| - 1]);
    }
  }

  lemma AcceptPart(segments: seq<Segment>, groups: seq<seq<Segment>>, done: seq<Segment>, pending: seq<Segment>)
    requires pending != [] && Progress(segments, groups, [pending[0]], done, pending)
    ensures Progress(segments, groups, [], done + [pending[0]], pending[1..])
  {
    hide Covers;
    assert done + [pending[0]] + [] == done + [pending[0]];
    assert pending[1..] == [] + segments[|groups|..];
  }

  lemma SplitPart(segments: seq<Segment>, groups: seq<seq<Segment>>, done: seq<Segment>, pending: seq<Segment>,
      accepted: nat) returns (after: seq<seq<Segment>>)
    requires pending != [] && Progress(segments, groups, [pending[0]], done, pending)
    requires pending[0].text.Some? && 1 <= accepted < |pending[0].text.value|
    ensures var s := pending[0];
            var p, r := Prefix(s, accepted), Rest(s, accepted - Overlap(accepted));
            Progress(segments, after, [r], done + [p], [r] + pending[1..])
  {
    hide Covers;
    var s := pending[0];
    var p, r := Prefix(s, accepted), Rest(s, accepted - Overlap(accepted));
    after := SplitLastGroup(segments, groups, s, accepted, p, r);
    assert Concat(groups) == done + [s];
    assert pending[1..] == segments[|groups|..];
  }

  /** Loses no text: the batches hold, in order, parts that cover every segment. Each batch is as full as it can be,
      and segments are cut only where they must be. It fails only when the segment, or part of one, that comes next has
      no text to cut or not one character of it fits. */
  method PackDocuments(segments: seq<Segment>, startOrder: nat, limit: int, count: DocumentCounter)
      returns (result: Packing<Segment>, ghost closed: seq<Batch<Segment>>, ghost queues: seq<seq<Segment>>)
    ensures result.Packed? ==>
        DocumentBatches(result.batches, startOrder, limit, count) && CoversAll(segments, Flatten(result.batches))
    ensures Packs(queues, closed, startOrder, limit, count) && queues[0] == segments
    ensures result.Packed? ==> closed == result.batches && queues[|closed|] == []
    ensures result.Failed? ==>
        && result.error == DOCUMENT_SEGMENT_EXCEEDS_LIMIT
        && queues[|closed|] != [] && TooBig(queues[|closed|][0], startOrder + |closed|, limit, count)
        && IsPartOf(queues[|closed|][0], segments)
  {
    hide Progress, TooBig, IsPartOf, View, Concat, Flatten, DocumentBatches, TotalLength, Prefix, Rest, Overlap,
      CoversAll, Filling, Closes, FitsUpTo, Packs;
    var batches: seq<Batch<Segment>> := [];
    var current: seq<Segment> := [];
    var pending := segments;
    ghost var groups: seq<seq<Segment>> := [];
    ghost var head: seq<Segment> := [];
    queues := [segments];
    NothingPacked(segments);
    NothingClosed(segments, startOrder, limit, count);
    while pending != []
      invariant Progress(segments, groups, head, Flatten(batches) + current, pending)
      invariant DocumentBatches(batches, startOrder, limit, count)
      invariant current != [] ==> count(startOrder + |batches|, View(current)) <= limit
      invariant |queues| == |batches| + 1 && Packs(queues, batches, startOrder, limit, count) && queues[0] == segments
      invariant Filling(queues[|batches|], current, pending, startOrder + |batches|, limit, count)
      decreases TotalLength(pending) + |pending|, |current|
    {
      var segment := pending[0];
      var order := startOrder + |batches|;
      ghost var queue := queues[|batches|];
      groups := BeginSegment(segments, groups, head, Flatten(batches) + current, pending);
      head := [segment];
      if count(order, View(current + [segment])) <= limit {
        ShiftIsShorter(pending);
        AcceptPart(segments, groups, Flatten(batches) + current, pending);
        OneMoreFits(queue, current, pending, order, limit, count);
        assert Flatten(batches) + current + [segment] == Flatten(batches) + (current + [segment]);
        pending, current, head := pending[1..], current + [segment], [];
        continue;
      }
      if current == [] {
        assert current + [segment] == [segment];
        QueueIsPending(queue, pending, order, limit, count);
        var accepted := CutOversized(segment, order, limit, count);
        PendingIsPart(segments, groups, Flatten(batches) + current, pending);
        if accepted == 0 { return Failed(DOCUMENT_SEGMENT_EXCEEDS_LIMIT), batches, queues; }
        var part, rest := Prefix(segment, accepted), Rest(segment, accepted - Overlap(accepted));
        groups := SplitPart(segments, groups, Flatten(batches) + current, pending, accepted);
        assert Flatten(batches) + current + [part] == Flatten(batches) + [part] + [];
        AppendBatch(batches, startOrder, limit, count, [part]);
        RestIsShorter(segment, accepted, pending);
        ClosesCut(queue, order, limit, count, accepted);
        OneMoreClosed(queues, batches, startOrder, limit, count, Batch(order, [part]), [rest] + pending[1..]);
        NothingFilled([rest] + pending[1..], order + 1, limit, count);
        batches, queues := batches + [Batch(order, [part])], queues + [[rest] + pending[1..]];
        pending, head := [rest] + pending[1..], [rest];
        continue;
      }
      AppendBatch(batches, startOrder, limit, count, current);
      ClosesFull(queue, current, pending, order, limit, count);
      OneMoreClosed(queues, batches, startOrder, limit, count, Batch(order, current), pending);
      NothingFilled(pending, order + 1, limit, count);
      assert Flatten(batches) + current == Flatten(batches) + current + [];
      batches, queues, current := batches + [Batch(order, current)], queues + [pending], [];
    }
    PackedAll(segments, groups, head, Flatten(batches) + current);
    if current != [] {
      AppendBatch(batches, startOrder, limit, count, current);
      ClosesFull(queues[|batches|], current, pending, startOrder + |batches|, limit, count);
      OneMoreClosed(queues, batches, startOrder, limit, count, Batch(startOrder + |batches|, current), []);
      batches, queues := batches + [Batch(startOrder + |batches|, current)], queues + [[]];
    } else {
      QueueIsPending(queues[|batches|], pending, startOrder + |batches|, limit, count);
      assert Flatten(batches) + current == Flatten(batches);
    }
    return Packed(batches), batches, queues;
  }

  lemma NothingClosed(segments: seq<Segment>, startOrder: nat, limit: int, count: DocumentCounter)
    ensures Packs([segments], [], startOrder, limit, count) && Filling(segments, [], segments, startOrder, limit, count)
  {
    NothingFilled(segments, startOrder, limit, count);
  }

  lemma QueuesAndBatches(queues: seq<seq<Segment>>, batches: seq<Batch<Segment>>, startOrder: nat, limit: int,
      count: DocumentCounter)
    requires Packs(queues, batches, startOrder, limit, count)
    ensures |queues| == |batches| + 1
  {
  }

  lemma NothingFilled(pending: seq<Segment>, order: nat, limit: int, count: DocumentCounter)
    ensures Filling(pending, [], pending, order, limit, count)
  {
    assert pending == [] + pending;
  }

  lemma QueueIsPending(queue: seq<Segment>, pending: seq<Segment>, order: nat, limit: int, count: DocumentCounter)
    requires Filling(queue, [], pending, order, limit, count)
    ensures queue == pending
  {
    assert [] + pending == pending;
  }

  lemma {:induction false} AppendBatch(batches: seq<Batch<Segment>>, startOrder: nat, limit: int,
      count: DocumentCounter, items: seq<Segment>)
    requires DocumentBatches(batches, startOrder, limit, count) && items != []
        && count(startOrder + |batches|, View(items)) <= limit
    ensures DocumentBatches(batches + [Batch(startOrder + |batches|, items)], startOrder, limit, count)
    ensures Flatten(batches + [Batch(startOrder + |batches|, items)]) == Flatten(batches) + items
  {
    FlattenOneMore(batches, Batch(startOrder + |batches|, items));
  }

  lemma ShiftIsShorter(pending: seq<Segment>)
    requires pending != []
    ensures TotalLength(pending[1..]) <= TotalLength(pending)
  {
  }

  /** The rest of a cut segment is shorter than the segment, since the overlap is shorter than the prefix. */
  lemma RestIsShorter(s: Segment, accepted: nat, pending: seq<Segment>)
    requires pending != [] && pending[0] == s && s.text.Some? && 1 <= accepted < |s.text.value|
    ensures TotalLength([Rest(s, accepted - Overlap(accepted))] + pending[1..]) < TotalLength(pending)
  {
    assert ([Rest(s, accepted - Overlap(accepted))] + pending[1..])[1..] == pending[1..];
  }

  lemma NothingPacked(segments: seq<Segment>)
    ensures Progress(segments, [], [], Flatten<Segment>([]) + [], segments)
    ensures forall startOrder, limit, count :: DocumentBatches([], startOrder, limit, count)
  {
    assert segments == [] + segments[0..];
  }

  lemma PackedAll(segments: seq<Segment>, groups: seq<seq<Segment>>, head: seq<Segment>, done: seq<Segment>)
    requires Progress(segments, groups, head, done, [])
    ensures CoversAll(segments, done)
  {
    hide Covers;
    assert head == [] && done + head == done;
  }

  lemma WholeDoesNotFit(s: Segment, order: nat, limit: int, count: DocumentCounter)
    requires s.text.Some? && count(order, View([s])) > limit
    ensures count(order, Measure(s, |s.text.value|)) > limit
  {
    assert s.text.value[..|s.text.value|] == s.text.value;
    assert View([s]) == Measure(s, |s.text.value|);
  }

  lemma SplitLastGroup(segments: seq<Segment>, groups: seq<seq<Segment>>, s: Segment, accepted: nat, p: Segment,
      r: Segment) returns (after: seq<seq<Segment>>)
    requires 0 < |groups| <= |segments| && groups[|groups| - 1] != []
        && groups[|groups| - 1][|groups[|groups| - 1]| - 1] == s
    requires forall i :: 0 <= i < |groups| ==> Covers(segments[i], groups[i])
    requires s.text.Some? && 1 <= accepted < |s.text.value| && p == Prefix(s, accepted)
        && r == Rest(s, accepted - Overlap(accepted))
    ensures |after| == |groups| && after[|after| - 1] != [] && after[|after| - 1][|after[|after| - 1]| - 1] == r
    ensures forall i :: 0 <= i < |after| ==> Covers(segments[i], after[i])
    ensures forall front :: Concat(groups) == front + [s] ==> Concat(after) == front + [p] + [r]
  {
    hide Covers;
    var n := |groups| - 1;
    var last := groups[n];
    var front := last[..|last| - 1];
    assert last == front + [s] && groups == groups[..n] + [last];
    CoveredSplit(segments[n], front, s, accepted, p, r);
    after := groups[..n] + [front + [p, r]];
    ConcatOneMore(groups[..n], last);
    ConcatOneMore(groups[..n], front + [p, r]);
    forall whole | Concat(groups) == whole + [s]
      ensures Concat(after) == whole + [p] + [r]
    {
      assert whole == (whole + [s])[..|whole|];
      assert whole == Concat(groups[..n]) + front;
    }
  }

  /** A part quotes the normalized text at its span, if the segment it comes from does. */
  lemma PartsQuoteTheirSource(x: Segment, parts: seq<Segment>, at: seq<nat>, normalized: string, i: nat)
    requires x.text.Some? && x.span.Some? && Placed(x, parts, at) && i < |parts|
    requires 0 <= x.span.value.start && x.text.value == Slice(normalized, x.span.value.start, x.span.value.end)
    ensures parts[i].span.Some? && parts[i].text ==
        Some(Slice(normalized, parts[i].span.value.start, parts[i].span.value.end))
  {
    assert Piece(x, parts[i], at[i]);
    SubSlice(normalized, x.span.value.start, x.span.value.end, at[i], |parts[i].text.value|);
  }

  lemma SubSlice(text: string, start: int, end: int, at: nat, length: nat)
    requires 0 <= start && at + length <= |Slice(text, start, end)|
    ensures Slice(text, start, end)[at..at + length] == Slice(text, start + at, start + at + length)
  {
  }

  // ---------------------------------------------------------------------------------------------
  // Utterances
  // ---------------------------------------------------------------------------------------------

  datatype Part = Part(sourceIndex: nat, partIndex: nat)

  /** `source` stands for the speaker, timing and file columns, which are passed on unchanged. */
  datatype Utterance = Utterance(source: nat, text: Option<string>, part: Option<Part>)

  type UtteranceCounter = (nat, seq<Utterance>) -> int

  const PROBE_ORDER: nat := 999_999_999

  function Excerpt(u: Utterance, from: nat, to: nat, index: nat, k: nat): Utterance
    requires u.text.Some? && from <= to <= |u.text.value|
  {
    u.(text := Some(u.text.value[from..to]), part := Some(Part(index, k)))
  }

  ghost predicate IsExcerpt(u: Utterance, index: nat, part: Utterance, at: nat, k: nat)
    requires u.text.Some?
  {
    && 0 < TextLength(part) && at + TextLength(part) <= |u.text.value|
    && part == Excerpt(u, at, at + TextLength(part), index, k)
  }

  /** The excerpt fits and with one character more would not, unless it is the last; the next one begins 256
      characters before its end, or as many as it has but one. */
  ghost predicate CutAt(u: Utterance, index: nat, part: Utterance, at: nat, next: nat, k: nat, limit: int,
      count: UtteranceCounter)
    requires u.text.Some?
  {
    var n := TextLength(part);
    && 1 <= n && at + n <= |u.text.value| && count(PROBE_ORDER, [part]) <= limit
    && next == at + (if n > 256 then n - 256 else 1)
    && (at + n < |u.text.value| ==> count(PROBE_ORDER, [Excerpt(u, at, at + n + 1, index, k)]) > limit)
  }

  ghost predicate CutWhereNeeded(u: Utterance, index: nat, parts: seq<Utterance>, at: seq<nat>, limit: int,
      count: UtteranceCounter)
    requires u.text.Some?
  {
    && |at| == |parts| + 1
    && (forall k :: 0 <= k < |parts| ==> CutAt(u, index, parts[k], at[k], at[k + 1], k, limit, count))
    && (forall k :: 0 <= k < |parts| - 1 ==> at[k] + TextLength(parts[k]) < |u.text.value|)
  }

  /** Numbered excerpts of the utterance that cover its text up to `end`. */
  ghost predicate Excerpted(u: Utterance, index: nat, parts: seq<Utterance>, at: seq<nat>, end: nat)
    requires u.text.Some?
  {
    && |at| == |parts| + 1 && at[0] == 0
    && (forall k :: 0 <= k < |parts| ==> IsExcerpt(u, index, parts[k], at[k], k))
    && (forall k :: 0 <= k < |parts| ==> Follows(TextLength(parts[k]), at[k], at[k + 1]))
    && end == if parts == [] then 0 else at[|parts| - 1] + TextLength(parts[|parts| - 1])
  }

  function TextLength(u: Utterance): nat {
    if u.text.Some? then |u.text.value| else 0
  }

  /** The utterance is excerpted to its end. */
  ghost predicate IsCut(u: Utterance, index: nat, parts: seq<Utterance>, at: seq<nat>, limit: int,
      count: UtteranceCounter)
    requires u.text.Some?
  {
    Excerpted(u, index, parts, at, |u.text.value|) && CutWhereNeeded(u, index, parts, at, limit, count)
  }

  /** An utterance that fits is passed on whole; any other is excerpted to its end. */
  ghost predicate Spoken(u: Utterance, index: nat, parts: seq<Utterance>, limit: int, count: UtteranceCounter) {
    if count(PROBE_ORDER, [u]) <= limit then parts == [u]
    else
      && u.text.Some? && u.text.value != ""
      && exists at :: IsCut(u, index, parts, at, limit, count)
  }

  ghost predicate AllSpoken(utterances: seq<Utterance>, parts: seq<Utterance>, limit: int, count: UtteranceCounter) {
    exists groups: seq<seq<Utterance>> ::
      |groups| == |utterances| && parts == Concat(groups) && forall i ::
          0 <= i < |groups| ==> Spoken(utterances[i], i, groups[i], limit, count)
  }

  ghost predicate EachFits(parts: seq<Utterance>, limit: int, count: UtteranceCounter) {
    forall k :: 0 <= k < |parts| ==> count(PROBE_ORDER, [parts[k]]) <= limit
  }

  /** An utterance that neither fits nor can be cut: it has no text, or not one character fits of what is left of it
      after some excerpts. */
  ghost predicate CannotSplit(u: Utterance, index: nat, limit: int, count: UtteranceCounter) {
    && count(PROBE_ORDER, [u]) > limit
    && (u.text == None || u.text.value == "" || exists parts, at :: StopsAt(u, index, parts, at, limit, count))
  }

  ghost predicate StopsAt(u: Utterance, index: nat, parts: seq<Utterance>, at: seq<nat>, limit: int,
      count: UtteranceCounter)
    requires u.text.Some?
  {
    && |at| == |parts| + 1 && at[0] == 0 && CutWhereNeeded(u, index, parts, at, limit, count)
    && CharacterTooBig(u, at[|parts|], index, |parts|, limit, count)
  }

  ghost predicate CharacterTooBig(u: Utterance, from: nat, index: nat, k: nat, limit: int, count: UtteranceCounter) {
    u.text.Some? && from < |u.text.value| && count(PROBE_ORDER, [Excerpt(u, from, from + 1, index, k)]) > limit
  }

  method FittingEnd(u: Utterance, cursor: nat, index: nat, k: nat, limit: int, count: UtteranceCounter)
      returns (accepted: nat)
    requires u.text.Some? && cursor < |u.text.value|
    ensures cursor <= accepted <= |u.text.value|
    ensures accepted > cursor ==> count(PROBE_ORDER, [Excerpt(u, cursor, accepted, index, k)]) <= limit
    ensures accepted < |u.text.value| ==> count(PROBE_ORDER, [Excerpt(u, cursor, accepted + 1, index, k)]) > limit
  {
    var low, high := cursor + 1, |u.text.value|;
    accepted := cursor;
    while low <= high
      invariant accepted == low - 1 <= high <= |u.text.value| && cursor <= accepted
      invariant accepted > cursor ==> count(PROBE_ORDER, [Excerpt(u, cursor, accepted, index, k)]) <= limit
      invariant high < |u.text.value| ==> count(PROBE_ORDER, [Excerpt(u, cursor, high + 1, index, k)]) > limit
      decreases high - low
    {
      var middle := (low + high) / 2;
      if count(PROBE_ORDER, [Excerpt(u, cursor, middle, index, k)]) <= limit {
        accepted := middle;
        low := middle + 1;
      } else {
        high := middle - 1;
      }
    }
  }

  method ExcerptUtterance(u: Utterance, index: nat, limit: int, count: UtteranceCounter)
      returns (ok: bool, parts: seq<Utterance>)
    requires count(PROBE_ORDER, [u]) > limit
    ensures ok ==> Spoken(u, index, parts, limit, count) && EachFits(parts, limit, count)
    ensures !ok ==> CannotSplit(u, index, limit, count)
  {
    hide CutWhereNeeded, CharacterTooBig;
    parts := [];
    if u.text == None || u.text.value == "" { return false, parts; }
    var cursor: nat := 0;
    ghost var at: seq<nat> := [0];
    ghost var end: nat := 0;
    NothingCut(u, index, limit, count);
    while true
      invariant Excerpted(u, index, parts, at, end) && CutWhereNeeded(u, index, parts, at, limit, count)
      invariant cursor < |u.text.value| && at[|parts|] == cursor && end < |u.text.value|
      invariant EachFits(parts, limit, count)
      decreases |u.text.value| - cursor
    {
      var accepted := FittingEnd(u, cursor, index, |parts|, limit, count);
      if accepted == cursor {
        OneCharacter(u, cursor, index, |parts|, limit, count);
        assert StopsAt(u, index, parts, at, limit, count);
        return false, parts;
      }
      var part := Excerpt(u, cursor, accepted, index, |parts|);
      var overlap := Min(OVERLAP_CHARACTERS, Max(0, accepted - cursor - 1));
      var next := Max(cursor + 1, accepted - overlap);
      ExcerptOneMore(u, index, parts, at, end, accepted, next);
      CutOneMore(u, index, parts, at, end, accepted, limit, count);
      parts, at, end := parts + [part], at + [next], accepted;
      if accepted >= |u.text.value| { break; }
      cursor := next;
    }
    assert IsCut(u, index, parts, at, limit, count);
    return true, parts;
  }

  lemma NothingCut(u: Utterance, index: nat, limit: int, count: UtteranceCounter)
    requires u.text.Some?
    ensures CutWhereNeeded(u, index, [], [0], limit, count)
  {
  }

  lemma OneCharacter(u: Utterance, cursor: nat, index: nat, k: nat, limit: int, count: UtteranceCounter)
    requires u.text.Some? && cursor < |u.text.value|
    requires count(PROBE_ORDER, [Excerpt(u, cursor, cursor + 1, index, k)]) > limit
    ensures CharacterTooBig(u, cursor, index, k, limit, count)
  {
  }

  lemma CutOneMore(u: Utterance, index: nat, parts: seq<Utterance>, at: seq<nat>, end: nat, accepted: nat, limit: int,
      count: UtteranceCounter)
    requires u.text.Some? && CutWhereNeeded(u, index, parts, at, limit, count) && |at| == |parts| + 1
    requires at[|parts|] < accepted <= |u.text.value|
    requires end == (if parts == [] then 0 else at[|parts| - 1] + TextLength(parts[|parts| - 1])) < |u.text.value|
    requires count(PROBE_ORDER, [Excerpt(u, at[|parts|], accepted, index, |parts|)]) <= limit
    requires accepted < |u.text.value| ==>
        count(PROBE_ORDER, [Excerpt(u, at[|parts|], accepted + 1, index, |parts|)]) > limit
    ensures var n := accepted - at[|parts|];
      CutWhereNeeded(u, index, parts + [Excerpt(u, at[|parts|], accepted, index, |parts|)],
        at + [at[|parts|] + (if n > 256 then n - 256 else 1)], limit, count)
  {
    hide CutAt;
    var n := accepted - at[|parts|];
    var part := Excerpt(u, at[|parts|], accepted, index, |parts|);
    var after, later := parts + [part], at + [at[|parts|] + (if n > 256 then n - 256 else 1)];
    LastCut(u, index, at[|parts|], accepted, |parts|, limit, count);
    forall k | 0 <= k < |after|
      ensures CutAt(u, index, after[k], later[k], later[k + 1], k, limit, count)
      ensures k < |parts| ==> at[k] + TextLength(parts[k]) < |u.text.value|
    {
      if k < |parts| { assert CutAt(u, index, parts[k], at[k], at[k + 1], k, limit, count); }
    }
  }

  lemma LastCut(u: Utterance, index: nat, at: nat, accepted: nat, k: nat, limit: int, count: UtteranceCounter)
    requires u.text.Some? && at < accepted <= |u.text.value|
    requires count(PROBE_ORDER, [Excerpt(u, at, accepted, index, k)]) <= limit
    requires accepted < |u.text.value| ==> count(PROBE_ORDER, [Excerpt(u, at, accepted + 1, index, k)]) > limit
    ensures var n := accepted - at;
      CutAt(u, index, Excerpt(u, at, accepted, index, k), at, at + (if n > 256 then n - 256 else 1), k, limit, count)
  {
  }

  lemma ExcerptOneMore(u: Utterance, index: nat, parts: seq<Utterance>, at: seq<nat>, end: nat, accepted: nat,
      next: nat)
    requires u.text.Some? && Excerpted(u, index, parts, at, end) && at[|parts|] < accepted <= |u.text.value|
    requires Follows(accepted - at[|parts|], at[|parts|], next)
    ensures Excerpted(u, index, parts + [Excerpt(u, at[|parts|], accepted, index, |parts|)], at + [next], accepted)
  {
    var after, later := parts + [Excerpt(u, at[|parts|], accepted, index, |parts|)], at + [next];
    forall k | 0 <= k < |after|
      ensures IsExcerpt(u, index, after[k], later[k], k) && Follows(TextLength(after[k]), later[k], later[k + 1])
    {
      if k < |parts| {
        assert after[k] == parts[k] && IsExcerpt(u, index, parts[k], at[k], k);
        assert Follows(TextLength(parts[k]), at[k], at[k + 1]);
      }
    }
  }

  /** Every utterance, or every excerpt of one that is too long, fits on its own. */
  method SplitUtterances(utterances: seq<Utterance>, limit: int, count: UtteranceCounter)
      returns (ok: bool, parts: seq<Utterance>)
    ensures ok ==> AllSpoken(utterances, parts, limit, count) && EachFits(parts, limit, count)
    ensures !ok ==> SomeCannotSplit(utterances, limit, count)
  {
    hide Spoken, CannotSplit;
    parts := [];
    ghost var groups: seq<seq<Utterance>> := [];
    for i := 0 to |utterances|
      invariant |groups| == i && parts == Concat(groups)
      invariant forall j :: 0 <= j < i ==> Spoken(utterances[j], j, groups[j], limit, count)
      invariant EachFits(parts, limit, count)
    {
      var more := [utterances[i]];
      if count(PROBE_ORDER, [utterances[i]]) > limit {
        var ok_;
        ok_, more := ExcerptUtterance(utterances[i], i, limit, count);
        if !ok_ { return false, parts; }
      } else {
        WholeIsSpoken(utterances[i], i, limit, count);
      }
      ConcatOneMore(groups, more);
      groups, parts := groups + [more], parts + more;
    }
    return true, parts;
  }

  ghost predicate SomeCannotSplit(utterances: seq<Utterance>, limit: int, count: UtteranceCounter) {
    exists i :: 0 <= i < |utterances| && CannotSplit(utterances[i], i, limit, count)
  }

  lemma WholeIsSpoken(u: Utterance, index: nat, limit: int, count: UtteranceCounter)
    requires count(PROBE_ORDER, [u]) <= limit
    ensures Spoken(u, index, [u], limit, count)
  {
  }

  // ---------------------------------------------------------------------------------------------
  // Windows
  // ---------------------------------------------------------------------------------------------

  datatype Window = Window(start: nat, end: nat)

  /** Nonempty windows from the first utterance on, each starting as far back as the overlap allows but
      later than the one before it, up to the last utterance. */
  ghost predicate Chain(windows: seq<Window>, n: nat, overlap: nat) {
    && (forall k :: 0 <= k < |windows| ==> windows[k].start < windows[k].end <= n)
    && (windows != [] ==> windows[0].start == 0)
    && (forall k :: 0 <= k < |windows| - 1 ==>
          windows[k].end < n && windows[k + 1].start == Max(windows[k].start + 1, windows[k].end - overlap))
  }

  /** The batch is exactly the window: as many utterances as fit, growing one by one. */
  ghost predicate IsWindow(b: Batch<Utterance>, w: Window, utterances: seq<Utterance>, order: nat, limit: int,
      count: UtteranceCounter)
  {
    && w.start < w.end <= |utterances| && b == Batch(order, utterances[w.start..w.end])
    && (forall e :: w.start < e <= w.end ==> count(order, utterances[w.start..e]) <= limit)
    && (w.end < |utterances| ==> count(order, utterances[w.start..w.end + 1]) > limit)
  }

  ghost predicate WindowBatches(batches: seq<Batch<Utterance>>, windows: seq<Window>, utterances: seq<Utterance>,
      startOrder: nat, limit: int, count: UtteranceCounter)
  {
    && |batches| == |windows|
    && forall k :: 0 <= k < |windows| ==>
        IsWindow(batches[k], windows[k], utterances, startOrder + k, limit, count)
  }

  /** The longest run from `start` that fits while it grows one utterance at a time. */
  method Grow(utterances: seq<Utterance>, start: nat, order: nat, limit: int, count: UtteranceCounter)
      returns (end: nat)
    requires start < |utterances|
    ensures start <= end <= |utterances|
    ensures forall e :: start < e <= end ==> count(order, utterances[start..e]) <= limit
    ensures end < |utterances| ==> count(order, utterances[start..end + 1]) > limit
  {
    end := start;
    while end < |utterances|
      invariant start <= end <= |utterances|
      invariant forall e :: start < e <= end ==> count(order, utterances[start..e]) <= limit
    {
      if count(order, utterances[start..end + 1]) > limit { break; }
      end := end + 1;
    }
  }

  function NextStart(windows: seq<Window>, overlap: nat): (start: int)
    ensures windows == [] ==> start == 0
    ensures windows != [] ==> start > windows[|windows| - 1].start
  {
    if windows == [] then 0 else Max(windows[|windows| - 1].start + 1, windows[|windows| - 1].end - overlap)
  }

  method PackWindows(utterances: seq<Utterance>, overlap: nat, startOrder: nat, limit: int, count: UtteranceCounter)
      returns (result: Packing<Utterance>, windows: seq<Window>)
    ensures result.Packed? ==>
        WindowBatches(result.batches, windows, utterances, startOrder, limit, count)
        && Chain(windows, |utterances|, overlap)
    ensures result.Packed? && utterances != [] ==> windows != [] && windows[|windows| - 1].end == |utterances|
    ensures result.Failed? ==>
      && result.error == UTTERANCE_EXCEEDS_LIMIT && Chain(windows, |utterances|, overlap)
      && var start := NextStart(windows, overlap);
        start < |utterances| && count(startOrder + |windows|, [utterances[start]]) > limit
  {
    hide WindowBatches, Chain;
    var batches: seq<Batch<Utterance>> := [];
    windows := [];
    NoWindows(utterances, startOrder, limit, count, overlap);
    var start: nat := 0;
    while start < |utterances|
      invariant WindowBatches(batches, windows, utterances, startOrder, limit, count)
          && Chain(windows, |utterances|, overlap)
      invariant windows == [] ==> start == 0
      invariant windows != [] ==> start < |utterances|
      invariant |batches| == |windows|
      invariant windows != [] ==>
          start == Max(windows[|windows| - 1].start + 1, windows[|windows| - 1].end - overlap)
          && windows[|windows| - 1].end < |utterances|
      decreases |utterances| - start
    {
      var order := startOrder + |batches|;
      var end := Grow(utterances, start, order, limit, count);
      if end == start {
        assert utterances[start..start + 1] == [utterances[start]];
        assert utterances[start] in utterances && count(order, [utterances[start]]) > limit;
        return Failed(UTTERANCE_EXCEEDS_LIMIT), windows;
      }
      WindowOneMore(batches, windows, utterances, startOrder, limit, count, overlap, start, end);
      batches, windows := batches + [Batch(order, utterances[start..end])], windows + [Window(start, end)];
      if end >= |utterances| { break; }
      start := Max(start + 1, end - overlap);
    }
    return Packed(batches), windows;
  }

  lemma NoWindows(utterances: seq<Utterance>, startOrder: nat, limit: int, count: UtteranceCounter, overlap: nat)
    ensures WindowBatches([], [], utterances, startOrder, limit, count) && Chain([], |utterances|, overlap)
  {
  }

  lemma {:induction false} WindowOneMore(batches: seq<Batch<Utterance>>, windows: seq<Window>,
      utterances: seq<Utterance>, startOrder: nat, limit: int,
      count: UtteranceCounter, overlap: nat, start: nat, end: nat)
    requires WindowBatches(batches, windows, utterances, startOrder, limit, count)
        && Chain(windows, |utterances|, overlap)
    requires start < end <= |utterances|
    requires forall e :: start < e <= end ==> count(startOrder + |batches|, utterances[start..e]) <= limit
    requires end < |utterances| ==> count(startOrder + |batches|, utterances[start..end + 1]) > limit
    requires windows == [] ==> start == 0
    requires windows != [] ==>
        start == Max(windows[|windows| - 1].start + 1, windows[|windows| - 1].end - overlap)
        && windows[|windows| - 1].end < |utterances|
    ensures WindowBatches(batches + [Batch(startOrder + |batches|, utterances[start..end])],
        windows + [Window(start, end)], utterances, startOrder, limit, count)
    ensures Chain(windows + [Window(start, end)], |utterances|, overlap)
  {
    hide IsWindow;
    var after := windows + [Window(start, end)];
    NextWindow(utterances, startOrder + |batches|, limit, count, start, end);
    forall k | 0 <= k < |after| - 1
      ensures after[k].end < |utterances| && after[k + 1].start == Max(after[k].start + 1, after[k].end - overlap)
    {
      assert after[k] == windows[k];
      if k + 1 < |windows| { assert after[k + 1] == windows[k + 1]; }
    }
  }

  lemma NextWindow(utterances: seq<Utterance>, order: nat, limit: int, count: UtteranceCounter, start: nat, end: nat)
    requires start < end <= |utterances|
    requires forall e :: start < e <= end ==> count(order, utterances[start..e]) <= limit
    requires end < |utterances| ==> count(order, utterances[start..end + 1]) > limit
    ensures IsWindow(Batch(order, utterances[start..end]), Window(start, end), utterances, order, limit, count)
  {
  }

  /** The windows reach every utterance. */
  lemma {:induction false} WindowsCover(windows: seq<Window>, n: nat, overlap: nat, i: nat)
    requires Chain(windows, n, overlap) && windows != [] && windows[|windows| - 1].end == n && i < n
    ensures exists k :: 0 <= k < |windows| && windows[k].start <= i < windows[k].end
  {
    var k := 0;
    while k + 1 < |windows| && windows[k + 1].start <= i
      invariant 0 <= k < |windows| && windows[k].start <= i
      decreases |windows| - k
    {
      k := k + 1;
    }
    if k + 1 < |windows| { assert windows[k + 1].start <= windows[k].end; }
  }

  /** Consecutive windows leave no gap, and share the overlap asked for, or all but one utterance of the
      earlier window when it is shorter. */
  lemma WindowsOverlap(windows: seq<Window>, n: nat, overlap: nat, k: nat)
    requires Chain(windows, n, overlap) && k + 1 < |windows|
    ensures windows[k].start < windows[k + 1].start <= windows[k].end
    ensures windows[k].end - windows[k + 1].start == Min(overlap, windows[k].end - windows[k].start - 1)
  {
  }

  ghost predicate IgnoresOrder(count: UtteranceCounter) {
    forall o, p, items :: count(o, items) == count(p, items)
  }

  /** The windows cover all utterances and their excerpts. For a counter that ignores the order number,
      packing fails only on an utterance of which not one character fits. */
  method PackUtterances(utterances: seq<Utterance>, overlap: nat, startOrder: nat, limit: int, count: UtteranceCounter)
      returns (result: Packing<Utterance>, parts: seq<Utterance>, windows: seq<Window>)
    ensures result.Packed? ==>
      && AllSpoken(utterances, parts, limit, count)
      && WindowBatches(result.batches, windows, parts, startOrder, limit, count) && Chain(windows, |parts|, overlap)
      && (parts != [] ==> windows != [] && windows[|windows| - 1].end == |parts|)
    ensures result.Failed? ==> result.error == UTTERANCE_EXCEEDS_LIMIT
    ensures result.Failed? && IgnoresOrder(count) ==> SomeCannotSplit(utterances, limit, count)
  {
    hide AllSpoken, SomeCannotSplit, WindowBatches, Chain;
    var ok, split := SplitUtterances(utterances, limit, count);
    if !ok { return Failed(UTTERANCE_EXCEEDS_LIMIT), split, []; }
    result, windows := PackWindows(split, overlap, startOrder, limit, count);
    parts := split;
    if result.Failed? && IgnoresOrder(count) {
      var u, order :| u in split && count(order, [u]) > limit;
      SplitFits(split, limit, count, u, order);
    }
  }

  lemma SplitFits(parts: seq<Utterance>, limit: int, count: UtteranceCounter, u: Utterance, order: nat)
    requires EachFits(parts, limit, count) && IgnoresOrder(count) && u in parts
    ensures count(order, [u]) <= limit
  {
    var k :| 0 <= k < |parts| && parts[k] == u;
    assert count(order, [u]) == count(PROBE_ORDER, [u]);
  }

  // ---------------------------------------------------------------------------------------------
  // No character is lost
  // ---------------------------------------------------------------------------------------------

  /** Parts of the given lengths that follow each other from 0 to `n` reach every position below `n`. */
  lemma {:induction false} ChainReaches(at: seq<nat>, lengths: seq<nat>, n: nat, i: nat) returns (k: nat)
    requires |at| == |lengths| > 0 && at[0] == 0 && i < n
    requires forall j :: 0 <= j < |at| - 1 ==> Follows(lengths[j], at[j], at[j + 1])
    requires at[|at| - 1] + lengths[|at| - 1] == n
    ensures k < |at| && at[k] <= i < at[k] + lengths[k]
  {
    k := 0;
    while k + 1 < |at| && at[k + 1] <= i
      invariant k < |at| && at[k] <= i
      decreases |at| - k
    {
      k := k + 1;
    }
    if k + 1 < |at| { assert Follows(lengths[k], at[k], at[k + 1]); }
  }

  /** Every character of a segment is in some part, at the place the part's position says. */
  lemma NoCharacterLost(x: Segment, parts: seq<Segment>, i: nat)
    requires Covers(x, parts) && x.text.Some? && i < |x.text.value|
    ensures exists k, at: nat ::
        0 <= k < |parts| && at <= i && Piece(x, parts[k], at) && i < at + Length(parts[k])
        && parts[k].text.value[i - at] == x.text.value[i]
  {
    var at: seq<nat> :| Placed(x, parts, at);
    var k := ChainReaches(at, seq(|parts|, j requires 0 <= j < |parts| => Length(parts[j])), |x.text.value|, i);
    assert Piece(x, parts[k], at[k]);
  }

  /** An item of all the batches together is an item of one of them. */
  lemma {:induction false} InSomeBatch<T>(batches: seq<Batch<T>>, x: T) returns (b: nat, m: nat)
    requires x in Flatten(batches)
    ensures b < |batches| && m < |batches[b].items| && batches[b].items[m] == x
  {
    var last := |batches| - 1;
    if x in batches[last].items {
      b := last;
      m :| 0 <= m < |batches[last].items| && batches[last].items[m] == x;
    } else {
      b, m := InSomeBatch(batches[..last], x);
    }
  }

  lemma {:induction false} InConcat<T>(groups: seq<seq<T>>, i: nat, k: nat)
    requires i < |groups| && k < |groups[i]|
    ensures groups[i][k] in Concat(groups)
  {
    if i < |groups| - 1 { InConcat(groups[..|groups| - 1], i, k); }
  }

  /** The same for an utterance and its excerpts. */
  lemma NoWordLost(u: Utterance, index: nat, parts: seq<Utterance>, limit: int, count: UtteranceCounter, i: nat)
    requires Spoken(u, index, parts, limit, count) && u.text.Some? && i < |u.text.value|
    ensures parts == [u] || exists k: nat, at: nat ::
        k < |parts| && at <= i && IsExcerpt(u, index, parts[k], at, k) && i < at + TextLength(parts[k])
  {
    if parts != [u] {
      var at :| IsCut(u, index, parts, at, limit, count);
      var k := ChainReaches(at[..|parts|], seq(|parts|, j requires 0 <= j < |parts| => TextLength(parts[j])),
          |u.text.value|, i);
      assert IsExcerpt(u, index, parts[k], at[k], k);
    }
  }

  // ---------------------------------------------------------------------------------------------
  // All batches
  // ---------------------------------------------------------------------------------------------

  datatype Request =
    | EmptyRequest
    | DocumentRequest(documents: seq<Seen>)
    | TranscriptRequest(utterances: seq<Utterance>)

  type RequestCounter = (nat, Request) -> int

  datatype Content = Nothing | DocumentContent(segments: seq<Segment>) | TranscriptContent(utterances: seq<Utterance>)

  datatype ClaimBatch = ClaimBatch(order: nat, content: Content)

  datatype Batching = Batches(batches: seq<ClaimBatch>) | Rejected(error: BatchingError)

  function DocumentCount(count: RequestCounter): DocumentCounter {
    (order: nat, seen: seq<Seen>) => count(order, DocumentRequest(seen))
  }

  function TranscriptCount(count: RequestCounter): UtteranceCounter {
    (order: nat, items: seq<Utterance>) => count(order, TranscriptRequest(items))
  }

  function RequestOf(c: Content): Request {
    match c
    case Nothing => EmptyRequest
    case DocumentContent(segments) => DocumentRequest(View(segments))
    case TranscriptContent(utterances) => TranscriptRequest(utterances)
  }

  /** Orders are list positions and every batch, as the model will see it, is within the limit. */
  ghost predicate Sound(batches: seq<ClaimBatch>, limit: int, count: RequestCounter) {
    forall k :: 0 <= k < |batches| ==> batches[k].order == k && count(k, RequestOf(batches[k].content)) <= limit
  }

  function DocumentPart(batches: seq<Batch<Segment>>): seq<ClaimBatch> {
    seq(|batches|, k requires 0 <= k < |batches| => ClaimBatch(batches[k].order, DocumentContent(batches[k].items)))
  }

  function TranscriptPart(batches: seq<Batch<Utterance>>): seq<ClaimBatch> {
    seq(|batches|, k requires 0 <= k < |batches| => ClaimBatch(batches[k].order, TranscriptContent(batches[k].items)))
  }

  lemma {:induction false} PartsAreSound(documents: seq<Batch<Segment>>, transcript: seq<Batch<Utterance>>,
      windows: seq<Window>, parts: seq<Utterance>, limit: int,
      count: RequestCounter)
    requires DocumentBatches(documents, 0, limit, DocumentCount(count))
    requires WindowBatches(transcript, windows, parts, |documents|, limit, TranscriptCount(count))
    ensures Sound(DocumentPart(documents) + TranscriptPart(transcript), limit, count)
    ensures DocumentPart(documents) + TranscriptPart(transcript) == [] <==> documents == [] && transcript == []
    ensures count(0, EmptyRequest) <= limit ==> Sound([ClaimBatch(0, Nothing)], limit, count)
    ensures |windows| == |transcript|
    ensures forall k ::
        0 <= k < |windows| ==>
        windows[k].start < windows[k].end <= |parts| && transcript[k].items == parts[windows[k].start..windows[k].end]
  {
    var batches := DocumentPart(documents) + TranscriptPart(transcript);
    forall k | 0 <= k < |batches|
      ensures batches[k].order == k && count(k, RequestOf(batches[k].content)) <= limit
    {
      if k < |documents| {
        assert documents[k].order == 0 + k;
      } else {
        assert transcript[k - |documents|].order == |documents| + (k - |documents|);
      }
    }
  }

  /** The packing gets stuck at a segment, or a part of one, of which not one character fits. */
  ghost predicate StopsAtTooBig(segments: seq<Segment>, queues: seq<seq<Segment>>, limit: int, count: DocumentCounter) {
    && queues != [] && queues[0] == segments && queues[|queues| - 1] != []
    && (exists closed :: Packs(queues, closed, 0, limit, count))
    && IsPartOf(queues[|queues| - 1][0], segments)
    && TooBig(queues[|queues| - 1][0], |queues| - 1, limit, count)
  }

  method BuildBatches(segments: seq<Segment>, utterances: seq<Utterance>, limit: int, overlap: int,
      count: RequestCounter)
      returns (result: Batching, documents: seq<Batch<Segment>>, transcript: seq<Batch<Utterance>>,
          parts: seq<Utterance>, windows: seq<Window>, ghost queues: seq<seq<Segment>>)
    ensures result.Batches? ==>
        limit >= 1 && overlap >= 0 && Sound(result.batches, limit, count) && result.batches != []
    ensures result.Batches? ==>
        result.batches == if documents == [] && transcript == [] then [ClaimBatch(0, Nothing)]
        else DocumentPart(documents) + TranscriptPart(transcript)
    ensures result.Batches? ==>
        CoversAll(segments, Flatten(documents)) && AllSpoken(utterances, parts, limit, TranscriptCount(count))
    ensures result.Batches? ==>
        && Packs(queues, documents, 0, limit, DocumentCount(count))
        && queues[0] == segments && queues[|documents|] == []
    ensures result.Batches? ==>
        Chain(windows, |parts|, overlap) && |windows| == |transcript|
        && (parts != [] ==> windows != [] && windows[|windows| - 1].end == |parts|)
    ensures result.Batches? ==> forall k ::
        0 <= k < |windows| ==>
        windows[k].end <= |parts| && transcript[k].items == parts[windows[k].start..windows[k].end]
    ensures limit < 1 ==> result == Rejected(LIMIT_INVALID)
    ensures limit >= 1 && overlap < 0 ==> result == Rejected(OVERLAP_INVALID)
    ensures limit >= 1 && overlap >= 0 ==> (result == Rejected(BASE_EXCEEDS_LIMIT) <==> count(0, EmptyRequest) > limit)
    ensures result.Rejected? && limit >= 1 && overlap >= 0 && count(0, EmptyRequest) <= limit ==>
              || (result.error == DOCUMENT_SEGMENT_EXCEEDS_LIMIT
                  && StopsAtTooBig(segments, queues, limit, DocumentCount(count)))
              || (result.error == UTTERANCE_EXCEEDS_LIMIT
                  && (IgnoresOrder(TranscriptCount(count)) ==>
                      SomeCannotSplit(utterances, limit, TranscriptCount(count))))
  {
    hide CoversAll, AllSpoken, Chain, Packs, TooBig, SomeCannotSplit, Flatten, Sound, DocumentBatches, WindowBatches,
      DocumentPart, TranscriptPart, IsPartOf, IgnoresOrder;
    documents, transcript, parts, windows, queues := [], [], [], [], [];
    if limit < 1 { return Rejected(LIMIT_INVALID), documents, transcript, parts, windows, queues; }
    if overlap < 0 { return Rejected(OVERLAP_INVALID), documents, transcript, parts, windows, queues; }
    if count(0, EmptyRequest) > limit {
      return Rejected(BASE_EXCEEDS_LIMIT), documents, transcript, parts, windows, queues;
    }
    var packed;
    ghost var closed;
    packed, closed, queues := PackDocuments(segments, 0, limit, DocumentCount(count));
    assert |queues| == |closed| + 1 by { QueuesAndBatches(queues, closed, 0, limit, DocumentCount(count)); }
    if packed.Failed? { return Rejected(packed.error), documents, transcript, parts, windows, queues; }
    var spoken;
    spoken, parts, windows := PackUtterances(utterances, overlap, |packed.batches|, limit, TranscriptCount(count));
    if spoken.Failed? { return Rejected(spoken.error), documents, transcript, parts, windows, queues; }
    documents, transcript := packed.batches, spoken.batches;
    var batches := DocumentPart(packed.batches) + TranscriptPart(spoken.batches);
    PartsAreSound(documents, transcript, windows, parts, limit, count);
    return Batches(if batches != [] then batches else [ClaimBatch(0, Nothing)]), documents, transcript, parts, windows,
        queues;
  }
}
