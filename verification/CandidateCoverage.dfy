/** Answers about criteria must be about exactly the criteria asked for. */
module CandidateCoverage {
  import opened Wrappers
  import opened CriterionTree

  // ---------------------------------------------------------------------------------------------
  // Matching identifiers
  // ---------------------------------------------------------------------------------------------

  function Elements<T>(s: seq<T>): set<T> {
    set x | x in s
  }

  function Missing(requested: seq<string>, observed: set<string>): seq<string> {
    if requested == [] then []
    else (if requested[0] in observed then [] else [requested[0]]) + Missing(requested[1..], observed)
  }

  lemma {:induction false} MissingExactly(requested: seq<string>, observed: set<string>)
    ensures forall id :: id in Missing(requested, observed) <==> id in requested && id !in observed
    ensures AllDistinct(requested) ==> AllDistinct(Missing(requested, observed))
  {
    if requested != [] {
      MissingExactly(requested[1..], observed);
      if AllDistinct(requested) {
        assert forall i, j ::
            0 <= i < j < |requested[1..]| ==>
            requested[1..][i] == requested[i + 1] && requested[1..][j] == requested[j + 1];
        assert AllDistinct(requested[1..]);
        assert forall i :: 0 < i < |requested| ==> requested[i] != requested[0];
        assert requested[0] !in requested[1..];
      }
    }
  }

  /** What is wrong with the ids returned for the ids requested. */
  datatype Mismatch = Mismatch(missing: seq<string>, duplicates: seq<string>, unknown: seq<string>)

  method MatchIds(requested: seq<string>, returned: seq<string>) returns (m: Mismatch)
    ensures m.missing == Missing(requested, Elements(returned))
    ensures m.duplicates == [] <==> AllDistinct(returned)
    ensures m.unknown == [] <==> Elements(returned) <= Elements(requested)
    ensures forall id :: id in m.duplicates ==> multiset(returned)[id] > 1
    ensures forall id :: id in m.unknown ==> id in returned && id !in requested
  {
    hide AllDistinct;
    var observed: set<string>, duplicates: seq<string>, unknown: seq<string> := {}, [], [];
    NoneDistinct();
    for i := 0 to |returned|
      invariant observed == Elements(returned[..i])
      invariant duplicates == [] <==> AllDistinct(returned[..i])
      invariant unknown == [] <==> Elements(returned[..i]) <= Elements(requested)
      invariant forall id :: id in duplicates ==> multiset(returned[..i])[id] > 1
      invariant forall id :: id in unknown ==> id in returned && id !in requested
    {
      var id := returned[i];
      assert returned[..i + 1] == returned[..i] + [id];
      DistinctOneMore(returned[..i], id);
      if id in observed { duplicates := duplicates + [id]; }
      observed := observed + {id};
      if id !in requested {
        assert id in Elements(returned[..i + 1]);
        unknown := unknown + [id];
      }
    }
    assert returned[..|returned|] == returned;
    return Mismatch(Missing(requested, observed), duplicates, unknown);
  }

  lemma NoneDistinct()
    ensures AllDistinct<string>([])
  {
  }

  ghost predicate Exact(requested: seq<string>, returned: seq<string>) {
    AllDistinct(returned) && Elements(returned) == Elements(requested)
  }

  lemma NoMismatchIsExact(requested: seq<string>, returned: seq<string>)
    ensures Exact(requested, returned) <==>
      Missing(requested, Elements(returned)) == [] && AllDistinct(returned) && Elements(returned) <= Elements(requested)
  {
    MissingExactly(requested, Elements(returned));
    hide AllDistinct;
    if Missing(requested, Elements(returned)) == [] {
      assert forall id :: id in requested ==> id in Elements(returned);
    } else {
      var id := Missing(requested, Elements(returned))[0];
      assert id in Missing(requested, Elements(returned));
      assert id in Elements(requested) && id !in Elements(returned);
    }
  }

  lemma {:induction false} DistinctMultiset<T>(s: seq<T>)
    requires AllDistinct(s)
    ensures forall x :: multiset(s)[x] == if x in s then 1 else 0
  {
    if s != [] {
      var front, last := s[..|s| - 1], s[|s| - 1];
      assert s == front + [last];
      DistinctOneMore(front, last);
      DistinctMultiset(front);
    }
  }

  lemma {:induction false} SingleMultiplicity<T>(s: seq<T>)
    requires forall x :: multiset(s)[x] <= 1
    ensures AllDistinct(s)
  {
    if s != [] {
      var front, last := s[..|s| - 1], s[|s| - 1];
      assert s == front + [last];
      assert forall x :: multiset(front)[x] <= multiset(s)[x];
      assert multiset(s)[last] == multiset(front)[last] + 1 && (last in front ==> last in multiset(front));
      SingleMultiplicity(front);
      DistinctOneMore(front, last);
    }
  }

  /** For distinct criteria, an exact answer is a permutation of them. */
  lemma ExactIsPermutation(requested: seq<string>, returned: seq<string>)
    requires AllDistinct(requested)
    ensures Exact(requested, returned) <==> multiset(returned) == multiset(requested)
  {
    DistinctMultiset(requested);
    if Exact(requested, returned) {
      DistinctMultiset(returned);
      assert forall x :: x in returned <==> x in Elements(returned);
      assert forall x :: x in requested <==> x in Elements(requested);
      assert forall x :: multiset(returned)[x] == multiset(requested)[x];
    }
    if multiset(returned) == multiset(requested) {
      SingleMultiplicity(returned);
      assert forall x :: x in returned <==> x in multiset(returned);
      assert forall x :: x in requested <==> x in multiset(requested);
      assert Elements(returned) == Elements(requested);
    }
  }

  // ---------------------------------------------------------------------------------------------
  // Candidate rows
  // ---------------------------------------------------------------------------------------------

  datatype RowState = CONFORMS | DOES_NOT_CONFORM | PARTLY | INSUFFICIENT_DATA

  datatype Evidence = Evidence(claimId: string, sourceRef: string, quote: string, relation: string, explanation: string)

  datatype Row = Row(criterionId: string, state: RowState, missingData: string, followUpQuestion: string,
      evidence: seq<Evidence>)

  datatype Claim = Claim(claimId: string, criterionIds: seq<string>, locator: string, text: string,
      relation: Option<string>)

  function RelationOf(c: Claim): string {
    if c.relation.Some? then c.relation.value else "CONTEXT"
  }

  /** The claim that an id names; of several with one id, the last. */
  function ClaimById(claims: seq<Claim>): map<string, Claim> {
    if claims == [] then map[]
        else ClaimById(claims[..|claims| - 1])[claims[|claims| - 1].claimId := claims[|claims| - 1]]
  }

  ghost predicate ItemGrounded(item: Evidence, criterionId: string, claims: map<string, Claim>,
      trim: string -> string) {
    && item.claimId in claims
    && criterionId in claims[item.claimId].criterionIds
    && item.sourceRef == claims[item.claimId].locator
    && trim(item.quote) != "" && Includes(claims[item.claimId].text, trim(item.quote))
    && item.relation == RelationOf(claims[item.claimId])
    && trim(item.explanation) != ""
  }

  ghost predicate Grounded(row: Row, claims: map<string, Claim>, trim: string -> string) {
    && (row.state in {CONFORMS, DOES_NOT_CONFORM} ==> row.evidence != [])
    && (row.state == INSUFFICIENT_DATA ==> trim(row.missingData) != "" && trim(row.followUpQuestion) != "")
    && (forall i :: 0 <= i < |row.evidence| ==> ItemGrounded(row.evidence[i], row.criterionId, claims, trim))
  }

  method CheckRow(row: Row, claims: map<string, Claim>, trim: string -> string) returns (ok: bool)
    ensures ok <==> Grounded(row, claims, trim)
  {
    if row.state in {CONFORMS, DOES_NOT_CONFORM} && row.evidence == [] { return false; }
    if row.state == INSUFFICIENT_DATA && (trim(row.missingData) == "" || trim(row.followUpQuestion) == "") {
      return false;
    }
    for i := 0 to |row.evidence|
      invariant forall j :: 0 <= j < i ==> ItemGrounded(row.evidence[j], row.criterionId, claims, trim)
    {
      var item := row.evidence[i];
      if item.claimId !in claims { return false; }
      var claim := claims[item.claimId];
      var quoted := Contains(claim.text, trim(item.quote));
      if !(row.criterionId in claim.criterionIds && item.sourceRef == claim.locator && trim(item.quote) != "" && quoted
            && item.relation == RelationOf(claim) && trim(item.explanation) != "") {
        return false;
      }
    }
    return true;
  }

  method IndexClaims(claims: seq<Claim>) returns (byId: map<string, Claim>)
    ensures byId == ClaimById(claims)
  {
    byId := map[];
    for i := 0 to |claims|
      invariant byId == ClaimById(claims[..i])
    {
      assert claims[..i + 1][..i] == claims[..i];
      byId := byId[claims[i].claimId := claims[i]];
    }
    assert claims[..|claims|] == claims;
  }

  function RowIds(rows: seq<Row>): (ids: seq<string>)
    ensures |ids| == |rows|
  {
    seq(|rows|, i requires 0 <= i < |rows| => rows[i].criterionId)
  }

  datatype RowReport = RowReport(pass: bool, mismatch: Mismatch, invalidEvidence: seq<string>)

  /** Rows pass exactly when they answer each criterion once, no other criterion, and every evidence item
      is grounded in a claim that it quotes. */
  method ValidateRows(criterionIds: seq<string>, rows: seq<Row>, claims: Option<seq<Claim>>, trim: string -> string)
      returns (report: RowReport)
    ensures report.pass <==>
      && Exact(criterionIds, RowIds(rows))
      && (claims.Some? ==> forall i :: 0 <= i < |rows| ==> Grounded(rows[i], ClaimById(claims.value), trim))
    ensures AllDistinct(criterionIds) ==>
      (report.pass <==>
        && multiset(RowIds(rows)) == multiset(criterionIds)
        && (claims.Some? ==> forall i :: 0 <= i < |rows| ==> Grounded(rows[i], ClaimById(claims.value), trim)))
    ensures report.mismatch.missing == Missing(criterionIds, Elements(RowIds(rows)))
  {
    hide AllDistinct, Grounded, ClaimById, Elements, Missing;
    var mismatch := MatchIds(criterionIds, RowIds(rows));
    var invalid: seq<string> := [];
    if claims.Some? {
      var byId := IndexClaims(claims.value);
      for i := 0 to |rows|
        invariant invalid == [] <==> forall j :: 0 <= j < i ==> Grounded(rows[j], byId, trim)
      {
        var ok := CheckRow(rows[i], byId, trim);
        if !ok { invalid := invalid + [rows[i].criterionId]; }
      }
    }
    NoMismatchIsExact(criterionIds, RowIds(rows));
    if AllDistinct(criterionIds) { ExactIsPermutation(criterionIds, RowIds(rows)); }
    return RowReport(mismatch.missing == [] && mismatch.duplicates == [] && mismatch.unknown == []
        && invalid == [], mismatch, invalid);
  }

  /** The answers of one extraction call, as ids with their findings: complete exactly when they are about
      the requested criteria, each once. */
  method ValidateExactCoverage(requested: seq<string>, returned: seq<string>)
      returns (complete: bool, mismatch: Mismatch)
    ensures complete <==> Exact(requested, returned)
    ensures mismatch.missing == Missing(requested, Elements(returned))
  {
    hide AllDistinct, Elements, Missing;
    mismatch := MatchIds(requested, returned);
    NoMismatchIsExact(requested, returned);
    complete := mismatch.duplicates == [] && mismatch.unknown == [] && mismatch.missing == [];
  }

  // ---------------------------------------------------------------------------------------------
  // The coverage workflow
  // ---------------------------------------------------------------------------------------------

  datatype Finding = Finding(locator: string, relation: string, quote: string)

  datatype Entry = Entry(criterionId: string, found: bool, evidence: seq<Finding>)

  datatype Key = Key(criterionId: string, locator: string, relation: string)

  datatype Coverage = Coverage(ledger: seq<seq<Entry>>, zero: seq<string>, gap: seq<Entry>, gapSearchCount: nat,
      evidence: map<Key, Finding>)

  type Extract = (string, seq<string>, bool) -> seq<Entry>
  type GapSearch = seq<string> -> seq<Entry>

  function EntryIds(entries: seq<Entry>): (ids: seq<string>)
    ensures |ids| == |entries|
  {
    seq(|entries|, i requires 0 <= i < |entries| => entries[i].criterionId)
  }

  /** An answer names each criterion at most once, and only criteria it was asked about. */
  ghost predicate Admissible(requested: seq<string>, entries: seq<Entry>) {
    AllDistinct(EntryIds(entries)) && Elements(EntryIds(entries)) <= Elements(requested)
  }

  function Unanswered(requested: seq<string>, entries: seq<Entry>): seq<string> {
    Missing(requested, Elements(EntryIds(entries)))
  }

  method ValidateLedger(requested: seq<string>, entries: seq<Entry>) returns (ok: bool, missing: seq<string>)
    ensures ok <==> Admissible(requested, entries)
    ensures missing == Unanswered(requested, entries)
  {
    hide AllDistinct, Elements, Missing;
    var m := MatchIds(requested, EntryIds(entries));
    return m.duplicates == [] && m.unknown == [], m.missing;
  }

  /** The first entry about a criterion, or a note that the batch says nothing about it. */
  function Lookup(entries: seq<Entry>, id: string): (entry: Entry)
    ensures entry.criterionId == id
    ensures (exists i :: 0 <= i < |entries| && entries[i].criterionId == id) ==> entry in entries
    ensures !(exists i :: 0 <= i < |entries| && entries[i].criterionId == id) ==> entry == Entry(id, false, [])
  {
    if entries == [] then Entry(id, false, [])
    else if entries[0].criterionId == id then entries[0]
    else
      assert forall i :: 1 <= i < |entries| ==> entries[i] == entries[1..][i - 1];
      Lookup(entries[1..], id)
  }

  /** One entry for each criterion, in the order asked for. */
  function Cell(criterionIds: seq<string>, entries: seq<Entry>): (cell: seq<Entry>)
    ensures |cell| == |criterionIds|
    ensures forall i :: 0 <= i < |cell| ==> cell[i].criterionId == criterionIds[i]
  {
    seq(|criterionIds|, i requires 0 <= i < |criterionIds| => Lookup(entries, criterionIds[i]))
  }

  function Retried(batch: string, criterionIds: seq<string>, extract: Extract): seq<Entry> {
    var missing := Unanswered(criterionIds, extract(batch, criterionIds, false));
    if missing == [] then [] else extract(batch, missing, true)
  }

  ghost predicate BatchAdmissible(batch: string, criterionIds: seq<string>, extract: Extract) {
    && Admissible(criterionIds, extract(batch, criterionIds, false))
    && Admissible(Unanswered(criterionIds, extract(batch, criterionIds, false)), Retried(batch, criterionIds, extract))
  }

  /** What a batch contributes: its first answers and those of the retry. */
  function Answers(batch: string, criterionIds: seq<string>, extract: Extract): seq<Entry> {
    extract(batch, criterionIds, false) + Retried(batch, criterionIds, extract)
  }

  lemma IdsOfBoth(a: seq<Entry>, b: seq<Entry>)
    ensures EntryIds(a + b) == EntryIds(a) + EntryIds(b)
    ensures Elements(EntryIds(a + b)) == Elements(EntryIds(a)) + Elements(EntryIds(b))
  {
    assert EntryIds(a + b) == EntryIds(a) + EntryIds(b);
  }

  lemma DistinctTogether(a: seq<string>, b: seq<string>)
    requires AllDistinct(a) && AllDistinct(b) && Elements(a) !! Elements(b)
    ensures AllDistinct(a + b)
  {
    forall i, j | 0 <= i < j < |a + b|
      ensures (a + b)[i] != (a + b)[j]
    {
      if i < |a| && j >= |a| { assert a[i] in Elements(a) && b[j - |a|] in Elements(b); }
    }
  }

  /** The retry answers only what was missing, so both answers together never repeat a criterion. */
  lemma RetryNeverClashes(batch: string, criterionIds: seq<string>, extract: Extract)
    requires BatchAdmissible(batch, criterionIds, extract)
    ensures Admissible(criterionIds, Answers(batch, criterionIds, extract))
  {
    var primary, retry := extract(batch, criterionIds, false), Retried(batch, criterionIds, extract);
    MissingExactly(criterionIds, Elements(EntryIds(primary)));
    IdsOfBoth(primary, retry);
    hide AllDistinct, Missing, EntryIds;
    assert Elements(EntryIds(retry)) <= Elements(Unanswered(criterionIds, primary));
    assert Elements(EntryIds(primary)) !! Elements(EntryIds(retry));
    DistinctTogether(EntryIds(primary), EntryIds(retry));
  }

  method ScanBatch(batch: string, criterionIds: seq<string>, extract: Extract) returns (ok: bool, cell: seq<Entry>)
    ensures ok <==> BatchAdmissible(batch, criterionIds, extract)
    ensures ok ==> cell == Cell(criterionIds, Answers(batch, criterionIds, extract))
  {
    hide Admissible, Unanswered, Cell;
    var entries := extract(batch, criterionIds, false);
    var missing;
    ok, missing := ValidateLedger(criterionIds, entries);
    if !ok { return false, []; }
    var retried: seq<Entry> := [];
    if missing != [] {
      retried := extract(batch, missing, true);
      var ignored;
      ok, ignored := ValidateLedger(missing, retried);
      if !ok { return false, []; }
    } else {
      NothingIsAdmissible(missing);
    }
    entries := entries + retried;
    RetryNeverClashes(batch, criterionIds, extract);
    ok, missing := ValidateLedger(criterionIds, entries);
    return ok, Cell(criterionIds, entries);
  }

  lemma NothingIsAdmissible(requested: seq<string>)
    ensures Admissible(requested, [])
  {
  }

  /** Whether some batch found something about the criterion. */
  predicate FoundIn(ledger: seq<seq<Entry>>, id: string) {
    exists b, i :: 0 <= b < |ledger| && 0 <= i < |ledger[b]| && ledger[b][i].criterionId == id && ledger[b][i].found
  }

  function NotFound(criterionIds: seq<string>, ledger: seq<seq<Entry>>): seq<string> {
    if criterionIds == [] then []
    else (if FoundIn(ledger, criterionIds[0]) then [] else [criterionIds[0]]) + NotFound(criterionIds[1..], ledger)
  }

  lemma {:induction false} NotFoundExactly(criterionIds: seq<string>, ledger: seq<seq<Entry>>)
    ensures forall id :: id in NotFound(criterionIds, ledger) <==> id in criterionIds && !FoundIn(ledger, id)
  {
    hide FoundIn;
    if criterionIds != [] { NotFoundExactly(criterionIds[1..], ledger); }
  }

  /** Evidence by criterion, locator and relation; of several items with one key, the last. */
  function Gathered(entries: seq<Entry>): map<Key, Finding> {
    if entries == [] then map[]
        else AddFindings(Gathered(entries[..|entries| - 1]), entries[|entries| - 1].criterionId,
              entries[|entries| - 1].evidence)
  }

  function AddFindings(m: map<Key, Finding>, id: string, findings: seq<Finding>): map<Key, Finding> {
    if findings == [] then m
    else
      var f := findings[|findings| - 1];
      AddFindings(m, id, findings[..|findings| - 1])[Key(id, f.locator, f.relation) := f]
  }

  lemma {:induction false} AddedFindings(m: map<Key, Finding>, id: string, findings: seq<Finding>)
    ensures AddFindings(m, id, findings).Keys == m.Keys + set f | f in findings :: Key(id, f.locator, f.relation)
    ensures forall k ::
        k in AddFindings(m, id, findings) && k !in m ==>
        k == Key(id, AddFindings(m, id, findings)[k].locator, AddFindings(m, id, findings)[k].relation)
  {
    if findings != [] {
      var front, f := findings[..|findings| - 1], findings[|findings| - 1];
      assert findings == front + [f];
      AddedFindings(m, id, front);
    }
  }

  /** No finding is dropped: every finding of every entry has its key in the evidence, and nothing else. */
  lemma {:induction false} EvidenceIsComplete(entries: seq<Entry>)
    ensures Gathered(entries).Keys == set e, f | e in entries && f in e.evidence ::
        Key(e.criterionId, f.locator, f.relation)
  {
    if entries != [] {
      var front, last := entries[..|entries| - 1], entries[|entries| - 1];
      assert entries == front + [last];
      EvidenceIsComplete(front);
      AddedFindings(Gathered(front), last.criterionId, last.evidence);
    }
  }

  method Gather(entries: seq<Entry>) returns (m: map<Key, Finding>)
    ensures m == Gathered(entries)
  {
    m := map[];
    for i := 0 to |entries|
      invariant m == Gathered(entries[..i])
    {
      assert entries[..i + 1][..i] == entries[..i];
      ghost var before := m;
      var findings := entries[i].evidence;
      for k := 0 to |findings|
        invariant m == AddFindings(before, entries[i].criterionId, findings[..k])
      {
        assert findings[..k + 1][..k] == findings[..k];
        m := m[Key(entries[i].criterionId, findings[k].locator, findings[k].relation) := findings[k]];
      }
      assert findings[..|findings|] == findings;
    }
    assert entries[..|entries|] == entries;
  }

  function FlattenLedger(ledger: seq<seq<Entry>>): seq<Entry> {
    if ledger == [] then [] else FlattenLedger(ledger[..|ledger| - 1]) + ledger[|ledger| - 1]
  }

  function Ledger(batches: seq<string>, criterionIds: seq<string>, extract: Extract): seq<seq<Entry>> {
    seq(|batches|, b requires 0 <= b < |batches| => Cell(criterionIds, Answers(batches[b], criterionIds, extract)))
  }

  ghost predicate AllAdmissible(batches: seq<string>, criterionIds: seq<string>, extract: Extract) {
    forall b :: 0 <= b < |batches| ==> BatchAdmissible(batches[b], criterionIds, extract)
  }

  /** What the one search for the criteria nobody found brings. */
  function Gap(zero: seq<string>, gapSearch: GapSearch): seq<Entry> {
    if zero == [] then [] else gapSearch(zero)
  }

  /** Each batch has one entry for every criterion, in order; criteria that no batch found are searched
      once more, all together; the evidence keeps one finding for each key. It fails exactly when some
      answer repeats a criterion or names one it was not asked about. */
  method RunCoverage(batches: seq<string>, criterionIds: seq<string>, extract: Extract, gapSearch: GapSearch)
      returns (result: Option<Coverage>)
    ensures result.Some? <==>
      var zero := NotFound(criterionIds, Ledger(batches, criterionIds, extract));
      AllAdmissible(batches, criterionIds, extract) && Admissible(zero, Gap(zero, gapSearch))
    ensures result.Some? ==>
      && result.value.ledger == Ledger(batches, criterionIds, extract)
      && result.value.zero == NotFound(criterionIds, result.value.ledger)
      && result.value.gapSearchCount == (if result.value.zero == [] then 0 else 1)
      && result.value.gap == Gap(result.value.zero, gapSearch)
      && result.value.evidence == Gathered(FlattenLedger(result.value.ledger) + result.value.gap)
    ensures result.Some? ==> forall id ::
        id in result.value.zero <==> id in criterionIds && !FoundIn(result.value.ledger, id)
  {
    hide BatchAdmissible, Admissible, Cell, Answers, NotFound, FoundIn, Gathered, FlattenLedger;
    var ledger: seq<seq<Entry>> := [];
    for b := 0 to |batches|
      invariant |ledger| == b
      invariant forall k ::
          0 <= k < b ==>
          BatchAdmissible(batches[k], criterionIds, extract)
          && ledger[k] == Cell(criterionIds, Answers(batches[k], criterionIds, extract))
    {
      var ok, cell := ScanBatch(batches[b], criterionIds, extract);
      if !ok { return None; }
      ledger := ledger + [cell];
    }
    assert ledger == Ledger(batches, criterionIds, extract);
    var zero := NotFound(criterionIds, ledger);
    NotFoundExactly(criterionIds, ledger);
    var gap: seq<Entry> := [];
    if zero != [] {
      gap := gapSearch(zero);
      var ok, ignored := ValidateLedger(zero, gap);
      if !ok { return None; }
    } else {
      NothingIsAdmissible(zero);
    }
    var evidence := Gather(FlattenLedger(ledger) + gap);
    return Some(Coverage(ledger, zero, gap, if zero != [] then 1 else 0, evidence));
  }
}
