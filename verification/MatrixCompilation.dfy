/** Compiling a vacancy matrix once, however many workers try. */
module MatrixCompilation {
  import opened Wrappers

  datatype Key = Key(profileVersion: string, workflow: string)

  datatype CompilationState = COMPILATION_CLAIMED | COMPILATION_PUBLISHED | COMPILATION_FAILED

  datatype Compilation = Compilation(state: CompilationState, owner: string, fencingToken: nat, leaseExpiresAt: int,
      attempt: nat, llmCalls: nat, errorCode: Option<string>)

  datatype Matrix = Matrix(checksum: string, payload: string)

  datatype Tables = Tables(compilations: map<Key, Compilation>, matrices: map<Key, Matrix>)

  const NO_TABLES := Tables(map[], map[])

  datatype ClaimAnswer =
    | Owner(fencingToken: nat, attempt: nat, recovered: bool)
    | AlreadyPublished(fencingToken: nat)
    | Waiting(fencingToken: nat)
    | Terminal(fencingToken: nat, errorCode: string)

  datatype PublishAnswer = PublishedMatrix(checksum: string, reused: bool) | StaleToken | OtherMatrixPublished

  // ---------------------------------------------------------------------------------------------
  // Transactions
  // ---------------------------------------------------------------------------------------------

  function ClaimCompilation(db: Tables, key: Key, owner: string, now: int, leaseMs: int, allowRetry: bool): (Tables,
      ClaimAnswer) {
    if key !in db.compilations then
      (db.(compilations := db.compilations[key := Compilation(COMPILATION_CLAIMED, owner, 1, now + leaseMs, 1, 0,
          None)]), Owner(1, 1, false))
    else
      var current := db.compilations[key];
      if current.state == COMPILATION_PUBLISHED then (db, AlreadyPublished(current.fencingToken))
      else if current.state == COMPILATION_FAILED && !allowRetry then
        (db, Terminal(current.fencingToken, if current.errorCode.Some? then current.errorCode.value
            else "MATRIX_COMPILATION_FAILED"))
      else if current.state == COMPILATION_CLAIMED && current.leaseExpiresAt > now && current.owner != owner
            then (db, Waiting(current.fencingToken))
      else
        var next := Compilation(COMPILATION_CLAIMED, owner, current.fencingToken + 1, now + leaseMs,
            current.attempt + 1, 0, None);
        (db.(compilations := db.compilations[key := next]), Owner(next.fencingToken, next.attempt, true))
  }

  predicate Holds(db: Tables, key: Key, owner: string, token: nat) {
    key in db.compilations && db.compilations[key].owner == owner && db.compilations[key].fencingToken == token
  }

  /** Publishing checks the token but neither the lease nor whether the attempt has failed meanwhile. */
  function PublishMatrix(db: Tables, key: Key, owner: string, token: nat, matrix: Matrix): (Tables, PublishAnswer) {
    if !Holds(db, key, owner, token) then (db, StaleToken)
    else if db.compilations[key].state == COMPILATION_PUBLISHED then
      if key in db.matrices && db.matrices[key].checksum == matrix.checksum
          then (db, PublishedMatrix(matrix.checksum, true))
      else (db, OtherMatrixPublished)
    else
      (Tables(db.compilations[key := db.compilations[key].(state := COMPILATION_PUBLISHED)],
          db.matrices[key := matrix]), PublishedMatrix(matrix.checksum, false))
  }

  function RecordProgress(db: Tables, key: Key, owner: string, token: nat, llmCalls: nat): (Tables, bool) {
    if !Holds(db, key, owner, token) || db.compilations[key].state != COMPILATION_CLAIMED then (db, false)
    else (db.(compilations := db.compilations[key := db.compilations[key].(llmCalls := llmCalls)]), true)
  }

  function FailCompilation(db: Tables, key: Key, owner: string, token: nat, errorCode: string): (Tables, bool) {
    if !Holds(db, key, owner, token) || db.compilations[key].state != COMPILATION_CLAIMED then (db, false)
    else (db.(compilations := db.compilations[key := db.compilations[key].(state := COMPILATION_FAILED,
          errorCode := Some(errorCode))]), true)
  }

  datatype Step =
    | DoClaim(key: Key, owner: string, now: int, leaseMs: int, allowRetry: bool)
    | DoPublish(key: Key, owner: string, token: nat, matrix: Matrix)
    | DoProgress(key: Key, owner: string, token: nat, llmCalls: nat)
    | DoFail(key: Key, owner: string, token: nat, errorCode: string)

  function Next(db: Tables, s: Step): Tables {
    match s
    case DoClaim(key, owner, now, leaseMs, allowRetry) => ClaimCompilation(db, key, owner, now, leaseMs, allowRetry).0
    case DoPublish(key, owner, token, matrix) => PublishMatrix(db, key, owner, token, matrix).0
    case DoProgress(key, owner, token, llmCalls) => RecordProgress(db, key, owner, token, llmCalls).0
    case DoFail(key, owner, token, errorCode) => FailCompilation(db, key, owner, token, errorCode).0
  }

  function After(db: Tables, steps: seq<Step>): Tables
    decreases |steps|
  {
    if steps == [] then db else After(Next(db, steps[0]), steps[1..])
  }

  // ---------------------------------------------------------------------------------------------
  // Invariant
  // ---------------------------------------------------------------------------------------------

  /** A matrix exists exactly where a compilation is published; tokens count the claims. */
  ghost predicate Consistent(db: Tables) {
    && (forall key ::
        key in db.matrices <==> key in db.compilations && db.compilations[key].state == COMPILATION_PUBLISHED)
    && (forall key :: key in db.compilations ==> db.compilations[key].attempt == db.compilations[key].fencingToken >= 1)
  }

  /** Matrices are never changed or lost, tokens never fall, and a token keeps its owner. */
  ghost predicate Advances(a: Tables, b: Tables) {
    && (forall key :: key in a.matrices ==> key in b.matrices && b.matrices[key] == a.matrices[key])
    && (forall key :: key in a.compilations ==>
          && key in b.compilations
          && a.compilations[key].fencingToken <= b.compilations[key].fencingToken
          && (a.compilations[key].fencingToken == b.compilations[key].fencingToken ==>
              a.compilations[key].owner == b.compilations[key].owner))
  }

  lemma StepKeepsConsistent(db: Tables, s: Step)
    requires Consistent(db)
    ensures Consistent(Next(db, s)) && Advances(db, Next(db, s))
  {
    hide Consistent, Advances, ClaimCompilation, PublishMatrix, RecordProgress, FailCompilation;
    match s
    case DoClaim(key, owner, now, leaseMs, allowRetry) =>
      ClaimKeepsConsistent(db, key, owner, now, leaseMs, allowRetry);
    case DoPublish(key, owner, token, matrix) => PublishKeepsConsistent(db, key, owner, token, matrix);
    case DoProgress(key, owner, token, llmCalls) => ProgressKeepsConsistent(db, key, owner, token, llmCalls);
    case DoFail(key, owner, token, errorCode) => FailureKeepsConsistent(db, key, owner, token, errorCode);
  }

  lemma ClaimKeepsConsistent(db: Tables, key: Key, owner: string, now: int, leaseMs: int, allowRetry: bool)
    requires Consistent(db)
    ensures var next := ClaimCompilation(db, key, owner, now, leaseMs, allowRetry).0;
        Consistent(next) && Advances(db, next)
  {
  }

  lemma PublishKeepsConsistent(db: Tables, key: Key, owner: string, token: nat, matrix: Matrix)
    requires Consistent(db)
    ensures var next := PublishMatrix(db, key, owner, token, matrix).0; Consistent(next) && Advances(db, next)
  {
  }

  lemma ProgressKeepsConsistent(db: Tables, key: Key, owner: string, token: nat, llmCalls: nat)
    requires Consistent(db)
    ensures var next := RecordProgress(db, key, owner, token, llmCalls).0; Consistent(next) && Advances(db, next)
  {
  }

  lemma FailureKeepsConsistent(db: Tables, key: Key, owner: string, token: nat, errorCode: string)
    requires Consistent(db)
    ensures var next := FailCompilation(db, key, owner, token, errorCode).0; Consistent(next) && Advances(db, next)
  {
  }

  lemma AdvancesTransitive(a: Tables, b: Tables, c: Tables)
    requires Advances(a, b) && Advances(b, c)
    ensures Advances(a, c)
  {
  }

  lemma AdvancesReflexive(db: Tables)
    ensures Advances(db, db)
  {
  }

  /** What every interleaving keeps. */
  lemma {:induction false} EveryRunAdvances(db: Tables, steps: seq<Step>)
    requires Consistent(db)
    ensures Consistent(After(db, steps)) && Advances(db, After(db, steps))
    decreases |steps|
  {
    if steps != [] {
      StepKeepsConsistent(db, steps[0]);
      EveryRunAdvances(Next(db, steps[0]), steps[1..]);
      AdvancesTransitive(db, Next(db, steps[0]), After(db, steps));
    }
  }

  // ---------------------------------------------------------------------------------------------
  // Guarantees
  // ---------------------------------------------------------------------------------------------

  /** Who gets to compile: the first to ask, whoever asks again after a failure, the owner itself, and anybody else
      exactly if the owner's lease has run out. The new lease lasts `leaseMs` from then. */
  lemma ClaimsExactly(db: Tables, key: Key, owner: string, now: int, leaseMs: int, allowRetry: bool)
    requires Consistent(db)
    ensures var (next, answer) := ClaimCompilation(db, key, owner, now, leaseMs, allowRetry);
      && (answer.Owner? <==>
            key !in db.compilations
            || (db.compilations[key].state == COMPILATION_FAILED && allowRetry)
            || (db.compilations[key].state == COMPILATION_CLAIMED
                && (db.compilations[key].owner == owner || db.compilations[key].leaseExpiresAt <= now)))
      && (answer.Waiting? <==>
            key in db.compilations && db.compilations[key].state == COMPILATION_CLAIMED
            && db.compilations[key].owner != owner && now < db.compilations[key].leaseExpiresAt)
      && (answer.AlreadyPublished? <==> key in db.matrices)
      && (answer.Owner? ==>
            && next.compilations == db.compilations[key := Compilation(COMPILATION_CLAIMED, owner,
                  answer.fencingToken, now + leaseMs, answer.attempt, 0, None)]
            && answer.fencingToken == answer.attempt
            && answer.attempt == (if key in db.compilations then db.compilations[key].attempt + 1 else 1))
      && (!answer.Owner? ==> next == db) && next.matrices == db.matrices
  {
  }

  /** The holder of the token publishes, fails and reports, and nobody else does; the first matrix stays, and may only
      be published again as it is. Neither the lease nor a failure in between keeps the holder from publishing. */
  lemma HolderActsExactly(db: Tables, key: Key, owner: string, token: nat, matrix: Matrix, llmCalls: nat,
      errorCode: string)
    requires Consistent(db)
    ensures var held := key in db.compilations && db.compilations[key].owner == owner
          && db.compilations[key].fencingToken == token;
      var (published, answer) := PublishMatrix(db, key, owner, token, matrix);
      && (answer == StaleToken <==> !held)
      && (answer == OtherMatrixPublished <==>
          held && key in db.matrices && db.matrices[key].checksum != matrix.checksum)
      && (answer.PublishedMatrix? ==>
            answer.checksum == matrix.checksum && (answer.reused <==> key in db.matrices)
            && published.matrices == (if key in db.matrices then db.matrices else db.matrices[key := matrix]))
      && (!answer.PublishedMatrix? || key in db.matrices ==> published == db)
      && (held ==>
            var x := db.compilations[key];
            && (key !in db.matrices ==>
                  published.compilations == db.compilations[key := x.(state := COMPILATION_PUBLISHED)])
            && FailCompilation(db, key, owner, token, errorCode) ==
                  (if x.state == COMPILATION_CLAIMED then (db.(compilations := db.compilations[key := x.(
                      state := COMPILATION_FAILED, errorCode := Some(errorCode))]), true) else (db, false))
            && RecordProgress(db, key, owner, token, llmCalls) ==
                  (if x.state == COMPILATION_CLAIMED then (db.(compilations := db.compilations[key := x.(
                      llmCalls := llmCalls)]), true) else (db, false)))
      && (!held ==>
            FailCompilation(db, key, owner, token, errorCode) == (db, false)
            && RecordProgress(db, key, owner, token, llmCalls) == (db, false))
  {
  }

  /** The step can take the compilation from its holder: the holder's own, or a claim after the lease has run out. */
  predicate MayTake(s: Step, key: Key, owner: string, token: nat, until: int) {
    s.key == key && if s.DoClaim? then s.owner == owner || until <= s.now else s.owner == owner && s.token == token
  }

  /** Until its lease runs out nobody takes a compilation from its holder: whatever others do, in any order, its row
      stays as the holder left it. */
  lemma {:induction false} LeaseIsExclusive(db: Tables, key: Key, steps: seq<Step>)
    requires key in db.compilations && db.compilations[key].state == COMPILATION_CLAIMED
    requires var x := db.compilations[key];
      forall i :: 0 <= i < |steps| ==> !MayTake(steps[i], key, x.owner, x.fencingToken, x.leaseExpiresAt)
    ensures key in After(db, steps).compilations && After(db, steps).compilations[key] == db.compilations[key]
    decreases |steps|
  {
    if steps != [] {
      assert !MayTake(steps[0], key, db.compilations[key].owner, db.compilations[key].fencingToken,
          db.compilations[key].leaseExpiresAt);
      assert Next(db, steps[0]).compilations[key] == db.compilations[key];
      LeaseIsExclusive(Next(db, steps[0]), key, steps[1..]);
    }
  }

  /** A token that has been superseded can neither publish nor fail nor record anything, ever again. */
  lemma SupersededTokenIsPowerless(db: Tables, steps: seq<Step>, key: Key, owner: string, token: nat, matrix: Matrix,
      code: string, calls: nat)
    requires Consistent(db) && key in db.compilations && token < db.compilations[key].fencingToken
    ensures var later := After(db, steps);
      && PublishMatrix(later, key, owner, token, matrix) == (later, StaleToken)
      && FailCompilation(later, key, owner, token, code) == (later, false)
      && RecordProgress(later, key, owner, token, calls) == (later, false)
  {
    EveryRunAdvances(db, steps);
  }

  /** A new claim always gets a token above every token handed out before it, so no two claims of a key
      share a token. */
  lemma TokensStrictlyIncrease(db: Tables, key: Key, owner: string, now: int, leaseMs: int, allowRetry: bool,
      steps: seq<Step>,
      later: Tables, other: string, at: int, otherLease: int, otherRetry: bool)
    requires Consistent(db) && ClaimCompilation(db, key, owner, now, leaseMs, allowRetry).1.Owner?
    requires later == After(ClaimCompilation(db, key, owner, now, leaseMs, allowRetry).0, steps)
    requires ClaimCompilation(later, key, other, at, otherLease, otherRetry).1.Owner?
    ensures ClaimCompilation(db, key, owner, now, leaseMs, allowRetry).1.fencingToken < ClaimCompilation(later, key,
        other, at, otherLease, otherRetry).1.fencingToken
  {
    var claimed := ClaimCompilation(db, key, owner, now, leaseMs, allowRetry).0;
    StepKeepsConsistent(db, DoClaim(key, owner, now, leaseMs, allowRetry));
    EveryRunAdvances(claimed, steps);
  }

  /** Write once: a successful publication fixes the matrix of its key, and any other successful
      publication, at any later time by any worker, answers the same checksum and changes nothing. */
  lemma PublicationIsFinal(db: Tables, key: Key, owner: string, token: nat, matrix: Matrix, steps: seq<Step>,
      other: string, otherToken: nat, otherMatrix: Matrix)
    requires Consistent(db) && PublishMatrix(db, key, owner, token, matrix).1.PublishedMatrix?
    ensures var later := After(PublishMatrix(db, key, owner, token, matrix).0, steps);
      && key in later.matrices && later.matrices[key].checksum == matrix.checksum
      && PublishMatrix(later, key, other, otherToken, otherMatrix).0 == later
      && (PublishMatrix(later, key, other, otherToken, otherMatrix).1.PublishedMatrix? ==>
          otherMatrix.checksum == matrix.checksum)
  {
    var published := PublishMatrix(db, key, owner, token, matrix).0;
    StepKeepsConsistent(db, DoPublish(key, owner, token, matrix));
    EveryRunAdvances(published, steps);
  }

  // ---------------------------------------------------------------------------------------------
  // The store and the compiler
  // ---------------------------------------------------------------------------------------------

  class MatrixRepository {
    var compilations: map<Key, Compilation>
    var matrices: map<Key, Matrix>

    function Rows(): Tables
      reads this
    {
      Tables(compilations, matrices)
    }

    constructor ()
      ensures Rows() == NO_TABLES
    {
      compilations, matrices := map[], map[];
    }

    method Claim(key: Key, owner: string, now: int, leaseMs: int, allowRetry: bool) returns (answer: ClaimAnswer)
      modifies this`compilations
      ensures (Rows(), answer) == ClaimCompilation(old(Rows()), key, owner, now, leaseMs, allowRetry)
    {
      if key !in compilations {
        compilations := compilations[key := Compilation(COMPILATION_CLAIMED, owner, 1, now + leaseMs, 1, 0, None)];
        return Owner(1, 1, false);
      }
      var current := compilations[key];
      if current.state == COMPILATION_PUBLISHED { return AlreadyPublished(current.fencingToken); }
      if current.state == COMPILATION_FAILED && !allowRetry {
        return Terminal(current.fencingToken, if current.errorCode.Some? then current.errorCode.value
            else "MATRIX_COMPILATION_FAILED");
      }
      if current.state == COMPILATION_CLAIMED && current.leaseExpiresAt > now && current.owner != owner {
        return Waiting(current.fencingToken);
      }
      var fencingToken, attempt := current.fencingToken + 1, current.attempt + 1;
      compilations := compilations[key := Compilation(COMPILATION_CLAIMED, owner, fencingToken, now + leaseMs, attempt,
          0, None)];
      return Owner(fencingToken, attempt, true);
    }

    method Publish(key: Key, owner: string, token: nat, matrix: Matrix) returns (answer: PublishAnswer)
      modifies this
      ensures (Rows(), answer) == PublishMatrix(old(Rows()), key, owner, token, matrix)
    {
      if !Holds(Rows(), key, owner, token) { return StaleToken; }
      if compilations[key].state == COMPILATION_PUBLISHED {
        return if key in matrices && matrices[key].checksum == matrix.checksum
            then PublishedMatrix(matrix.checksum, true) else OtherMatrixPublished;
      }
      matrices := matrices[key := matrix];
      compilations := compilations[key := compilations[key].(state := COMPILATION_PUBLISHED)];
      return PublishedMatrix(matrix.checksum, false);
    }

    method Progress(key: Key, owner: string, token: nat, llmCalls: nat) returns (ok: bool)
      modifies this`compilations
      ensures (Rows(), ok) == RecordProgress(old(Rows()), key, owner, token, llmCalls)
    {
      if !Holds(Rows(), key, owner, token) || compilations[key].state != COMPILATION_CLAIMED { return false; }
      compilations := compilations[key := compilations[key].(llmCalls := llmCalls)];
      return true;
    }

    method Fail(key: Key, owner: string, token: nat, errorCode: string) returns (ok: bool)
      modifies this`compilations
      ensures (Rows(), ok) == FailCompilation(old(Rows()), key, owner, token, errorCode)
    {
      if !Holds(Rows(), key, owner, token) || compilations[key].state != COMPILATION_CLAIMED { return false; }
      compilations := compilations[key := compilations[key].(state := COMPILATION_FAILED,
          errorCode := Some(errorCode))];
      return true;
    }

    method Read(key: Key) returns (matrix: Option<Matrix>)
      ensures matrix == if key in matrices then Some(matrices[key]) else None
    {
      return if key in matrices then Some(matrices[key]) else None;
    }

    /** Transactions of other workers, in the order in which they commit. */
    method Interleave(steps: seq<Step>)
      modifies this
      ensures Rows() == After(old(Rows()), steps)
    {
      ghost var before := Rows();
      assert steps[0..] == steps;
      for i := 0 to |steps|
        invariant After(Rows(), steps[i..]) == After(before, steps)
      {
        assert steps[i..][0] == steps[i] && steps[i..][1..] == steps[i + 1..];
        match steps[i] {
          case DoClaim(key, owner, now, leaseMs, allowRetry) =>
            var answer := Claim(key, owner, now, leaseMs, allowRetry);
          case DoPublish(key, owner, token, matrix) => var answer := Publish(key, owner, token, matrix);
          case DoProgress(key, owner, token, llmCalls) => var ok := Progress(key, owner, token, llmCalls);
          case DoFail(key, owner, token, errorCode) => var ok := Fail(key, owner, token, errorCode);
        }
      }
    }
  }

  /** What the model calls give: a draft or an error, then a corrected draft or an error; and what the
      canonical form of a draft is, if it has one. */
  datatype Skills = Skills(draft: Option<string>, critic: Option<string>, canonical: string -> Option<Matrix>)

  datatype CompileResult =
    | Compiled(matrix: Matrix, checksum: string, reused: bool, llmCalls: nat, criticFallback: bool)
    | WaitingForOther
    | CompileFailed(errorCode: string)
    | Threw

  /** The matrix to publish: the critic's successor, or the draft when the critic or its successor fails. */
  function Chosen(skills: Skills): Option<Matrix> {
    if skills.draft == None then None
    else if skills.critic.Some? && skills.canonical(skills.critic.value).Some?
          then skills.canonical(skills.critic.value)
    else skills.canonical(skills.draft.value)
  }

  /** The tables when the owner of a claim has its draft, or another worker looks for the matrix; and what the
      claim was told. Others act before the claim and after it. */
  function Contended(start: Tables, before: seq<Step>, key: Key, owner: string, now: int, leaseMs: int,
      allowRetry: bool, meanwhile: seq<Step>): (Tables, ClaimAnswer) {
    var claim := ClaimCompilation(After(start, before), key, owner, now, leaseMs, allowRetry);
    (After(claim.0, meanwhile), claim.1)
  }

  /** The chosen matrix can be published under the token. */
  predicate Publishes(db: Tables, key: Key, owner: string, token: nat, chosen: Option<Matrix>) {
    chosen.Some? && PublishMatrix(db, key, owner, token, chosen.value).1.PublishedMatrix?
  }

  function FailureCode(db: Tables, key: Key, owner: string, token: nat, chosen: Option<Matrix>): string {
    if chosen == None then "MATRIX_COMPILATION_FAILED"
    else if PublishMatrix(db, key, owner, token, chosen.value).1 == StaleToken then "MATRIX_STALE_FENCING_TOKEN"
    else "MATRIX_ALREADY_PUBLISHED"
  }

  /** One compilation, with other workers' transactions between any two of its own. A result carries the
      checksum of the one matrix of the key, whoever published it, and at most two model calls are made. The
      owner of a claim compiles exactly if it can publish the matrix it has chosen; another worker answers with
      the matrix if there is one by then, and else waits or reports the failure it was told of. */
  method CompileVacancyMatrix(store: MatrixRepository, key: Key, owner: string, now: int, leaseMs: int,
      allowRetry: bool, skills: Skills, before: seq<Step>, meanwhile: seq<Step>, failing: seq<Step>)
      returns (result: CompileResult)
    requires Consistent(store.Rows())
    modifies store
    ensures Consistent(store.Rows()) && Advances(old(store.Rows()), store.Rows())
    ensures result.Compiled? ==>
        key in store.matrices && result.checksum == store.matrices[key].checksum == result.matrix.checksum
        && result.llmCalls <= 2
    ensures key in old(store.matrices) ==>
        result == Compiled(old(store.matrices)[key], old(store.matrices)[key].checksum, true, 0, false)
        && store.Rows() == old(store.Rows())
    ensures key !in old(store.matrices) ==>
      var (mid, claim) := Contended(old(store.Rows()), before, key, owner, now, leaseMs, allowRetry, meanwhile);
      if claim.Owner? then
        && (result.Compiled? <==> Publishes(mid, key, owner, claim.fencingToken, Chosen(skills)))
        && (result.Compiled? ==>
              && Some(result.matrix) == Chosen(skills) && result.llmCalls == (if skills.critic == None then 1 else 2)
              && (!result.reused ==> key !in mid.matrices && store.matrices[key] == result.matrix))
        && (result.CompileFailed? ==>
              && result.errorCode == FailureCode(mid, key, owner, claim.fencingToken, Chosen(skills))
              && key in store.compilations && store.compilations[key].state == COMPILATION_FAILED
              && store.compilations[key].fencingToken == claim.fencingToken
              && store.compilations[key].errorCode == Some(result.errorCode))
        && (result == Threw ==>
              !(Holds(store.Rows(), key, owner, claim.fencingToken)
                && store.compilations[key].state == COMPILATION_CLAIMED))
        && result != WaitingForOther
      else if key in mid.matrices then result == Compiled(mid.matrices[key], mid.matrices[key].checksum, true, 0, false)
      else
        || (claim.Terminal? && result == CompileFailed(claim.errorCode))
        || (claim.Waiting? && result == WaitingForOther)
  {
    hide Advances, Consistent, ClaimCompilation, PublishMatrix, FailCompilation, After;
    ghost var start := store.Rows();
    AdvancesReflexive(start);
    var existing := store.Read(key);
    if existing.Some? { return Compiled(existing.value, existing.value.checksum, true, 0, false); }
    store.Interleave(before);
    EveryRunAdvances(start, before);
    ghost var early := store.Rows();
    var claim := store.Claim(key, owner, now, leaseMs, allowRetry);
    StepKeepsConsistent(early, DoClaim(key, owner, now, leaseMs, allowRetry));
    AdvancesTransitive(start, early, store.Rows());
    ghost var claimed := store.Rows();
    store.Interleave(meanwhile);
    EveryRunAdvances(claimed, meanwhile);
    AdvancesTransitive(start, claimed, store.Rows());
    ghost var mid := store.Rows();
    if claim.Owner? {
      result := Compile(store, key, owner, claim.fencingToken, skills, failing);
      AdvancesTransitive(start, mid, store.Rows());
    } else {
      PublishedStays(early, key, owner, now, leaseMs, allowRetry, meanwhile);
      var published := store.Read(key);
      if published.Some? { return Compiled(published.value, published.value.checksum, true, 0, false); }
      return if claim.Terminal? then CompileFailed(claim.errorCode) else WaitingForOther;
    }
  }

  /** What the owner of a claim does. */
  method Compile(store: MatrixRepository, key: Key, owner: string, token: nat, skills: Skills, failing: seq<Step>)
      returns (result: CompileResult)
    requires Consistent(store.Rows())
    modifies store
    ensures Consistent(store.Rows()) && Advances(old(store.Rows()), store.Rows())
    ensures result.Compiled? <==> Publishes(old(store.Rows()), key, owner, token, Chosen(skills))
    ensures result.Compiled? ==>
      && Some(result.matrix) == Chosen(skills) && result.llmCalls == (if skills.critic == None then 1 else 2)
      && key in store.matrices && result.checksum == store.matrices[key].checksum == result.matrix.checksum
      && (!result.reused ==> key !in old(store.matrices) && store.matrices[key] == result.matrix)
    ensures result.CompileFailed? ==>
      && result.errorCode == FailureCode(old(store.Rows()), key, owner, token, Chosen(skills))
      && key in store.compilations && store.compilations[key].state == COMPILATION_FAILED
      && store.compilations[key].fencingToken == token && store.compilations[key].errorCode == Some(result.errorCode)
    ensures result == Threw ==>
      !(Holds(store.Rows(), key, owner, token) && store.compilations[key].state == COMPILATION_CLAIMED)
    ensures result != WaitingForOther
  {
    hide Advances, Consistent, PublishMatrix, FailCompilation;
    var matrix, llmCalls, criticFallback := Draft(skills);
    var errorCode := "MATRIX_COMPILATION_FAILED";
    ghost var mid := store.Rows();
    AdvancesReflexive(mid);
    if matrix.Some? {
      var answer := store.Publish(key, owner, token, matrix.value);
      StepKeepsConsistent(mid, DoPublish(key, owner, token, matrix.value));
      if answer.PublishedMatrix? {
        PublishedIsThere(mid, key, owner, token, matrix.value);
        return Compiled(matrix.value, answer.checksum, answer.reused, llmCalls, criticFallback);
      }
      RefusedChangesNothing(mid, key, owner, token, matrix.value);
      errorCode := if answer.StaleToken? then "MATRIX_STALE_FENCING_TOKEN" else "MATRIX_ALREADY_PUBLISHED";
    }
    var ok := GiveUp(store, key, owner, token, errorCode, failing);
    return if ok then CompileFailed(errorCode) else Threw;
  }

  lemma RefusedChangesNothing(db: Tables, key: Key, owner: string, token: nat, matrix: Matrix)
    ensures !PublishMatrix(db, key, owner, token, matrix).1.PublishedMatrix? ==>
              PublishMatrix(db, key, owner, token, matrix).0 == db
  {
  }

  /** Whoever is told that the key is published finds its matrix, whatever others do. */
  lemma PublishedStays(db: Tables, key: Key, owner: string, now: int, leaseMs: int, allowRetry: bool, steps: seq<Step>)
    requires Consistent(db)
    ensures var (next, claim) := ClaimCompilation(db, key, owner, now, leaseMs, allowRetry);
      claim.AlreadyPublished? ==> key in After(next, steps).matrices
  {
    hide After;
    StepKeepsConsistent(db, DoClaim(key, owner, now, leaseMs, allowRetry));
    EveryRunAdvances(ClaimCompilation(db, key, owner, now, leaseMs, allowRetry).0, steps);
  }

  /** The model calls: one for the draft, one for the critic, whose failure falls back to the draft. */
  method Draft(skills: Skills) returns (matrix: Option<Matrix>, llmCalls: nat, criticFallback: bool)
    ensures matrix == Chosen(skills) && llmCalls <= 2
    ensures llmCalls == (if skills.draft == None then 0 else if skills.critic == None then 1 else 2)
    ensures skills.draft.Some? ==>
        (!criticFallback <==> skills.critic.Some? && skills.canonical(skills.critic.value).Some?)
  {
    matrix, llmCalls, criticFallback := None, 0, false;
    if skills.draft == None { return; }
    llmCalls := llmCalls + 1;
    if skills.critic.Some? {
      llmCalls := llmCalls + 1;
      matrix := skills.canonical(skills.critic.value);
    }
    if matrix == None {
      criticFallback := true;
      matrix := skills.canonical(skills.draft.value);
    }
  }

  /** Marks the compilation as failed, unless another worker has taken it over meanwhile. */
  method GiveUp(store: MatrixRepository, key: Key, owner: string, token: nat, errorCode: string, others: seq<Step>)
      returns (ok: bool)
    requires Consistent(store.Rows())
    modifies store
    ensures Consistent(store.Rows()) && Advances(old(store.Rows()), store.Rows())
    ensures ok ==>
        key in store.compilations && store.compilations[key].state == COMPILATION_FAILED
        && store.compilations[key].fencingToken == token && store.compilations[key].errorCode == Some(errorCode)
    ensures !ok ==> !(Holds(store.Rows(), key, owner, token) && store.compilations[key].state == COMPILATION_CLAIMED)
  {
    hide Advances, Consistent;
    ghost var start := store.Rows();
    store.Interleave(others);
    EveryRunAdvances(start, others);
    ghost var last := store.Rows();
    ok := store.Fail(key, owner, token, errorCode);
    StepKeepsConsistent(last, DoFail(key, owner, token, errorCode));
    AdvancesTransitive(start, last, store.Rows());
  }

  lemma PublishedIsThere(db: Tables, key: Key, owner: string, token: nat, matrix: Matrix)
    requires PublishMatrix(db, key, owner, token, matrix).1.PublishedMatrix?
    requires Consistent(db)
    ensures var (next, answer) := PublishMatrix(db, key, owner, token, matrix);
      && key in next.matrices && next.matrices[key].checksum == matrix.checksum == answer.checksum
      && (!answer.reused ==> key !in db.matrices && next.matrices[key] == matrix)
  {
  }
}
