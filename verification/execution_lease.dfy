/**
 * Character command executions: a caller claims its idempotency key, works outside any transaction, and
 * commits at the end. A lease lets a second caller take over a claim whose holder seems gone, and that holder
 * may still be working (src/characters/idempotency.ts, commits in src/characters/persistence.ts).
 */
module ExecutionLease {
  import opened Wrappers

  type ExecutionId = string
  type Outcome = string

  datatype Key = Key(actor: string, kind: string, key: string)

  datatype Status = Pending | Completed(result: Outcome)

  datatype Row = Row(execution: ExecutionId, hash: string, status: Status, lease: int, expires: int)

  datatype Claim =
    | Claimed(execution: ExecutionId)
    | Replay(execution: ExecutionId, result: Outcome)
    | Expired(execution: ExecutionId, result: Outcome)
    | Mismatch
    | InProgress

  datatype Request = Request(key: Key, hash: string, newExecution: ExecutionId, now: int, leaseMs: nat, ttl: nat)

  datatype Commit = Missing | AlreadyCompleted(result: Outcome) | Denied | Applied

  // ---------- one statement at a time ----------

  function ClaimResult(rows: map<Key, Row>, r: Request): Claim {
    if r.key !in rows then Claimed(r.newExecution)
    else var row := rows[r.key];
    if row.hash != r.hash then Mismatch
    else if row.status.Completed? && row.expires <= r.now then Expired(row.execution, row.status.result)
    else if row.status.Completed? then Replay(row.execution, row.status.result)
    else if row.lease > r.now then InProgress
    else Claimed(row.execution)
  }

  function AfterClaim(rows: map<Key, Row>, r: Request): map<Key, Row> {
    if r.key !in rows then rows[r.key := Row(r.newExecution, r.hash, Pending, r.now + r.leaseMs, r.now + r.ttl)]
    else if ClaimResult(rows, r).Claimed? then
      rows[r.key := rows[r.key].(lease := r.now + r.leaseMs, expires := r.now + r.ttl)]
    else rows
  }

  ghost predicate UniqueExecutions(rows: map<Key, Row>) {
    forall j, k {:trigger rows[j], rows[k]} ::
      j in rows && k in rows && rows[j].execution == rows[k].execution ==> j == k
  }

  ghost predicate Known(rows: map<Key, Row>, e: ExecutionId) { exists k :: k in rows && rows[k].execution == e }

  ghost function KeyOf(rows: map<Key, Row>, e: ExecutionId): (k: Key)
    requires Known(rows, e)
    ensures k in rows && rows[k].execution == e
  {
    var k :| k in rows && rows[k].execution == e; k
  }

  /** The rechecks of the command under the row lock find a `result`, or deny it and roll back. */
  ghost function CommitResult(rows: map<Key, Row>, e: ExecutionId, result: Option<Outcome>): Commit {
    if !Known(rows, e) then Missing
    else if rows[KeyOf(rows, e)].status.Completed? then AlreadyCompleted(rows[KeyOf(rows, e)].status.result)
    else if result.None? then Denied
    else Applied
  }

  ghost function AfterCommit(rows: map<Key, Row>, e: ExecutionId, result: Option<Outcome>,
      expires: int): map<Key, Row>
  {
    if !CommitResult(rows, e, result).Applied? then rows
    else rows[KeyOf(rows, e) := rows[KeyOf(rows, e)].(status := Completed(result.value), expires := expires)]
  }

  class Executions {
    var rows: map<Key, Row>

    constructor ()
      ensures rows == map[]
    {
      rows := map[];
    }

    /** The insert either succeeds or hits the unique key and falls through to the row that is there. */
    method TryInsert(r: Request) returns (inserted: bool)
      modifies this
      ensures inserted == (r.key !in old(rows))
      ensures rows ==
        if !inserted then old(rows)
        else old(rows)[r.key := Row(r.newExecution, r.hash, Pending, r.now + r.leaseMs, r.now + r.ttl)]
    {
      if r.key in rows { return false; }
      rows := rows[r.key := Row(r.newExecution, r.hash, Pending, r.now + r.leaseMs, r.now + r.ttl)];
      return true;
    }

    method ClaimExecution(r: Request) returns (claim: Claim)
      modifies this
      ensures claim == ClaimResult(old(rows), r) && rows == AfterClaim(old(rows), r)
    {
      var inserted := TryInsert(r);
      if inserted { return Claimed(r.newExecution); }
      var row := rows[r.key];
      if row.hash != r.hash { return Mismatch; }
      match row.status {
        case Completed(result) =>
          if row.expires <= r.now { return Expired(row.execution, result); }
          return Replay(row.execution, result);
        case Pending =>
          if row.lease > r.now { return InProgress; }
          rows := rows[r.key := row.(lease := r.now + r.leaseMs, expires := r.now + r.ttl)];
          return Claimed(row.execution);
      }
    }

    method FindExecution(e: ExecutionId) returns (found: Option<Key>)
      requires UniqueExecutions(rows)
      ensures found == if Known(rows, e) then Some(KeyOf(rows, e)) else None
    {
      found := None;
      var keys := rows.Keys;
      while keys != {} && found.None?
        invariant keys <= rows.Keys
        invariant found.None? ==> forall k :: k in rows && k !in keys ==> rows[k].execution != e
        invariant found.Some? ==> found.value in rows && rows[found.value].execution == e
        decreases |keys|
      {
        var k :| k in keys;
        keys := keys - {k};
        if rows[k].execution == e {
          found := Some(k);
        }
      }
    }

    /** The commit's transaction: the status under the row lock decides whether the effect is applied at all. */
    method CommitExecution(e: ExecutionId, result: Option<Outcome>, expires: int) returns (commit: Commit)
      requires UniqueExecutions(rows)
      modifies this
      ensures commit == CommitResult(old(rows), e, result) && rows == AfterCommit(old(rows), e, result, expires)
    {
      var found := FindExecution(e);
      if found.None? { return Missing; }
      var row := rows[found.value];
      if row.status.Completed? { return AlreadyCompleted(row.status.result); }
      if result.None? { return Denied; }
      rows := rows[found.value := row.(status := Completed(result.value), expires := expires)];
      return Applied;
    }
  }

  // ---------- callers racing ----------

  /** A granted claim: who may now work on `key`, since when, for how long. */
  datatype Grant = Grant(key: Key, execution: ExecutionId, at: int, leaseMs: nat)

  datatype Effect = Effect(key: Key, result: Outcome)

  /** `grants` and `effects` record what was granted and applied, in order. */
  datatype World = World(rows: map<Key, Row>, grants: seq<Grant>, effects: seq<Effect>)

  /** A holder of any past grant may try to commit, however late: nothing tells it that its lease ran out. */
  datatype Step = DoClaim(request: Request) | DoCommit(grant: nat, result: Option<Outcome>, expires: int)

  ghost predicate Enabled(w: World, step: Step) {
    match step
    case DoClaim(r) => !Known(w.rows, r.newExecution)
    case DoCommit(g, _, _) => g < |w.grants|
  }

  ghost function Next(w: World, step: Step): World
    requires Enabled(w, step)
  {
    match step
    case DoClaim(r) =>
      var claim := ClaimResult(w.rows, r);
      w.(rows := AfterClaim(w.rows, r),
        grants := if claim.Claimed? then w.grants + [Grant(r.key, claim.execution, r.now, r.leaseMs)] else w.grants)
    case DoCommit(g, result, expires) =>
      var e := w.grants[g].execution;
      w.(rows := AfterCommit(w.rows, e, result, expires),
        effects := if CommitResult(w.rows, e, result).Applied? then w.effects + [Effect(KeyOf(w.rows, e), result.value)]
                   else w.effects)
  }

  ghost predicate GrantSound(w: World, g: Grant) {
    g.key in w.rows && w.rows[g.key].execution == g.execution && g.at + g.leaseMs <= w.rows[g.key].lease
  }

  /** A key's later grant comes no earlier than the end of every earlier grant's lease. */
  ghost predicate LeasesApart(w: World) {
    forall i, j {:trigger w.grants[i], w.grants[j]} :: 0 <= i < j < |w.grants| && w.grants[i].key == w.grants[j].key ==>
      w.grants[i].at + w.grants[i].leaseMs <= w.grants[j].at
  }

  ghost predicate EffectsSound(w: World) {
    && (forall n {:trigger w.effects[n]} :: 0 <= n < |w.effects| ==>
         w.effects[n].key in w.rows && w.rows[w.effects[n].key].status == Completed(w.effects[n].result))
    && (forall m, n {:trigger w.effects[m], w.effects[n]} ::
         0 <= m < n < |w.effects| ==> w.effects[m].key != w.effects[n].key)
    && (forall k {:trigger w.rows[k]} ::
         k in w.rows && w.rows[k].status.Completed? ==> Effect(k, w.rows[k].status.result) in w.effects)
  }

  ghost predicate Sound(w: World) {
    && UniqueExecutions(w.rows)
    && (forall i {:trigger w.grants[i]} :: 0 <= i < |w.grants| ==> GrantSound(w, w.grants[i]))
    && LeasesApart(w)
    && EffectsSound(w)
  }

  ghost predicate RowContinues(a: Row, b: Row) {
    a.execution == b.execution && a.hash == b.hash && a.lease <= b.lease && (a.status.Completed? ==> b == a)
  }

  /** A key keeps its execution and input for good; once completed, its result too. */
  ghost predicate Continues(a: World, b: World) {
    forall k {:trigger b.rows[k]} {:trigger a.rows[k]} ::
      k in a.rows ==> k in b.rows && RowContinues(a.rows[k], b.rows[k])
  }

  /** A claim touches one row, and gives a row its execution id only on making it. */
  lemma ClaimAt(rows: map<Key, Row>, r: Request, k: Key)
    ensures k in AfterClaim(rows, r) <==> k in rows || k == r.key
    ensures k in rows ==> RowContinues(rows[k], AfterClaim(rows, r)[k])
    ensures k !in rows && k == r.key ==> AfterClaim(rows, r)[k].execution == r.newExecution
  {
  }

  lemma ClaimKeepsUnique(rows: map<Key, Row>, r: Request)
    requires UniqueExecutions(rows) && !Known(rows, r.newExecution)
    ensures UniqueExecutions(AfterClaim(rows, r))
  {
    var after := AfterClaim(rows, r);
    forall j, k | j in after && k in after && after[j].execution == after[k].execution ensures j == k {
      ClaimAt(rows, r, j);
      ClaimAt(rows, r, k);
    }
  }

  lemma ClaimKeepsRows(w: World, r: Request)
    requires UniqueExecutions(w.rows) && Enabled(w, DoClaim(r))
    ensures UniqueExecutions(AfterClaim(w.rows, r)) && Continues(w, Next(w, DoClaim(r)))
  {
    ClaimKeepsUnique(w.rows, r);
    forall k | k in w.rows ensures k in AfterClaim(w.rows, r) && RowContinues(w.rows[k], AfterClaim(w.rows, r)[k]) {
      ClaimAt(w.rows, r, k);
    }
  }

  lemma ClaimKeepsGrants(w: World, r: Request)
    requires Sound(w) && Enabled(w, DoClaim(r)) && Continues(w, Next(w, DoClaim(r)))
    ensures forall i {:trigger Next(w, DoClaim(r)).grants[i]} ::
      0 <= i < |Next(w, DoClaim(r)).grants| ==> GrantSound(Next(w, DoClaim(r)), Next(w, DoClaim(r)).grants[i])
    ensures LeasesApart(Next(w, DoClaim(r)))
  {
    var v := Next(w, DoClaim(r));
    forall i | 0 <= i < |v.grants| ensures GrantSound(v, v.grants[i]) {
      if i < |w.grants| {
        assert GrantSound(w, w.grants[i]);
      }
    }
    forall i, j | 0 <= i < j < |v.grants| && v.grants[i].key == v.grants[j].key
      ensures v.grants[i].at + v.grants[i].leaseMs <= v.grants[j].at
    {
      assert GrantSound(w, w.grants[i]);
    }
  }

  lemma ClaimKeepsSound(w: World, r: Request)
    requires Sound(w) && Enabled(w, DoClaim(r))
    ensures Sound(Next(w, DoClaim(r))) && Continues(w, Next(w, DoClaim(r)))
  {
    ClaimKeepsRows(w, r);
    ClaimKeepsGrants(w, r);
    assert EffectsSound(Next(w, DoClaim(r)));
  }

  lemma CommitKeepsSound(w: World, step: Step)
    requires Sound(w) && step.DoCommit? && Enabled(w, step)
    ensures Sound(Next(w, step)) && Continues(w, Next(w, step))
  {
    var v := Next(w, step);
    forall i | 0 <= i < |v.grants| ensures GrantSound(v, v.grants[i]) {
      assert GrantSound(w, w.grants[i]);
    }
    var e := w.grants[step.grant].execution;
    if CommitResult(w.rows, e, step.result).Applied? {
      var k := KeyOf(w.rows, e);
      assert v.effects[|w.effects|] == Effect(k, step.result.value);
      forall j | j in v.rows && v.rows[j].status.Completed? ensures Effect(j, v.rows[j].status.result) in v.effects {
        if j != k {
          assert Effect(j, w.rows[j].status.result) in w.effects;
        }
      }
    }
  }

  lemma StepKeepsSound(w: World, step: Step)
    requires Sound(w) && Enabled(w, step)
    ensures Sound(Next(w, step)) && Continues(w, Next(w, step))
  {
    match step
    case DoClaim(r) => ClaimKeepsSound(w, r);
    case DoCommit(_, _, _) => CommitKeepsSound(w, step);
  }

  ghost predicate IsRun(w: World, steps: seq<Step>)
    decreases |steps|
  {
    |steps| > 0 ==> Enabled(w, steps[0]) && IsRun(Next(w, steps[0]), steps[1..])
  }

  ghost function Final(w: World, steps: seq<Step>): World
    requires IsRun(w, steps)
    decreases |steps|
  {
    if |steps| == 0 then w else Final(Next(w, steps[0]), steps[1..])
  }

  lemma {:induction false} RunKeepsSound(w: World, steps: seq<Step>)
    requires Sound(w) && IsRun(w, steps)
    ensures Sound(Final(w, steps)) && Continues(w, Final(w, steps))
    decreases |steps|
  {
    if |steps| > 0 {
      StepKeepsSound(w, steps[0]);
      RunKeepsSound(Next(w, steps[0]), steps[1..]);
    }
  }

  const EMPTY: World := World(map[], [], [])

  /**
   * However many callers hold grants of a key, its effect is applied at most once, and that result is what replays
   * return.
   */
  lemma EffectAtMostOnce(steps: seq<Step>, m: nat, n: nat, r: Request)
    requires IsRun(EMPTY, steps)
    ensures var w := Final(EMPTY, steps);
      && (m < |w.effects| && n < |w.effects| && w.effects[m].key == w.effects[n].key ==> m == n)
      && (ClaimResult(w.rows, r).Replay? ==> Effect(r.key, ClaimResult(w.rows, r).result) in w.effects)
      && (m < |w.effects| && w.effects[m].key == r.key ==> !ClaimResult(w.rows, r).Claimed?)
  {
    RunKeepsSound(EMPTY, steps);
  }

  /** Every grant of a key carries one execution id, and a new grant waits for all earlier leases to end. */
  lemma GrantsOfAKey(steps: seq<Step>, i: nat, j: nat)
    requires IsRun(EMPTY, steps)
    requires i < j < |Final(EMPTY, steps).grants| &&
      Final(EMPTY, steps).grants[i].key == Final(EMPTY, steps).grants[j].key
    ensures var g, h := Final(EMPTY, steps).grants[i], Final(EMPTY, steps).grants[j];
      g.execution == h.execution && g.at + g.leaseMs <= h.at
  {
    RunKeepsSound(EMPTY, steps);
    var w := Final(EMPTY, steps);
    assert GrantSound(w, w.grants[i]) && GrantSound(w, w.grants[j]);
  }

  /** The first result stands: a late commit by a holder whose lease ran out changes nothing. */
  lemma CompletedStays(w: World, steps: seq<Step>, k: Key)
    requires Sound(w) && IsRun(w, steps) && k in w.rows && w.rows[k].status.Completed?
    ensures k in Final(w, steps).rows && Final(w, steps).rows[k] == w.rows[k]
  {
    RunKeepsSound(w, steps);
  }

  // ---------- what a claim is told, and what it leaves ----------

  /** The key has a row for the same input. */
  predicate SameInput(rows: map<Key, Row>, r: Request, completed: bool) {
    r.key in rows && rows[r.key].hash == r.hash && rows[r.key].status.Completed? == completed
  }

  /** The rule of each answer: other input, a result still or no longer kept, a holder at work, or the caller's turn. */
  lemma ClaimsAreAnsweredRightly(rows: map<Key, Row>, r: Request)
    ensures var claim := ClaimResult(rows, r);
      && (claim == Mismatch <==> r.key in rows && rows[r.key].hash != r.hash)
      && (claim == InProgress <==> SameInput(rows, r, false) && r.now < rows[r.key].lease)
      && (claim.Replay? <==> SameInput(rows, r, true) && r.now < rows[r.key].expires)
      && (claim.Expired? <==> SameInput(rows, r, true) && rows[r.key].expires <= r.now)
      && (claim.Claimed? <==> r.key !in rows || (SameInput(rows, r, false) && rows[r.key].lease <= r.now))
      && (claim.Replay? || claim.Expired? ==> Completed(claim.result) == rows[r.key].status)
      && (r.key in rows && (claim.Claimed? || claim.Replay? || claim.Expired?) ==>
           claim.execution == rows[r.key].execution)
      && (r.key !in rows ==> claim.execution == r.newExecution)
  {
  }

  /** Only a granted claim writes: its own row, pending, leased and kept from now on for the times asked. */
  lemma ClaimLeaves(rows: map<Key, Row>, r: Request)
    ensures var after, claim := AfterClaim(rows, r), ClaimResult(rows, r);
      && (!claim.Claimed? ==> after == rows)
      && (claim.Claimed? ==>
           r.key in after && var row := after[r.key];
           row.execution == claim.execution && row.hash == r.hash && row.status.Pending? &&
           row.lease == r.now + r.leaseMs && row.expires == r.now + r.ttl)
      && (forall k :: k != r.key ==> (k in after <==> k in rows) && (k in rows ==> after[k] == rows[k]))
  {
  }

  /** A commit writes the result and how long to keep it into the row of its execution, once, and nothing else. */
  lemma CommitLeaves(rows: map<Key, Row>, k: Key, result: Option<Outcome>, expires: int)
    requires UniqueExecutions(rows) && k in rows
    ensures var e := rows[k].execution; var after := AfterCommit(rows, e, result, expires);
      && (CommitResult(rows, e, result) == Applied <==> rows[k].status.Pending? && result.Some?)
      && (CommitResult(rows, e, result) == Denied <==> rows[k].status.Pending? && result.None?)
      && (rows[k].status.Completed? ==> CommitResult(rows, e, result) == AlreadyCompleted(rows[k].status.result))
      && after.Keys == rows.Keys && (forall j :: j in rows && j != k ==> after[j] == rows[j])
      && after[k].execution == e && after[k].hash == rows[k].hash && after[k].lease == rows[k].lease
      && after[k].status ==
           (if rows[k].status.Pending? && result.Some? then Completed(result.value) else rows[k].status)
      && after[k].expires == (if rows[k].status.Pending? && result.Some? then expires else rows[k].expires)
  {
  }

  /**
   * From a commit on, whatever late holders and other callers do: its key answers with its result until it expires,
   * says afterwards that it has expired, and refuses any other input at all times.
   */
  lemma CommittedKeyAnswers(w: World, commit: Step, steps: seq<Step>, r: Request)
    requires Sound(w) && commit.DoCommit? && Enabled(w, commit) && commit.result.Some? && IsRun(Next(w, commit), steps)
    requires var g := w.grants[commit.grant];
      g.key in w.rows && w.rows[g.key].status.Pending? && r.key == g.key
    ensures var rows := Final(Next(w, commit), steps).rows; var e := w.rows[r.key].execution;
      ClaimResult(rows, r) ==
        if r.hash != w.rows[r.key].hash then Mismatch
        else if r.now < commit.expires then Replay(e, commit.result.value)
        else Expired(e, commit.result.value)
  {
    var g := w.grants[commit.grant];
    assert GrantSound(w, g);
    CommitLeaves(w.rows, g.key, commit.result, commit.expires);
    StepKeepsSound(w, commit);
    CompletedStays(Next(w, commit), steps, g.key);
    ClaimsAreAnsweredRightly(Final(Next(w, commit), steps).rows, r);
  }
}
