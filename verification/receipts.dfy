/**
 * Idempotency receipts: every campaign command looks for a receipt, takes its campaign's lock, looks again,
 * decides, writes table by table and commits its writes together with a new receipt, or not at all. Any other
 * call may come between any two of these, also one with the same key aimed at another campaign, which no common
 * lock keeps apart. Statements read what is committed when they run; what a call has written nobody else sees
 * before its commit.
 */
module Receipts {
  import opened Wrappers
  import opened Policy
  import opened CampaignRows
  import opened CampaignInvariants
  import opened CampaignFrames
  import opened CampaignRuns

  datatype Key = Key(actor: UserId, kind: string, key: string)

  datatype Receipt = Receipt(hash: string, expires: int, call: nat, lock: Option<CampaignId>)

  datatype Answer = Committed | Refused(outcome: Outcome) | Mismatch | Expired | Replayed(call: nat) | Failed

  datatype Table = OfCampaigns | OfInvitations | OfContents | OfSheets

  /** The rows a call has written so far in its transaction. */
  datatype Rows = Rows(
    campaigns: Option<map<CampaignId, Campaign>>, invitations: Option<map<InvitationId, Invitation>>,
    contents: Option<map<ContentId, Content>>, sheets: Option<map<SheetId, Sheet>>)

  /**
   * Where a call is, between two of its statements. `target` and `found` come from look-ups made before any lock;
   * `lock` is missing when there is no such campaign row, or none yet.
   */
  datatype Phase =
    | Arrived
    | Ready
    | Seeking(target: Option<CampaignId>, found: Option<InvitationId>)
    | Locked(lock: Option<CampaignId>, found: Option<InvitationId>)
    | Cleared(lock: Option<CampaignId>, found: Option<InvitationId>)
    | Writing(lock: Option<CampaignId>, rows: Rows)
    | Answered(answer: Answer)

  datatype Call = Call(key: Key, hash: string, command: Command, phase: Phase)

  /** `trace` records the changes to the store in commit order, with the call that made them. */
  datatype Entry = Entry(step: Step, origin: Option<nat>)

  datatype World = World(
    s: State, receipts: map<Key, Receipt>, locks: map<CampaignId, nat>, calls: seq<Call>, trace: seq<Entry>)

  datatype Event =
    | Begin(key: Key, hash: string, command: Command)
    | PreCheck(i: nat, now: int)
    | Locate(i: nat)
    | TakeLock(i: nat)
    | ReCheck(i: nat, now: int)
    | Decide(i: nat)
    | Write(i: nat, table: Table)
    | Commit(i: nat, now: int, expires: int)
    | Abort(i: nat)
    | Outside(step: Step)

  function Resolve(r: Receipt, hash: string, now: int): Answer {
    if r.hash != hash then Mismatch else if r.expires <= now then Expired else Replayed(r.call)
  }

  predicate Inside(p: Phase) { p.Locked? || p.Cleared? || p.Writing? }

  predicate Written(rows: Rows, table: Table) {
    match table
    case OfCampaigns => rows.campaigns.Some?
    case OfInvitations => rows.invitations.Some?
    case OfContents => rows.contents.Some?
    case OfSheets => rows.sheets.Some?
  }

  predicate Complete(rows: Rows) {
    rows.campaigns.Some? && rows.invitations.Some? && rows.contents.Some? && rows.sheets.Some?
  }

  /** One statement: it computes its rows from what is committed now. */
  ghost function Wrote(s: State, actor: UserId, cmd: Command, rows: Rows, table: Table): Rows
    requires Guarded(cmd) && Verdict(s, actor, cmd).Done?
  {
    match table
    case OfCampaigns => rows.(campaigns := Some(CampaignRowsOf(s, actor, cmd)))
    case OfInvitations => rows.(invitations := Some(InvitationRowsOf(s, actor, cmd)))
    case OfContents => rows.(contents := Some(ContentRowsOf(s, actor, cmd)))
    case OfSheets => rows.(sheets := Some(SheetRowsOf(s, actor, cmd)))
  }

  /** The campaign row to lock is there and held by someone else. */
  predicate Blocked(w: World, target: Option<CampaignId>) {
    target.Some? && target.value in w.s.campaigns && target.value in w.locks
  }

  ghost predicate Enabled(w: World, e: Event) {
    match e
    case Begin(_, _, cmd) => Guarded(cmd)
    case PreCheck(i, _) => i < |w.calls| && w.calls[i].phase == Arrived
    case Locate(i) => i < |w.calls| && w.calls[i].phase == Ready
    case TakeLock(i) => i < |w.calls| && w.calls[i].phase.Seeking? && !Blocked(w, w.calls[i].phase.target)
    case ReCheck(i, _) => i < |w.calls| && w.calls[i].phase.Locked?
    case Decide(i) => i < |w.calls| && w.calls[i].phase.Cleared?
    case Write(i, table) =>
      i < |w.calls| && w.calls[i].phase.Writing? && !Written(w.calls[i].phase.rows, table) &&
        Guarded(w.calls[i].command)
    case Commit(i, _, _) =>
      && i < |w.calls| && w.calls[i].phase.Writing? && Complete(w.calls[i].phase.rows)
      && NewIds(w.s, w.calls[i].command)
    case Abort(i) => i < |w.calls| && Inside(w.calls[i].phase)
    case Outside(step) =>
      && CampaignRows.Enabled(w.s, step) && (step.Do? ==> !Guarded(step.command))
      && (StepLock(w.s, step).Some? ==> StepLock(w.s, step).value !in w.locks)
  }

  function Moved(w: World, i: nat, phase: Phase): World
    requires i < |w.calls|
  {
    w.(calls := w.calls[i := w.calls[i].(phase := phase)])
  }

  /** The transaction ends: its lock is free and the call has its answer. */
  function Released(w: World, i: nat, answer: Answer): World
    requires i < |w.calls| && Inside(w.calls[i].phase)
  {
    var lock := w.calls[i].phase.lock;
    Moved(w, i, Answered(answer)).(locks := if lock.Some? then w.locks - {lock.value} else w.locks)
  }

  /** The look-ups by content and by token hash that say which campaign to lock. */
  ghost function Located(s: State, cmd: Command): Phase {
    if cmd.ReplaceGrants? && cmd.content !in s.contents then Answered(Refused(NotFound))
    else if ByToken(cmd) && LookUp(s, cmd.campaign, cmd.hash).None? then Answered(Refused(Unavailable))
    else Seeking(LockOf(s, cmd), if ByToken(cmd) then LookUp(s, cmd.campaign, cmd.hash) else None)
  }

  ghost function Decision(s: State, call: Call): Outcome
    requires call.phase.Cleared?
  {
    if call.phase.lock.None? && !call.command.CreateCampaign? then
      (if ByToken(call.command) then Unavailable else NotFound)
    else LockedVerdict(s, call.key.actor, call.command, call.phase.found)
  }

  ghost function Committing(w: World, i: nat, expires: int): World
    requires i < |w.calls| && w.calls[i].phase.Writing? && Complete(w.calls[i].phase.rows)
  {
    var call, rows := w.calls[i], w.calls[i].phase.rows;
    Released(w, i, Committed).(
      s := Merged(w.s, call.command,
        rows.campaigns.value, rows.invitations.value, rows.contents.value, rows.sheets.value),
      receipts := w.receipts[call.key := Receipt(call.hash, expires, i, call.phase.lock)],
      trace := w.trace + [Entry(Do(call.key.actor, call.command), Some(i))])
  }

  ghost function Next(w: World, e: Event): World
    requires Enabled(w, e)
  {
    match e
    case Begin(key, hash, cmd) => w.(calls := w.calls + [Call(key, hash, cmd, Arrived)])
    case PreCheck(i, now) =>
      var call := w.calls[i];
      Moved(w, i, if call.key in w.receipts then Answered(Resolve(w.receipts[call.key], call.hash, now)) else Ready)
    case Locate(i) => Moved(w, i, Located(w.s, w.calls[i].command))
    case TakeLock(i) =>
      var target := w.calls[i].phase.target;
      var lock := if target.Some? && target.value in w.s.campaigns then target else None;
      Moved(w, i, Locked(lock, w.calls[i].phase.found)).(
        locks := if lock.Some? then w.locks[lock.value := i] else w.locks)
    case ReCheck(i, now) =>
      var call := w.calls[i];
      if call.key in w.receipts then Released(w, i, Resolve(w.receipts[call.key], call.hash, now))
      else Moved(w, i, Cleared(call.phase.lock, call.phase.found))
    case Decide(i) =>
      var verdict := Decision(w.s, w.calls[i]);
      if verdict.Done? then Moved(w, i, Writing(w.calls[i].phase.lock, Rows(None, None, None, None)))
      else Released(w, i, Refused(verdict))
    case Write(i, table) =>
      var call := w.calls[i];
      if Verdict(w.s, call.key.actor, call.command).Done?
      then Moved(w, i, Writing(call.phase.lock, Wrote(w.s, call.key.actor, call.command, call.phase.rows, table)))
      else Released(w, i, Refused(Conflict))
    case Commit(i, now, expires) =>
      var call := w.calls[i];
      if call.key in w.receipts then Released(w, i, Resolve(w.receipts[call.key], call.hash, now))
      else Committing(w, i, expires)
    case Abort(i) => Released(w, i, Failed)
    case Outside(step) => w.(s := CampaignRows.Next(w.s, step), trace := w.trace + [Entry(step, None)])
  }

  // ---------- what every interleaving keeps ----------

  ghost predicate HasCommitted(w: World, i: nat) { i < |w.calls| && w.calls[i].phase == Answered(Committed) }

  /** Receipts and committed calls are one to one. */
  ghost predicate ReceiptsSound(w: World) {
    && (forall k {:trigger w.receipts[k]} ::
         k in w.receipts ==> HasCommitted(w, w.receipts[k].call) && w.calls[w.receipts[k].call].key == k)
    && (forall i {:trigger w.calls[i]} ::
         0 <= i < |w.calls| && HasCommitted(w, i) ==>
         w.calls[i].key in w.receipts && w.receipts[w.calls[i].key].call == i)
  }

  ghost predicate Holds(w: World, i: nat, c: CampaignId) {
    i < |w.calls| && Inside(w.calls[i].phase) && w.calls[i].phase.lock == Some(c)
  }

  ghost predicate LocksSound(w: World) {
    && (forall c {:trigger w.locks[c]} :: c in w.locks ==> Holds(w, w.locks[c], c))
    && (forall i, c {:trigger Holds(w, i, c)} :: Holds(w, i, c) ==> c in w.locks && w.locks[c] == i)
  }

  /** Past the second look for a receipt, under a campaign's lock. */
  ghost predicate PastReCheck(w: World, i: nat) {
    i < |w.calls| && (w.calls[i].phase.Cleared? || w.calls[i].phase.Writing?) && w.calls[i].phase.lock.Some?
  }

  /** There, nobody has committed the call's key under that lock. */
  ghost predicate NoRaceUnderLock(w: World) {
    forall i: nat {:trigger PastReCheck(w, i)} :: PastReCheck(w, i) && w.calls[i].key in w.receipts ==>
      w.receipts[w.calls[i].key].lock != w.calls[i].phase.lock
  }

  ghost predicate CommittedStep(w: World, entry: Entry) {
    entry.origin.Some? ==>
      HasCommitted(w, entry.origin.value) &&
      var call := w.calls[entry.origin.value];
      entry.step == Do(call.key.actor, call.command)
  }

  ghost predicate TraceSound(w: World) {
    && (forall n {:trigger w.trace[n]} :: 0 <= n < |w.trace| ==> CommittedStep(w, w.trace[n]))
    && (forall m, n {:trigger w.trace[m], w.trace[n]} ::
         0 <= m < n < |w.trace| && w.trace[m].origin.Some? ==> w.trace[m].origin != w.trace[n].origin)
  }

  ghost predicate Sound(w: World) { ReceiptsSound(w) && LocksSound(w) && NoRaceUnderLock(w) && TraceSound(w) }

  /** Calls keep their identity, and what is committed stays committed. */
  ghost predicate Continues(a: World, b: World) {
    && |a.calls| <= |b.calls|
    && (forall i {:trigger b.calls[i]} :: 0 <= i < |a.calls| ==> b.calls[i] == a.calls[i].(phase := b.calls[i].phase))
    && (forall i {:trigger a.calls[i]} {:trigger b.calls[i]} ::
         0 <= i < |a.calls| && a.calls[i].phase.Answered? ==> b.calls[i] == a.calls[i])
    && (forall k {:trigger b.receipts[k]} {:trigger a.receipts[k]} ::
         k in a.receipts ==> k in b.receipts && b.receipts[k] == a.receipts[k])
    && |a.trace| <= |b.trace| && a.trace == b.trace[..|a.trace|]
  }

  /** Call `i` alone moves and no receipt is written. */
  ghost predicate OnlyMoves(a: World, b: World, i: nat) {
    && i < |a.calls| && |b.calls| == |a.calls| && b.receipts == a.receipts && b.trace == a.trace && b.s == a.s
    && b.calls == a.calls[i := a.calls[i].(phase := b.calls[i].phase)]
    && !a.calls[i].phase.Answered? && b.calls[i].phase != Answered(Committed)
  }

  lemma MovesKeepReceipts(a: World, b: World, i: nat)
    requires ReceiptsSound(a) && TraceSound(a) && OnlyMoves(a, b, i)
    ensures ReceiptsSound(b) && TraceSound(b) && Continues(a, b)
  {
    forall k | k in b.receipts ensures HasCommitted(b, b.receipts[k].call) && b.calls[b.receipts[k].call].key == k {
      assert HasCommitted(a, a.receipts[k].call);
    }
    forall j | 0 <= j < |b.calls| && HasCommitted(b, j)
      ensures b.calls[j].key in b.receipts && b.receipts[b.calls[j].key].call == j
    {
      assert HasCommitted(a, j) && a.calls[j] == b.calls[j];
    }
    forall n | 0 <= n < |b.trace| ensures CommittedStep(b, b.trace[n]) {
      assert CommittedStep(a, a.trace[n]);
    }
  }

  lemma ReleaseKeepsLocks(w: World, i: nat, answer: Answer)
    requires LocksSound(w) && i < |w.calls| && Inside(w.calls[i].phase)
    ensures LocksSound(Released(w, i, answer))
  {
    var v := Released(w, i, answer);
    var lock := w.calls[i].phase.lock;
    assert lock.Some? ==> Holds(w, i, lock.value);
    forall j, c | Holds(v, j, c) ensures c in v.locks && v.locks[c] == j {
      assert j != i && Holds(w, j, c);
    }
    forall c | c in v.locks ensures Holds(v, v.locks[c], c) {
      assert Holds(w, w.locks[c], c);
    }
  }

  /** Locks depend on lock table and on who is inside which lock. */
  lemma LocksCarryOver(a: World, b: World)
    requires LocksSound(a) && b.locks == a.locks && forall j, c :: Holds(b, j, c) <==> Holds(a, j, c)
    ensures LocksSound(b)
  {
  }

  lemma TakingKeepsLocks(w: World, e: Event)
    requires LocksSound(w) && Enabled(w, e) && e.TakeLock?
    ensures LocksSound(Next(w, e))
  {
    var v := Next(w, e);
    forall j, c | Holds(v, j, c) ensures c in v.locks && v.locks[c] == j {
      if j != e.i {
        assert Holds(w, j, c);
      }
    }
    forall c | c in v.locks ensures Holds(v, v.locks[c], c) {
      if c in w.locks && w.locks[c] == v.locks[c] {
        assert Holds(w, w.locks[c], c);
      }
    }
  }

  /** The call moves on with the lock it has, or without. */
  ghost predicate KeepsItsLock(a: World, b: World, i: nat) {
    && i < |a.calls| && |b.calls| == |a.calls| && b.locks == a.locks
    && b.calls == a.calls[i := b.calls[i]] && (Inside(b.calls[i].phase) <==> Inside(a.calls[i].phase))
    && (Inside(a.calls[i].phase) ==> b.calls[i].phase.lock == a.calls[i].phase.lock)
  }

  lemma MoveKeepsLocks(a: World, b: World, i: nat)
    requires LocksSound(a) && KeepsItsLock(a, b, i)
    ensures LocksSound(b)
  {
    forall j, c ensures Holds(b, j, c) <==> Holds(a, j, c) {
    }
    LocksCarryOver(a, b);
  }

  ghost predicate Releases(a: World, b: World, i: nat) {
    && i < |a.calls| && Inside(a.calls[i].phase) && i < |b.calls| && b.calls[i].phase.Answered?
    && b == Released(a, i, b.calls[i].phase.answer)
  }

  /** A call moves without writing a receipt. */
  ghost predicate Steps(a: World, b: World, i: nat) {
    OnlyMoves(a, b, i) && (KeepsItsLock(a, b, i) || Releases(a, b, i))
  }

  ghost predicate Commits(w: World, e: Event) {
    e.Commit? && Enabled(w, e) && w.calls[e.i].key !in w.receipts
  }

  lemma MovesAreSteps(w: World, e: Event)
    requires Enabled(w, e) && !e.Begin? && !e.Outside? && !e.TakeLock? && !Commits(w, e)
    ensures Steps(w, Next(w, e), e.i)
  {
  }

  lemma MoveKeepsNoRace(w: World, e: Event)
    requires NoRaceUnderLock(w) && Enabled(w, e) && !e.Begin? && !e.Outside? && !Commits(w, e)
    ensures NoRaceUnderLock(Next(w, e))
  {
    var v := Next(w, e);
    forall j: nat | PastReCheck(v, j) && v.calls[j].key in v.receipts
      ensures v.receipts[v.calls[j].key].lock != v.calls[j].phase.lock
    {
      assert j == e.i || PastReCheck(w, j);
      assert e.Decide? || e.Write? ==> PastReCheck(w, j);
    }
  }

  lemma MoveKeepsSound(w: World, e: Event)
    requires Sound(w) && Enabled(w, e) && !e.Begin? && !e.Outside? && !Commits(w, e)
    ensures Sound(Next(w, e)) && Continues(w, Next(w, e))
  {
    var v := Next(w, e);
    MoveKeepsNoRace(w, e);
    if e.TakeLock? {
      MovesKeepReceipts(w, v, e.i);
      TakingKeepsLocks(w, e);
    } else {
      MovesAreSteps(w, e);
      MovesKeepReceipts(w, v, e.i);
      if KeepsItsLock(w, v, e.i) {
        MoveKeepsLocks(w, v, e.i);
      } else {
        ReleaseKeepsLocks(w, e.i, v.calls[e.i].phase.answer);
      }
    }
  }

  lemma BeginKeepsSound(w: World, e: Event)
    requires Sound(w) && Enabled(w, e) && e.Begin?
    ensures Sound(Next(w, e)) && Continues(w, Next(w, e))
  {
    var v := Next(w, e);
    forall k | k in v.receipts ensures HasCommitted(v, v.receipts[k].call) && v.calls[v.receipts[k].call].key == k {
      assert HasCommitted(w, w.receipts[k].call);
    }
    forall j | 0 <= j < |v.calls| && HasCommitted(v, j)
      ensures v.calls[j].key in v.receipts && v.receipts[v.calls[j].key].call == j
    {
      assert HasCommitted(w, j) && w.calls[j] == v.calls[j];
    }
    forall n | 0 <= n < |v.trace| ensures CommittedStep(v, v.trace[n]) {
      assert CommittedStep(w, w.trace[n]);
    }
    forall j, c ensures Holds(v, j, c) <==> Holds(w, j, c) {
    }
    LocksCarryOver(w, v);
    forall j: nat | PastReCheck(v, j) && v.calls[j].key in v.receipts
      ensures v.receipts[v.calls[j].key].lock != v.calls[j].phase.lock
    {
      assert PastReCheck(w, j);
    }
  }

  lemma CommitMovesOne(w: World, e: Event)
    requires Enabled(w, e) && Commits(w, e)
    ensures Next(w, e).calls == w.calls[e.i := w.calls[e.i].(phase := Answered(Committed))]
    ensures Next(w, e).receipts == w.receipts[w.calls[e.i].key := Next(w, e).receipts[w.calls[e.i].key]]
    ensures Next(w, e).receipts[w.calls[e.i].key].call == e.i
    ensures Next(w, e).receipts[w.calls[e.i].key].lock == w.calls[e.i].phase.lock
    ensures Next(w, e).trace == w.trace + [Entry(Do(w.calls[e.i].key.actor, w.calls[e.i].command), Some(e.i))]
    ensures Continues(w, Next(w, e))
  {
  }

  lemma CommitKeepsReceipts(w: World, e: Event)
    requires Sound(w) && Enabled(w, e) && Commits(w, e)
    ensures ReceiptsSound(Next(w, e))
  {
    var v := Next(w, e);
    CommitMovesOne(w, e);
    forall k | k in v.receipts ensures HasCommitted(v, v.receipts[k].call) && v.calls[v.receipts[k].call].key == k {
      if k in w.receipts {
        assert HasCommitted(w, w.receipts[k].call);
      }
    }
    forall j | 0 <= j < |v.calls| && HasCommitted(v, j)
      ensures v.calls[j].key in v.receipts && v.receipts[v.calls[j].key].call == j
    {
      if j != e.i {
        assert HasCommitted(w, j) && w.calls[j] == v.calls[j];
      }
    }
  }

  lemma CommitKeepsTrace(w: World, e: Event)
    requires Sound(w) && Enabled(w, e) && Commits(w, e)
    ensures TraceSound(Next(w, e))
  {
    var v := Next(w, e);
    CommitMovesOne(w, e);
    forall n | 0 <= n < |v.trace| ensures CommittedStep(v, v.trace[n]) {
      if n < |w.trace| {
        assert CommittedStep(w, w.trace[n]);
      }
    }
    forall m, n | 0 <= m < n < |v.trace| && v.trace[m].origin.Some? ensures v.trace[m].origin != v.trace[n].origin {
      assert CommittedStep(w, w.trace[m]);
    }
  }

  lemma CommitKeepsNoRace(w: World, e: Event)
    requires LocksSound(w) && NoRaceUnderLock(w) && Enabled(w, e) && Commits(w, e)
    ensures NoRaceUnderLock(Next(w, e))
  {
    var v := Next(w, e);
    CommitMovesOne(w, e);
    forall j: nat | PastReCheck(v, j) && v.calls[j].key in v.receipts
      ensures v.receipts[v.calls[j].key].lock != v.calls[j].phase.lock
    {
      var c := v.calls[j].phase.lock.value;
      assert PastReCheck(w, j) && Holds(w, j, c) && v.calls[j] == w.calls[j];
      assert w.calls[e.i].phase.lock == Some(c) ==> Holds(w, e.i, c);
    }
  }

  lemma CommitKeepsSound(w: World, e: Event)
    requires Sound(w) && Enabled(w, e) && Commits(w, e)
    ensures Sound(Next(w, e)) && Continues(w, Next(w, e))
  {
    var v := Next(w, e);
    CommitMovesOne(w, e);
    CommitKeepsReceipts(w, e);
    CommitKeepsTrace(w, e);
    CommitKeepsNoRace(w, e);
    ReleaseKeepsLocks(w, e.i, Committed);
    LocksCarryOver(Released(w, e.i, Committed), v);
  }

  lemma OutsideKeepsSound(w: World, e: Event)
    requires Sound(w) && Enabled(w, e) && e.Outside?
    ensures Sound(Next(w, e)) && Continues(w, Next(w, e))
  {
    var v := Next(w, e);
    forall n | 0 <= n < |v.trace| ensures CommittedStep(v, v.trace[n]) {
      if n < |w.trace| {
        assert CommittedStep(w, w.trace[n]);
      }
    }
    forall j, c ensures Holds(v, j, c) <==> Holds(w, j, c) {
    }
    LocksCarryOver(w, v);
    forall k | k in v.receipts ensures HasCommitted(v, v.receipts[k].call) && v.calls[v.receipts[k].call].key == k {
      assert HasCommitted(w, w.receipts[k].call);
    }
    forall j | 0 <= j < |v.calls| && HasCommitted(v, j)
      ensures v.calls[j].key in v.receipts && v.receipts[v.calls[j].key].call == j
    {
      assert HasCommitted(w, j);
    }
    forall j: nat | PastReCheck(v, j) && v.calls[j].key in v.receipts
      ensures v.receipts[v.calls[j].key].lock != v.calls[j].phase.lock
    {
      assert PastReCheck(w, j);
    }
  }

  lemma EventKeepsSound(w: World, e: Event)
    requires Sound(w) && Enabled(w, e)
    ensures Sound(Next(w, e)) && Continues(w, Next(w, e))
  {
    if e.Begin? {
      BeginKeepsSound(w, e);
    } else if e.Outside? {
      OutsideKeepsSound(w, e);
    } else if Commits(w, e) {
      CommitKeepsSound(w, e);
    } else {
      MoveKeepsSound(w, e);
    }
  }

  // ---------- runs ----------

  ghost predicate IsRun(w: World, events: seq<Event>)
    decreases |events|
  {
    |events| > 0 ==> Enabled(w, events[0]) && IsRun(Next(w, events[0]), events[1..])
  }

  ghost function Final(w: World, events: seq<Event>): World
    requires IsRun(w, events)
    decreases |events|
  {
    if |events| == 0 then w else Final(Next(w, events[0]), events[1..])
  }

  ghost function Fresh(s: State): World { World(s, map[], map[], [], []) }

  lemma ContinuesChains(a: World, b: World, c: World)
    requires Continues(a, b) && Continues(b, c)
    ensures Continues(a, c)
  {
    forall i | 0 <= i < |a.calls| ensures c.calls[i] == a.calls[i].(phase := c.calls[i].phase) {
      assert b.calls[i] == a.calls[i].(phase := b.calls[i].phase);
    }
    forall i | 0 <= i < |a.calls| && a.calls[i].phase.Answered? ensures c.calls[i] == a.calls[i] {
      assert b.calls[i] == a.calls[i];
    }
    assert c.trace[..|b.trace|][..|a.trace|] == c.trace[..|a.trace|];
  }

  lemma {:induction false} RunKeepsSound(w: World, events: seq<Event>)
    requires Sound(w) && IsRun(w, events)
    ensures Sound(Final(w, events)) && Continues(w, Final(w, events))
    decreases |events|
  {
    if |events| > 0 {
      EventKeepsSound(w, events[0]);
      RunKeepsSound(Next(w, events[0]), events[1..]);
      ContinuesChains(w, Next(w, events[0]), Final(w, events));
    }
  }

  /** Each (actor, kind, key) commits at most one mutation, under any interleaving, and its receipt names that one. */
  lemma ExactlyOnce(s: State, events: seq<Event>, i: nat, j: nat)
    requires IsRun(Fresh(s), events)
    ensures var w := Final(Fresh(s), events);
      && (HasCommitted(w, i) && HasCommitted(w, j) && w.calls[i].key == w.calls[j].key ==> i == j)
      && (HasCommitted(w, i) ==> w.calls[i].key in w.receipts && w.receipts[w.calls[i].key].call == i)
      && (forall m, n :: 0 <= m < n < |w.trace| && w.trace[m].origin.Some? && w.trace[n].origin.Some? ==>
            HasCommitted(w, w.trace[m].origin.value) && HasCommitted(w, w.trace[n].origin.value) &&
            w.calls[w.trace[m].origin.value].key != w.calls[w.trace[n].origin.value].key)
  {
    RunKeepsSound(Fresh(s), events);
    var w := Final(Fresh(s), events);
    forall m, n | 0 <= m < n < |w.trace| && w.trace[m].origin.Some? && w.trace[n].origin.Some?
      ensures HasCommitted(w, w.trace[m].origin.value) && HasCommitted(w, w.trace[n].origin.value)
      ensures w.calls[w.trace[m].origin.value].key != w.calls[w.trace[n].origin.value].key
    {
      assert CommittedStep(w, w.trace[m]) && CommittedStep(w, w.trace[n]);
    }
  }

  /** Once a receipt exists it is never overwritten, and no step of a call with its key changes the store. */
  lemma RepeatChangesNothing(w: World, events: seq<Event>, e: Event, k: Key)
    requires Sound(w) && k in w.receipts && IsRun(w, events)
    requires Enabled(Final(w, events), e) && (e.Commit? ==> Final(w, events).calls[e.i].key == k) && !e.Outside?
    ensures var v := Final(w, events);
      k in Next(v, e).receipts && Next(v, e).receipts[k] == w.receipts[k] && Next(v, e).s == v.s &&
        Next(v, e).trace == v.trace
  {
    RunKeepsSound(w, events);
  }

  /** The receipt race at commit only arises between calls that share no lock. */
  lemma RaceNeedsDifferentLocks(s: State, events: seq<Event>, e: Event)
    requires IsRun(Fresh(s), events) && Enabled(Final(Fresh(s), events), e) && e.Commit?
    requires Final(Fresh(s), events).calls[e.i].key in Final(Fresh(s), events).receipts
    ensures var w := Final(Fresh(s), events); var call := w.calls[e.i];
      call.phase.lock.None? || w.receipts[call.key].lock != call.phase.lock
  {
    RunKeepsSound(Fresh(s), events);
    assert Final(Fresh(s), events).calls[e.i].phase.lock.Some? ==> PastReCheck(Final(Fresh(s), events), e.i);
  }

  /** At most one call is inside a campaign's lock. */
  lemma LockExcludes(s: State, events: seq<Event>, i: nat, j: nat, c: CampaignId)
    requires IsRun(Fresh(s), events) && Holds(Final(Fresh(s), events), i, c) && Holds(Final(Fresh(s), events), j, c)
    ensures i == j
  {
    RunKeepsSound(Fresh(s), events);
  }

  // ---------- serial runs ----------

  function StepsOf(trace: seq<Entry>): (r: seq<Step>)
    ensures |r| == |trace| && forall n :: 0 <= n < |trace| ==> r[n] == trace[n].step
  {
    if |trace| == 0 then [] else [trace[0].step] + StepsOf(trace[1..])
  }

  lemma {:induction false} RunAppends(s: State, steps: seq<Step>, last: Step)
    requires CampaignRows.IsRun(s, steps) && CampaignRows.Enabled(CampaignRows.Final(s, steps), last)
    ensures CampaignRows.IsRun(s, steps + [last])
    ensures CampaignRows.Final(s, steps + [last]) == CampaignRows.Next(CampaignRows.Final(s, steps), last)
    decreases |steps|
  {
    var all := steps + [last];
    if |steps| == 0 {
      assert all[1..] == [];
    } else {
      assert all[1..] == steps[1..] + [last];
      RunAppends(CampaignRows.Next(s, steps[0]), steps[1..], last);
    }
  }

  ghost predicate Serial(s: State, w: World) {
    CampaignRows.IsRun(s, StepsOf(w.trace)) && CampaignRows.Final(s, StepsOf(w.trace)) == w.s
  }

  // ---------- what a call has decided and written stays right until it commits ----------

  /** The lock is that of the campaign the command is about. */
  ghost predicate Aims(s: State, cmd: Command, lock: Option<CampaignId>) {
    LockOf(s, cmd) == lock && (cmd.ReplaceGrants? ==> cmd.content in s.contents)
  }

  ghost predicate Stands(s: State, actor: UserId, cmd: Command, lock: Option<CampaignId>) {
    && Verdict(s, actor, cmd).Done? && Aims(s, cmd, lock)
    && (!cmd.CreateCampaign? ==> lock.Some? && lock.value in s.campaigns)
  }

  ghost predicate RightRows(s: State, actor: UserId, cmd: Command, rows: Rows)
    requires Guarded(cmd) && Verdict(s, actor, cmd).Done?
  {
    && (rows.campaigns.Some? ==> rows.campaigns.value == CampaignRowsOf(s, actor, cmd))
    && (rows.invitations.Some? ==> rows.invitations.value == InvitationRowsOf(s, actor, cmd))
    && (rows.contents.Some? ==> rows.contents.value == ContentRowsOf(s, actor, cmd))
    && (rows.sheets.Some? ==> rows.sheets.value == SheetRowsOf(s, actor, cmd))
  }

  /** A writing call would be granted now, and would write now what it has written. */
  ghost predicate CallSound(s: State, call: Call) {
    Guarded(call.command) &&
    match call.phase
    case Seeking(target, _) => Aims(s, call.command, target)
    case Locked(lock, _) => lock.Some? ==> Aims(s, call.command, lock) && lock.value in s.campaigns
    case Cleared(lock, _) => lock.Some? ==> Aims(s, call.command, lock) && lock.value in s.campaigns
    case Writing(lock, rows) =>
      Stands(s, call.key.actor, call.command, lock) && RightRows(s, call.key.actor, call.command, rows)
    case _ => true
  }

  ghost predicate CallsSound(w: World) {
    forall i {:trigger w.calls[i]} :: 0 <= i < |w.calls| ==> CallSound(w.s, w.calls[i])
  }

  /** The store changes by a step that does not lock the campaign this call holds. */
  lemma CallStaysSound(s: State, step: Step, call: Call)
    requires Inv(s) && CampaignRows.Enabled(s, step) && Inv(CampaignRows.Next(s, step)) && CallSound(s, call)
    requires call.phase.Writing? && call.phase.lock.Some? ==> StepLock(s, step) != call.phase.lock
    ensures CallSound(CampaignRows.Next(s, step), call)
  {
    var t := CampaignRows.Next(s, step);
    StepKeepsPlaces(s, step);
    if call.phase.Writing? {
      if !call.command.CreateCampaign? {
        var c := call.phase.lock.value;
        StepAgrees(s, step, c);
        VerdictFrame(s, t, call.key.actor, call.command, c);
        RowsFrame(s, t, call.key.actor, call.command, c);
      }
    }
  }

  /** Nobody but the holder of a lock makes a step that needs it. */
  lemma StepKeepsCallsSound(w: World, v: World, step: Step)
    requires LocksSound(w) && Inv(w.s) && CallsSound(w) && CampaignRows.Enabled(w.s, step)
    requires v.s == CampaignRows.Next(w.s, step) && |v.calls| == |w.calls|
    requires forall i {:trigger v.calls[i]} :: 0 <= i < |v.calls| && v.calls[i] != w.calls[i] ==>
      v.calls[i].phase.Answered? && Guarded(v.calls[i].command)
    requires forall i: nat, c {:trigger Holds(w, i, c)} :: Holds(w, i, c) && v.calls[i] == w.calls[i] ==>
      StepLock(w.s, step) != Some(c)
    ensures Inv(v.s) && CallsSound(v)
  {
    StepKeepsInv(w.s, step);
    forall i | 0 <= i < |v.calls| ensures CallSound(v.s, v.calls[i]) {
      if v.calls[i] == w.calls[i] {
        var call := w.calls[i];
        if call.phase.Writing? && call.phase.lock.Some? {
          assert Holds(w, i, call.phase.lock.value);
        }
        CallStaysSound(w.s, step, call);
      }
    }
  }

  lemma CommitIsItsStep(w: World, e: Event)
    requires Inv(w.s) && CallsSound(w) && Commits(w, e)
    ensures var step := Do(w.calls[e.i].key.actor, w.calls[e.i].command);
      CampaignRows.Enabled(w.s, step) && Next(w, e).s == CampaignRows.Next(w.s, step) &&
      StepLock(w.s, step) == w.calls[e.i].phase.lock
  {
    var call := w.calls[e.i];
    assert CallSound(w.s, call);
    RowsAreTheEffect(w.s, call.key.actor, call.command);
  }

  lemma CommitKeepsCallsSound(w: World, e: Event)
    requires Sound(w) && Inv(w.s) && CallsSound(w) && Commits(w, e)
    ensures Inv(Next(w, e).s) && CallsSound(Next(w, e))
  {
    var step := Do(w.calls[e.i].key.actor, w.calls[e.i].command);
    CommitIsItsStep(w, e);
    CommitMovesOne(w, e);
    assert CallSound(w.s, w.calls[e.i]);
    forall i: nat, c | Holds(w, i, c) && Next(w, e).calls[i] == w.calls[i] ensures StepLock(w.s, step) != Some(c) {
      assert StepLock(w.s, step) == Some(c) ==> Holds(w, e.i, c);
    }
    StepKeepsCallsSound(w, Next(w, e), step);
  }

  lemma DecisionStands(s: State, call: Call)
    requires Inv(s) && CallSound(s, call) && call.phase.Cleared? && Decision(s, call).Done?
    ensures Stands(s, call.key.actor, call.command, call.phase.lock)
  {
    if ByToken(call.command) {
      assert HashInUse(s.invitations, call.command.hash);
    }
  }

  lemma LocatedIsSound(w: World, e: Event)
    requires CallsSound(w) && Enabled(w, e) && (e.Locate? || e.TakeLock? || e.ReCheck?)
    ensures CallSound(w.s, Next(w, e).calls[e.i])
  {
    assert CallSound(w.s, w.calls[e.i]);
  }

  lemma WriteIsSound(w: World, e: Event)
    requires CallsSound(w) && Enabled(w, e) && e.Write?
    ensures CallSound(w.s, Next(w, e).calls[e.i])
  {
    assert CallSound(w.s, w.calls[e.i]);
  }

  lemma DecideIsSound(w: World, e: Event)
    requires Inv(w.s) && CallsSound(w) && Enabled(w, e) && e.Decide?
    ensures CallSound(w.s, Next(w, e).calls[e.i])
  {
    assert CallSound(w.s, w.calls[e.i]);
    if Decision(w.s, w.calls[e.i]).Done? {
      DecisionStands(w.s, w.calls[e.i]);
    }
  }

  lemma OtherMoveIsSound(w: World, e: Event)
    requires CallsSound(w) && Enabled(w, e) && (e.PreCheck? || e.Abort? || (e.Commit? && !Commits(w, e)))
    ensures CallSound(w.s, Next(w, e).calls[e.i])
  {
    assert CallSound(w.s, w.calls[e.i]);
  }

  lemma OnlyOneMoves(w: World, e: Event)
    requires Enabled(w, e) && !e.Begin? && !e.Outside? && !Commits(w, e)
    ensures Next(w, e).s == w.s && e.i < |w.calls| && Next(w, e).calls == w.calls[e.i := Next(w, e).calls[e.i]]
  {
  }

  /** What a call does by itself. */
  lemma MoveKeepsCallsSound(w: World, e: Event)
    requires Inv(w.s) && CallsSound(w) && Enabled(w, e) && !e.Begin? && !e.Outside? && !Commits(w, e)
    ensures Next(w, e).s == w.s && CallsSound(Next(w, e))
  {
    OnlyOneMoves(w, e);
    match e
    case Decide(_) => DecideIsSound(w, e);
    case Write(_, _) => WriteIsSound(w, e);
    case Locate(_) => LocatedIsSound(w, e);
    case TakeLock(_) => LocatedIsSound(w, e);
    case ReCheck(_, _) => LocatedIsSound(w, e);
    case _ => OtherMoveIsSound(w, e);
  }

  lemma EventKeepsCallsSound(w: World, e: Event)
    requires Sound(w) && Inv(w.s) && CallsSound(w) && Enabled(w, e)
    ensures Inv(Next(w, e).s) && CallsSound(Next(w, e))
  {
    if e.Begin? {
      forall i | 0 <= i < |Next(w, e).calls| ensures CallSound(w.s, Next(w, e).calls[i]) {
        if i < |w.calls| {
          assert CallSound(w.s, w.calls[i]);
        }
      }
    } else if e.Outside? {
      StepKeepsCallsSound(w, Next(w, e), e.step);
    } else if Commits(w, e) {
      CommitKeepsCallsSound(w, e);
    } else {
      MoveKeepsCallsSound(w, e);
    }
  }

  lemma {:induction false} RunKeepsCallsSound(w: World, events: seq<Event>)
    requires Sound(w) && Inv(w.s) && CallsSound(w) && IsRun(w, events)
    ensures Inv(Final(w, events).s) && CallsSound(Final(w, events))
    decreases |events|
  {
    if |events| > 0 {
      EventKeepsSound(w, events[0]);
      EventKeepsCallsSound(w, events[0]);
      RunKeepsCallsSound(Next(w, events[0]), events[1..]);
    }
  }

  /**
   * What was granted under the lock is still granted, and what was written is still what would be written,
   * whatever has committed in between: no later statement of the call and no commit finds its rows changed.
   */
  lemma GrantedStaysGranted(s: State, events: seq<Event>, i: nat)
    requires Inv(s) && IsRun(Fresh(s), events)
    requires i < |Final(Fresh(s), events).calls| && Final(Fresh(s), events).calls[i].phase.Writing?
    ensures var w := Final(Fresh(s), events); var call := w.calls[i];
      && Guarded(call.command) && Verdict(w.s, call.key.actor, call.command).Done?
      && RightRows(w.s, call.key.actor, call.command, call.phase.rows)
  {
    RunKeepsCallsSound(Fresh(s), events);
    assert CallSound(Final(Fresh(s), events).s, Final(Fresh(s), events).calls[i]);
  }

  // ---------- every interleaving is a serial run ----------

  ghost predicate Idles(w: World, v: World) { v.trace == w.trace && v.s == w.s }

  ghost predicate Performs(w: World, v: World, entry: Entry) {
    v.trace == w.trace + [entry] && CampaignRows.Enabled(w.s, entry.step) && v.s == CampaignRows.Next(w.s, entry.step)
  }

  /** An event either leaves the store alone or makes exactly the step it records. */
  lemma EventMakesItsStep(w: World, e: Event)
    requires Inv(w.s) && CallsSound(w) && Enabled(w, e)
    ensures
      Idles(w, Next(w, e)) ||
      (|Next(w, e).trace| > |w.trace| && Performs(w, Next(w, e), Next(w, e).trace[|w.trace|]))
  {
    if Commits(w, e) {
      CommitIsItsStep(w, e);
      CommitMovesOne(w, e);
    }
  }

  lemma StepsAppend(trace: seq<Entry>, entry: Entry)
    ensures StepsOf(trace + [entry]) == StepsOf(trace) + [entry.step]
  {
  }

  lemma EventKeepsSerial(s: State, w: World, e: Event)
    requires Serial(s, w) && Inv(w.s) && CallsSound(w) && Enabled(w, e)
    ensures Serial(s, Next(w, e))
  {
    var v := Next(w, e);
    EventMakesItsStep(w, e);
    if !Idles(w, v) {
      var entry := v.trace[|w.trace|];
      StepsAppend(w.trace, entry);
      RunAppends(s, StepsOf(w.trace), entry.step);
    }
  }

  lemma {:induction false} RunKeepsSerial(s: State, w: World, events: seq<Event>)
    requires Serial(s, w) && Sound(w) && Inv(w.s) && CallsSound(w) && IsRun(w, events)
    ensures Serial(s, Final(w, events))
    decreases |events|
  {
    if |events| > 0 {
      EventKeepsSerial(s, w, events[0]);
      EventKeepsSound(w, events[0]);
      EventKeepsCallsSound(w, events[0]);
      RunKeepsSerial(s, Next(w, events[0]), events[1..]);
    }
  }

  /**
   * The store after any interleaving is the store after running the committed commands whole, one by one, in
   * the order of their commits; so the invariant holds, and a campaign's revision has grown by the committed
   * commands that write its row.
   */
  lemma InterleavingsAreSerial(s: State, events: seq<Event>, c: CampaignId)
    requires Inv(s) && IsRun(Fresh(s), events) && c in s.campaigns
    ensures var w := Final(Fresh(s), events); var steps := StepsOf(w.trace);
      && CampaignRows.IsRun(s, steps) && w.s == CampaignRows.Final(s, steps) && Inv(w.s)
      && c in w.s.campaigns && w.s.campaigns[c].revision == s.campaigns[c].revision + CampaignWrites(s, steps, c)
  {
    RunKeepsSerial(s, Fresh(s), events);
    var steps := StepsOf(Final(Fresh(s), events).trace);
    CampaignInvariants.RunKeepsInv(s, steps);
    CampaignRevisionCounts(s, steps, c);
  }
}
