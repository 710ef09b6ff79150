/** Saved rolls and their pushes (src/characters/push.ts). */
module PushLineage {
  import opened Wrappers
  import opened Policy

  type RollId = string

  /** The placement of the sheet a roll was made on. */
  datatype Scope = Scope(ownerId: Option<UserId>, campaignId: Option<string>, generation: nat)

  /** `rest` stands for the checksum, expression, template and entry of the saved context. */
  datatype Context = Context(versionId: string, entityId: string, maxAttempts: nat, rest: string, scope: Option<Scope>)

  datatype Row =
    | Plain(characterId: string)
    | Pushed(characterId: string, parent: Option<RollId>, root: RollId, attempt: nat, declaredMax: nat,
             context: Context, principal: UserId, audience: RollAudience, scopeCampaign: Option<string>)

  type Table = map<RollId, Row>

  datatype Sheet = Sheet(characterId: string, scope: Scope, revision: nat, versionId: string, entityId: string)

  /** The roll metadata a command asks to save. */
  datatype Meta = Meta(rollId: RollId, parent: Option<RollId>, root: RollId, attempt: nat, maxAttempts: nat)

  datatype Input = Input(
    executionId: RollId, actor: UserId, resolvedRevision: nat, context: Option<Context>, meta: Meta)

  datatype Failure = Conflict | InvalidValue | MissingRoll | ParentConsumed | Corrupt

  datatype Commit = Save(context: Context, principal: UserId, audience: RollAudience) | Fail(failure: Failure)

  predicate SamePushScope(context: Context, sheet: Sheet) { context.scope == Some(sheet.scope) }

  predicate MayReadPush(roll: Row, actor: UserId, sheet: Sheet, m: Option<Member>)
    requires roll.Pushed?
  {
    SamePushScope(roll.context, sheet) && roll.scopeCampaign == sheet.scope.campaignId &&
    if sheet.scope.campaignId.None? then sheet.scope.ownerId == Some(actor)
    else CanReadRoll(roll.audience, roll.principal, actor, m)
  }

  function Narrower(a: RollAudience, b: RollAudience): RollAudience { if Rank(a) <= Rank(b) then a else b }

  /** A stored row whose own copies disagree is refused as corrupt. */
  predicate Readable(roll: Row)
    requires roll.Pushed?
  {
    roll.context.scope.Some? && roll.declaredMax == roll.context.maxAttempts
  }

  ghost predicate HasChild(rolls: Table, id: RollId) {
    exists child :: child in rolls && rolls[child].Pushed? && rolls[child].parent == Some(id)
  }

  ghost function Prepare(rolls: Table, input: Input, sheet: Sheet, defaultAudience: RollAudience,
      m: Option<Member>): Commit {
    var meta := input.meta;
    if input.resolvedRevision != sheet.revision then Fail(Conflict)
    else if input.context.None? || meta.rollId != input.executionId
      || input.context.value.versionId != sheet.versionId || input.context.value.entityId != sheet.entityId
    then Fail(InvalidValue)
    else if meta.parent.None? then
      if meta.attempt != 0 || meta.root != meta.rollId then Fail(InvalidValue)
      else Save(input.context.value.(scope := Some(sheet.scope)), input.actor, defaultAudience)
    else
      PreparePush(rolls, input, sheet, defaultAudience, m)
  }

  ghost function PreparePush(rolls: Table, input: Input, sheet: Sheet, defaultAudience: RollAudience,
      m: Option<Member>): Commit
    requires input.meta.parent.Some? && input.context.Some?
  {
    var meta, context, p := input.meta, input.context.value, input.meta.parent.value;
    if p !in rolls || rolls[p].Plain? || rolls[p].characterId != sheet.characterId then Fail(MissingRoll)
    else if !Readable(rolls[p]) then Fail(Corrupt)
    else if !MayReadPush(rolls[p], input.actor, sheet, m) then Fail(MissingRoll)
    else if rolls[p].context != context || meta.root != rolls[p].root
      || meta.attempt != rolls[p].attempt + 1 || meta.attempt > context.maxAttempts then Fail(InvalidValue)
    else if HasChild(rolls, p) then Fail(ParentConsumed)
    else
      var audience := Narrower(rolls[p].audience, defaultAudience);
      if sheet.scope.campaignId.Some? && !CanReadRoll(audience, rolls[p].principal, input.actor, m)
      then Fail(MissingRoll)
      else Save(context, rolls[p].principal, audience)
  }

  function NewRow(input: Input, sheet: Sheet, commit: Commit): Row
    requires commit.Save?
  {
    Pushed(sheet.characterId, input.meta.parent, input.meta.root, input.meta.attempt, input.meta.maxAttempts,
      commit.context, commit.principal, commit.audience, sheet.scope.campaignId)
  }

  /**
   * One attempt to save: refused, or stopped by the primary key, or one new row. Rolls that cannot be pushed share the
   * table.
   */
  datatype Attempt =
    | Attempt(input: Input, sheet: Sheet, defaultAudience: RollAudience, membership: Option<Member>)
    | PlainRoll(id: RollId, characterId: string)

  ghost function AfterAttempt(rolls: Table, a: Attempt): Table {
    if a.PlainRoll? then (if a.id in rolls then rolls else rolls[a.id := Plain(a.characterId)]) else
    var commit := Prepare(rolls, a.input, a.sheet, a.defaultAudience, a.membership);
    if commit.Save? && a.input.meta.rollId !in rolls then rolls[a.input.meta.rollId := NewRow(a.input, a.sheet, commit)]
    else rolls
  }

  /** The table, with the commit run inside the character's row lock. */
  class RollTable {
    var rolls: Table

    constructor ()
      ensures rolls == map[]
    {
      rolls := map[];
    }

    method FindChild(parent: RollId) returns (found: bool)
      ensures found <==> HasChild(rolls, parent)
    {
      var left := rolls.Keys;
      while left != {}
        invariant left <= rolls.Keys
        invariant forall id :: id in rolls && id !in left ==> rolls[id].Plain? || rolls[id].parent != Some(parent)
        decreases left
      {
        var id :| id in left;
        if rolls[id].Pushed? && rolls[id].parent == Some(parent) { return true; }
        left := left - {id};
      }
      found := false;
    }

    method PrepareCommit(input: Input, sheet: Sheet, defaultAudience: RollAudience, m: Option<Member>)
        returns (commit: Commit)
      ensures commit == Prepare(rolls, input, sheet, defaultAudience, m)
    {
      var meta := input.meta;
      if input.resolvedRevision != sheet.revision { return Fail(Conflict); }
      if input.context.None? || meta.rollId != input.executionId { return Fail(InvalidValue); }
      var context := input.context.value;
      if context.versionId != sheet.versionId || context.entityId != sheet.entityId { return Fail(InvalidValue); }
      if meta.parent.None? {
        if meta.attempt != 0 || meta.root != meta.rollId { return Fail(InvalidValue); }
        return Save(context.(scope := Some(sheet.scope)), input.actor, defaultAudience);
      }
      var p := meta.parent.value;
      if p !in rolls || rolls[p].Plain? || rolls[p].characterId != sheet.characterId { return Fail(MissingRoll); }
      var parent := rolls[p];
      if !Readable(parent) { return Fail(Corrupt); }
      if !MayReadPush(parent, input.actor, sheet, m) { return Fail(MissingRoll); }
      if || parent.context != context || meta.root != parent.root
         || meta.attempt != parent.attempt + 1 || meta.attempt > context.maxAttempts
      {
        return Fail(InvalidValue);
      }
      var consumed := FindChild(p);
      if consumed { return Fail(ParentConsumed); }
      var audience := Narrower(parent.audience, defaultAudience);
      if sheet.scope.campaignId.Some? && !CanReadRoll(audience, parent.principal, input.actor, m) {
        return Fail(MissingRoll);
      }
      commit := Save(context, parent.principal, audience);
    }

    method SaveRoll(a: Attempt) returns (saved: bool)
      requires a.Attempt?
      modifies this
      ensures rolls == AfterAttempt(old(rolls), a)
      ensures !saved ==> rolls == old(rolls)
    {
      var commit := PrepareCommit(a.input, a.sheet, a.defaultAudience, a.membership);
      saved := commit.Save? && a.input.meta.rollId !in rolls;
      if saved {
        rolls := rolls[a.input.meta.rollId := NewRow(a.input, a.sheet, commit)];
      }
    }
  }

  // ---------- the lineage invariant ----------

  /** Child continues parent: same sheet, root, context, scope and principal, next attempt, audience no wider. */
  predicate Continues(child: Row, parent: Row) {
    && child.Pushed? && parent.Pushed?
    && child.characterId == parent.characterId && child.root == parent.root
    && child.context == parent.context && child.principal == parent.principal &&
      child.scopeCampaign == parent.scopeCampaign
    && child.attempt == parent.attempt + 1
    && Rank(child.audience) <= Rank(parent.audience)
  }

  ghost predicate Placed(rolls: Table, id: RollId)
    requires id in rolls && rolls[id].Pushed?
  {
    var roll := rolls[id];
    match roll.parent
    case None => roll.attempt == 0 && roll.root == id
    case Some(p) => p in rolls && Continues(roll, rolls[p]) && roll.attempt <= roll.context.maxAttempts
  }

  ghost predicate Siblings(rolls: Table, a: RollId, b: RollId) {
    a in rolls && b in rolls && rolls[a].Pushed? && rolls[b].Pushed? && rolls[a].parent.Some? &&
      rolls[a].parent == rolls[b].parent
  }

  ghost predicate Lineage(rolls: Table) {
    && (forall id :: id in rolls && rolls[id].Pushed? ==> Placed(rolls, id))
    && (forall a, b :: Siblings(rolls, a, b) ==> a == b)
  }

  /** A new row that starts a chain or continues a childless roll. */
  lemma AddingRowKeepsLineage(rolls: Table, id: RollId, row: Row)
    requires Lineage(rolls) && id !in rolls
    requires row.Pushed? ==> Placed(rolls[id := row], id)
    requires row.Pushed? && row.parent.Some? ==> row.parent.value in rolls && !HasChild(rolls, row.parent.value)
    ensures Lineage(rolls[id := row])
  {
    var after := rolls[id := row];
    forall x | x in after && after[x].Pushed? ensures Placed(after, x) {
      if x != id {
        assert Placed(rolls, x);
      }
    }
    forall x, y | Siblings(after, x, y) ensures x == y {
      if x != id && y != id {
        assert Siblings(rolls, x, y);
      }
    }
  }

  lemma AttemptKeepsLineage(rolls: Table, a: Attempt)
    requires Lineage(rolls)
    ensures Lineage(AfterAttempt(rolls, a))
  {
    if a.PlainRoll? {
      if a.id !in rolls {
        AddingRowKeepsLineage(rolls, a.id, Plain(a.characterId));
      }
    } else {
      var commit := Prepare(rolls, a.input, a.sheet, a.defaultAudience, a.membership);
      if commit.Save? && a.input.meta.rollId !in rolls {
        AddingRowKeepsLineage(rolls, a.input.meta.rollId, NewRow(a.input, a.sheet, commit));
      }
    }
  }

  ghost function AfterAll(rolls: Table, attempts: seq<Attempt>): Table
    decreases |attempts|
  {
    if |attempts| == 0 then rolls else AfterAll(AfterAttempt(rolls, attempts[0]), attempts[1..])
  }

  lemma {:induction false} RunKeepsLineage(rolls: Table, attempts: seq<Attempt>)
    requires Lineage(rolls)
    ensures Lineage(AfterAll(rolls, attempts))
    decreases |attempts|
  {
    if |attempts| > 0 {
      AttemptKeepsLineage(rolls, attempts[0]);
      RunKeepsLineage(AfterAttempt(rolls, attempts[0]), attempts[1..]);
    }
  }

  // ---------- chains ----------

  /** From the root down to the roll. */
  ghost function PathTo(rolls: Table, id: RollId): seq<RollId>
    requires Lineage(rolls) && id in rolls && rolls[id].Pushed?
    decreases rolls[id].attempt
  {
    assert Placed(rolls, id);
    if rolls[id].parent.None? then [id] else PathTo(rolls, rolls[id].parent.value) + [id]
  }

  /**
   * Every roll on the way carries attempt number, root, context and principal of its place, and an audience at least as
   * wide as the end's.
   */
  lemma {:induction false} PathIsChain(rolls: Table, id: RollId)
    requires Lineage(rolls) && id in rolls && rolls[id].Pushed?
    ensures var path := PathTo(rolls, id);
      |path| == rolls[id].attempt + 1 && path[0] == rolls[id].root && path[|path| - 1] == id &&
      |path| - 1 <= rolls[id].context.maxAttempts
    ensures forall j :: 0 <= j < |PathTo(rolls, id)| ==> OnPath(rolls, id, j)
    decreases rolls[id].attempt
  {
    assert Placed(rolls, id);
    if rolls[id].parent.Some? {
      var p := rolls[id].parent.value;
      PathIsChain(rolls, p);
      forall j | 0 <= j < |PathTo(rolls, id)| ensures OnPath(rolls, id, j) {
        if j < |PathTo(rolls, p)| {
          assert OnPath(rolls, p, j);
        }
      }
    }
  }

  ghost predicate OnPath(rolls: Table, id: RollId, j: nat)
    requires Lineage(rolls) && id in rolls && rolls[id].Pushed?
    requires j < |PathTo(rolls, id)|
  {
    var path := PathTo(rolls, id);
    path[j] in rolls && rolls[path[j]].Pushed? &&
    var roll := rolls[path[j]];
    && roll.attempt == j && roll.root == rolls[id].root && roll.context == rolls[id].context
    && roll.principal == rolls[id].principal && roll.scopeCampaign == rolls[id].scopeCampaign
    && Rank(rolls[id].audience) <= Rank(roll.audience)
    && roll.parent == if j == 0 then None else Some(path[j - 1])
  }

  /** Two rolls under one root lie on one line: the earlier one's path is a prefix of the later one's. */
  lemma {:induction false} RollsUnderOneRootFormALine(rolls: Table, a: RollId, b: RollId)
    requires Lineage(rolls) && a in rolls && b in rolls && rolls[a].Pushed? && rolls[b].Pushed?
    requires rolls[a].root == rolls[b].root && rolls[a].attempt <= rolls[b].attempt
    ensures PathTo(rolls, a) <= PathTo(rolls, b)
    decreases rolls[b].attempt
  {
    assert Placed(rolls, a) && Placed(rolls, b);
    if rolls[a].attempt < rolls[b].attempt {
      RollsUnderOneRootFormALine(rolls, a, rolls[b].parent.value);
    } else {
      AttemptsAreUnique(rolls, a, b);
    }
  }

  /** So an attempt number identifies the roll, and the two unique indexes of the table can never fire. */
  lemma {:induction false} AttemptsAreUnique(rolls: Table, a: RollId, b: RollId)
    requires Lineage(rolls) && a in rolls && b in rolls && rolls[a].Pushed? && rolls[b].Pushed?
    requires rolls[a].root == rolls[b].root && rolls[a].attempt == rolls[b].attempt
    ensures a == b
    decreases rolls[a].attempt
  {
    assert Placed(rolls, a) && Placed(rolls, b);
    if rolls[a].attempt > 0 {
      AttemptsAreUnique(rolls, rolls[a].parent.value, rolls[b].parent.value);
      assert Siblings(rolls, a, b);
    }
  }

  /** Visibility only narrows: who may read a roll may read every roll it was pushed from. */
  lemma ReadersOfAChildReadItsAncestors(rolls: Table, id: RollId, j: nat, reader: UserId, sheet: Sheet,
      m: Option<Member>)
    requires Lineage(rolls) && id in rolls && rolls[id].Pushed? && MayReadPush(rolls[id], reader, sheet, m)
    requires j <= rolls[id].attempt
    ensures |PathTo(rolls, id)| == rolls[id].attempt + 1
    ensures var ancestor := PathTo(rolls, id)[j];
      ancestor in rolls && rolls[ancestor].Pushed? && MayReadPush(rolls[ancestor], reader, sheet, m)
  {
    PathIsChain(rolls, id);
    assert OnPath(rolls, id, j);
  }

  /** All of it, for every store reachable from the empty one. */
  lemma ReachableRollsFormChains(attempts: seq<Attempt>)
    ensures var rolls := AfterAll(map[], attempts);
      Lineage(rolls) &&
      forall a, b :: Ordered(rolls, a, b) ==> PathTo(rolls, a) <= PathTo(rolls, b)
  {
    RunKeepsLineage(map[], attempts);
    var rolls := AfterAll(map[], attempts);
    forall a, b | Ordered(rolls, a, b) ensures PathTo(rolls, a) <= PathTo(rolls, b) {
      RollsUnderOneRootFormALine(rolls, a, b);
    }
  }

  ghost predicate Ordered(rolls: Table, a: RollId, b: RollId) {
    a in rolls && b in rolls && rolls[a].Pushed? && rolls[b].Pushed? &&
    rolls[a].root == rolls[b].root && rolls[a].attempt <= rolls[b].attempt
  }

  /**
   * A saved push is readable by the one who pushed, and its stored row is never one the reader would call corrupt
   * unless its declared limit is wrong.
   */
  lemma PusherMayReadTheChild(rolls: Table, a: Attempt)
    requires a.Attempt? && a.input.meta.parent.Some? && a.input.meta.rollId !in rolls
    requires Prepare(rolls, a.input, a.sheet, a.defaultAudience, a.membership).Save?
    ensures var child := AfterAttempt(rolls, a)[a.input.meta.rollId];
      MayReadPush(child, a.input.actor, a.sheet, a.membership) &&
      (Readable(child) <==> a.input.meta.maxAttempts == child.context.maxAttempts)
  {
  }

  // ---------- what is saved, and who may read it ----------

  predicate MayRead(roll: Row, reader: UserId, m: Option<Member>)
    requires roll.Pushed?
  {
    CanReadRoll(roll.audience, roll.principal, reader, m)
  }

  /** The roll is open to the readers of a roll of audience `default`, and beyond that to nobody. */
  ghost predicate OpenByDefault(roll: Row, default: RollAudience)
    requires roll.Pushed?
  {
    forall reader, m :: MayRead(roll, reader, m) <==> CanReadRoll(default, roll.principal, reader, m)
  }

  /** The child is open to exactly those to whom the parent is and a roll of audience `default` is as well. */
  ghost predicate OpenToBoth(child: Row, parent: Row, default: RollAudience)
    requires child.Pushed? && parent.Pushed?
  {
    && child.principal == parent.principal
    && forall reader, m ::
         MayRead(child, reader, m) <==>
         MayRead(parent, reader, m) && CanReadRoll(default, child.principal, reader, m)
  }

  ghost predicate Saves(rolls: Table, a: Attempt) {
    a.Attempt? && a.input.meta.rollId !in rolls && a.input.meta.rollId in AfterAttempt(rolls, a)
  }

  /** A push is open to those who may read both its parent and whatever the campaign's default is at that moment. */
  lemma PushedRollIsOpenToBoth(rolls: Table, a: Attempt)
    requires Saves(rolls, a)
    ensures var child := AfterAttempt(rolls, a)[a.input.meta.rollId];
      child.Pushed? &&
      match child.parent
      case None => child.principal == a.input.actor && OpenByDefault(child, a.defaultAudience)
      case Some(p) => p in rolls && rolls[p].Pushed? && OpenToBoth(child, rolls[p], a.defaultAudience)
  {
  }

  /** The attempt is about the sheet as it is. */
  predicate Current(input: Input, sheet: Sheet) {
    && input.resolvedRevision == sheet.revision && input.meta.rollId == input.executionId && input.context.Some?
    && input.context.value.versionId == sheet.versionId && input.context.value.entityId == sheet.entityId
  }

  predicate FirstRoll(input: Input) {
    input.meta.parent.None? && input.meta.attempt == 0 && input.meta.root == input.meta.rollId
  }

  /** The roll to be pushed is stored for this sheet. */
  predicate HasParent(rolls: Table, input: Input, sheet: Sheet) {
    input.meta.parent.Some? && input.meta.parent.value in rolls && rolls[input.meta.parent.value].Pushed? &&
    rolls[input.meta.parent.value].characterId == sheet.characterId
  }

  predicate Sane(parent: Row)
    requires parent.Pushed?
  {
    parent.context.scope.Some? && parent.declaredMax == parent.context.maxAttempts
  }

  /** The sheet is placed as it was, and the actor owns it or may read the roll as a member. */
  predicate OpenTo(parent: Row, actor: UserId, sheet: Sheet, m: Option<Member>)
    requires parent.Pushed?
  {
    && parent.context.scope == Some(sheet.scope) && parent.scopeCampaign == sheet.scope.campaignId
    && (sheet.scope.campaignId.None? ==> sheet.scope.ownerId == Some(actor))
    && (sheet.scope.campaignId.Some? ==> MayRead(parent, actor, m))
  }

  predicate NextOf(parent: Row, input: Input)
    requires parent.Pushed?
  {
    && Some(parent.context) == input.context && input.meta.root == parent.root
    && input.meta.attempt == parent.attempt + 1 <= parent.context.maxAttempts
  }

  ghost predicate Unpushed(rolls: Table, id: RollId) {
    forall child :: child in rolls && rolls[child].Pushed? ==> rolls[child].parent != Some(id)
  }

  /** A member must also be able to read a roll of the default in force. */
  predicate OpenNow(parent: Row, actor: UserId, sheet: Sheet, default: RollAudience, m: Option<Member>)
    requires parent.Pushed?
  {
    sheet.scope.campaignId.Some? ==> CanReadRoll(default, parent.principal, actor, m)
  }

  /** The guards in no order: each is needed and together they are enough. */
  lemma SavedIff(rolls: Table, a: Attempt)
    requires a.Attempt? && a.input.meta.rollId !in rolls
    ensures var (input, sheet, m) := (a.input, a.sheet, a.membership);
      Saves(rolls, a) <==>
        Current(input, sheet) &&
        (FirstRoll(input) ||
         (HasParent(rolls, input, sheet) &&
          var parent := rolls[input.meta.parent.value];
          Sane(parent) && OpenTo(parent, input.actor, sheet, m) && NextOf(parent, input) &&
          Unpushed(rolls, input.meta.parent.value) && OpenNow(parent, input.actor, sheet, a.defaultAudience, m)))
  {
  }

  /** A stale sheet, a roll pushed before, and a roll that is not there or not open to the actor are told apart. */
  lemma RefusalsSayWhy(rolls: Table, input: Input, sheet: Sheet, default: RollAudience, m: Option<Member>)
    ensures var refusal := Prepare(rolls, input, sheet, default, m);
      && (refusal == Fail(Conflict) <==> input.resolvedRevision != sheet.revision)
      && (refusal == Fail(ParentConsumed) <==>
           Current(input, sheet) && HasParent(rolls, input, sheet) &&
           var parent := rolls[input.meta.parent.value];
           Sane(parent) && OpenTo(parent, input.actor, sheet, m) && NextOf(parent, input) &&
           !Unpushed(rolls, input.meta.parent.value))
      && (refusal == Fail(MissingRoll) <==>
           Current(input, sheet) && input.meta.parent.Some? &&
           (HasParent(rolls, input, sheet) ==>
              var parent := rolls[input.meta.parent.value];
              Sane(parent) &&
              (!OpenTo(parent, input.actor, sheet, m) ||
               (NextOf(parent, input) && Unpushed(rolls, input.meta.parent.value) &&
                !OpenNow(parent, input.actor, sheet, default, m)))))
  {
  }

  /** A roll the actor may not read is refused as one that is not there. */
  lemma HiddenRollsLookMissing(rolls: Table, input: Input, sheet: Sheet, default: RollAudience, m: Option<Member>)
    requires HasParent(rolls, input, sheet)
    requires Sane(rolls[input.meta.parent.value]) && !OpenTo(rolls[input.meta.parent.value], input.actor, sheet, m)
    ensures Prepare(rolls, input, sheet, default, m) ==
      Prepare(rolls - {input.meta.parent.value}, input, sheet, default, m)
  {
  }

  predicate Pushes(b: Attempt, a: Attempt, id: RollId, roll: Row)
    requires roll.Pushed?
  {
    && b.Attempt? && a.Attempt? && b.input.actor == a.input.actor && b.sheet == a.sheet
    && b.defaultAudience == a.defaultAudience && b.membership == a.membership
    && b.input.resolvedRevision == b.sheet.revision && b.input.executionId == b.input.meta.rollId
    && b.input.context == Some(roll.context) && b.input.meta.parent == Some(id)
    && b.input.meta.root == roll.root && b.input.meta.attempt == roll.attempt + 1
  }

  /** Who has just saved a roll with attempts left can push it, if still a member or, outside a campaign, the owner. */
  lemma SavedRollCanBePushed(rolls: Table, a: Attempt, b: Attempt)
    requires Lineage(rolls) && Saves(rolls, a)
    requires var id := a.input.meta.rollId; var roll := AfterAttempt(rolls, a)[id];
      && roll.Pushed? && roll.declaredMax == roll.context.maxAttempts && roll.attempt < roll.context.maxAttempts
      && Pushes(b, a, id, roll) && b.input.meta.rollId !in AfterAttempt(rolls, a)
    requires if a.sheet.scope.campaignId.Some? then IsActive(a.membership)
             else a.sheet.scope.ownerId == Some(a.input.actor)
    ensures Saves(AfterAttempt(rolls, a), b)
  {
    var id, after := a.input.meta.rollId, AfterAttempt(rolls, a);
    forall child | child in after && after[child].Pushed? ensures after[child].parent != Some(id) {
      if child in rolls {
        assert Placed(rolls, child);
      }
    }
    SavedIff(rolls, a);
    SavedIff(after, b);
  }

  /** Under which default each roll was saved. */
  ghost function Defaults(rolls: Table, attempts: seq<Attempt>, known: map<RollId, RollAudience>):
      map<RollId, RollAudience>
    decreases |attempts|
  {
    if |attempts| == 0 then known else
    var a := attempts[0];
    Defaults(AfterAttempt(rolls, a), attempts[1..],
      if Saves(rolls, a) then known[a.input.meta.rollId := a.defaultAudience] else known)
  }

  ghost predicate OpenAsSaved(rolls: Table, known: map<RollId, RollAudience>, id: RollId)
    requires id in rolls && rolls[id].Pushed?
  {
    id in known &&
    match rolls[id].parent
    case None => OpenByDefault(rolls[id], known[id])
    case Some(p) => p in rolls && rolls[p].Pushed? && OpenToBoth(rolls[id], rolls[p], known[id])
  }

  ghost predicate AllOpenAsSaved(rolls: Table, known: map<RollId, RollAudience>) {
    forall id :: id in rolls && rolls[id].Pushed? ==> OpenAsSaved(rolls, known, id)
  }

  lemma AttemptKeepsOpenings(rolls: Table, a: Attempt, known: map<RollId, RollAudience>)
    requires AllOpenAsSaved(rolls, known)
    ensures AllOpenAsSaved(AfterAttempt(rolls, a),
      if Saves(rolls, a) then known[a.input.meta.rollId := a.defaultAudience] else known)
  {
    var after := AfterAttempt(rolls, a);
    var later := if Saves(rolls, a) then known[a.input.meta.rollId := a.defaultAudience] else known;
    forall id | id in after && after[id].Pushed? ensures OpenAsSaved(after, later, id) {
      if id in rolls {
        assert OpenAsSaved(rolls, known, id);
      } else {
        PushedRollIsOpenToBoth(rolls, a);
      }
    }
  }

  lemma {:induction false} RunKeepsOpenings(rolls: Table, attempts: seq<Attempt>, known: map<RollId, RollAudience>)
    requires AllOpenAsSaved(rolls, known)
    ensures AllOpenAsSaved(AfterAll(rolls, attempts), Defaults(rolls, attempts, known))
    decreases |attempts|
  {
    if |attempts| > 0 {
      var a := attempts[0];
      AttemptKeepsOpenings(rolls, a, known);
      RunKeepsOpenings(AfterAttempt(rolls, a), attempts[1..],
        if Saves(rolls, a) then known[a.input.meta.rollId := a.defaultAudience] else known);
    }
  }

  /** The reader may read a roll of each default under which a roll on the way from the root was saved. */
  ghost predicate MayReadUnderAll(known: map<RollId, RollAudience>, path: seq<RollId>,
      principal: UserId, reader: UserId, m: Option<Member>) {
    forall j {:trigger path[j]} :: 0 <= j < |path| ==>
      path[j] in known && CanReadRoll(known[path[j]], principal, reader, m)
  }

  lemma {:induction false} PathDecides(rolls: Table, known: map<RollId, RollAudience>, id: RollId, reader: UserId,
      m: Option<Member>)
    requires Lineage(rolls) && AllOpenAsSaved(rolls, known) && id in rolls && rolls[id].Pushed?
    ensures MayRead(rolls[id], reader, m) <==>
      MayReadUnderAll(known, PathTo(rolls, id), rolls[id].principal, reader, m)
    decreases rolls[id].attempt
  {
    assert Placed(rolls, id) && OpenAsSaved(rolls, known, id);
    var path := PathTo(rolls, id);
    assert path[|path| - 1] == id;
    if rolls[id].parent.Some? {
      var p := rolls[id].parent.value;
      PathDecides(rolls, known, p, reader, m);
      var shorter := PathTo(rolls, p);
      assert forall j :: 0 <= j < |shorter| ==> path[j] == shorter[j];
    }
  }

  /**
   * Over every run of attempts: a roll may be read by exactly those who may read a roll of its principal under every
   * default that was in force when a roll of its chain was saved.
   */
  lemma ReadersOfAChain(attempts: seq<Attempt>, id: RollId, reader: UserId, m: Option<Member>)
    requires id in AfterAll(map[], attempts) && AfterAll(map[], attempts)[id].Pushed?
    ensures var rolls := AfterAll(map[], attempts);
      Lineage(rolls) &&
      (MayRead(rolls[id], reader, m) <==>
       MayReadUnderAll(Defaults(map[], attempts, map[]), PathTo(rolls, id), rolls[id].principal, reader, m))
  {
    RunKeepsLineage(map[], attempts);
    RunKeepsOpenings(map[], attempts, map[]);
    PathDecides(AfterAll(map[], attempts), Defaults(map[], attempts, map[]), id, reader, m);
  }
}
