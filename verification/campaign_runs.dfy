/** What holds over whole runs of the campaign aggregate. */
module CampaignRuns {
  import opened Wrappers
  import opened Policy
  import opened CampaignRows
  import opened CampaignInvariants

  // ---------- membership ----------

  /**
   * From `a` to `b` a membership row only moves on: same generation means same status, and the owner is the owner for
   * good.
   */
  ghost predicate MemberLater(a: Member, b: Member) {
    a.generation <= b.generation && (a.generation == b.generation ==> a.status == b.status) &&
      (a.role == Owner <==> b.role == Owner)
  }

  ghost predicate MembersLater(a: Campaign, b: Campaign) {
    forall u {:trigger b.members[u]} {:trigger a.members[u]} ::
      u in a.members ==> u in b.members && MemberLater(a.members[u], b.members[u])
  }

  ghost predicate CampaignLater(a: Campaign, b: Campaign) {
    MembersLater(a, b) && a.version == b.version && a.revision <= b.revision
  }

  ghost predicate CampaignsLater(s: State, t: State) {
    forall c {:trigger t.campaigns[c]} {:trigger s.campaigns[c]} ::
      c in s.campaigns ==> c in t.campaigns && CampaignLater(s.campaigns[c], t.campaigns[c])
  }

  lemma AcceptMovesMembersOn(s: State, actor: UserId, cmd: Command)
    requires Inv(s) && cmd.AcceptInvitation? && Verdict(s, actor, cmd).Done?
    ensures CampaignLater(s.campaigns[cmd.campaign], CampaignAfter(s, actor, cmd))
  {
    var i := s.invitations[WithHash(s.invitations, cmd.hash)];
    assert ValidInvitation(i, s.campaigns);
    var a := s.campaigns[cmd.campaign];
    assert ValidCampaign(a, s.limits.maxMembers);
    if HoldsOwnerRow(a, actor) {
      OwnerRowIsActive(a, actor);
    }
  }

  lemma CommandMovesMembersOn(s: State, actor: UserId, cmd: Command)
    requires Inv(s) && !OnNote(cmd) && Verdict(s, actor, cmd).Done? && cmd.campaign in s.campaigns && NewIds(s, cmd)
    ensures CampaignLater(s.campaigns[cmd.campaign], CampaignAfter(s, actor, cmd))
  {
    if cmd.AcceptInvitation? {
      AcceptMovesMembersOn(s, actor, cmd);
    }
  }

  lemma StepMovesMembersOn(s: State, step: Step)
    requires Inv(s) && Enabled(s, step)
    ensures CampaignsLater(s, Next(s, step))
  {
    var t := Next(s, step);
    forall c | c in s.campaigns ensures c in t.campaigns && CampaignLater(s.campaigns[c], t.campaigns[c]) {
      if step.Do? && Verdict(s, step.actor, step.command).Done? && !OnNote(step.command) && step.command.campaign == c {
        CommandMovesMembersOn(s, step.actor, step.command);
      } else {
        assert t.campaigns[c] == s.campaigns[c];
      }
    }
  }

  lemma LaterChains(r: State, s: State, t: State)
    requires CampaignsLater(r, s) && CampaignsLater(s, t)
    ensures CampaignsLater(r, t)
  {
    forall c | c in r.campaigns ensures c in t.campaigns && CampaignLater(r.campaigns[c], t.campaigns[c]) {
      var x, y, z := r.campaigns[c], s.campaigns[c], t.campaigns[c];
      forall u | u in x.members ensures u in z.members && MemberLater(x.members[u], z.members[u]) {
        assert MemberLater(x.members[u], y.members[u]) && MemberLater(y.members[u], z.members[u]);
      }
    }
  }

  lemma {:induction false} RunMovesMembersOn(s: State, steps: seq<Step>)
    requires Inv(s) && IsRun(s, steps)
    ensures CampaignsLater(s, Final(s, steps))
    decreases |steps|
  {
    if |steps| > 0 {
      var mid := Next(s, steps[0]);
      StepKeepsInv(s, steps[0]);
      StepMovesMembersOn(s, steps[0]);
      RunMovesMembersOn(mid, steps[1..]);
      LaterChains(s, mid, Final(s, steps));
    }
  }

  /**
   * Membership over all runs: one owner row, active and never another user's; generations odd exactly while
   * active; members within the limit; and grants, on deleted notes too, naming active members only.
   */
  lemma MembershipOverRuns(limits: Limits, steps: seq<Step>, c: CampaignId)
    requires limits.maxMembers >= 1 && IsRun(Start(limits), steps) && c in Final(Start(limits), steps).campaigns
    ensures var s := Final(Start(limits), steps); var campaign := s.campaigns[c];
      && (exists u :: SoleOwner(campaign, u))
      && (forall u ::
           u in campaign.members ==>
           (campaign.members[u].generation % 2 == 1 <==> campaign.members[u].status == Active))
      && |ActiveMembers(campaign)| <= s.limits.maxMembers
      && (forall k, u ::
           k in s.contents && s.contents[k].campaign == c && u in s.contents[k].grants ==> ActiveIn(campaign, u))
  {
    StartIsValid(limits);
    RunKeepsInv(Start(limits), steps);
    var s := Final(Start(limits), steps);
    assert ValidCampaign(s.campaigns[c], s.limits.maxMembers);
    forall u | u in s.campaigns[c].members
      ensures s.campaigns[c].members[u].generation % 2 == 1 <==> s.campaigns[c].members[u].status == Active
    {
      assert OddWhileActive(s.campaigns[c].members[u]);
    }
    forall k, u | k in s.contents && s.contents[k].campaign == c && u in s.contents[k].grants
      ensures ActiveIn(s.campaigns[c], u)
    {
      assert ValidNote(s.contents[k], s.campaigns);
    }
  }

  /** What confirming an acceptance again checks. */
  predicate AcceptReplays(s: State, actor: UserId, id: InvitationId, generation: nat) {
    id in s.invitations &&
    var i := s.invitations[id];
    i.status == Accepted && i.consumer == Some(actor) && i.acceptedGeneration == Some(generation) &&
    var m := MemberOf(s.campaigns, i.campaign, actor);
    IsActive(m) && m.value.generation == generation
  }

  /** An acceptance can be confirmed for exactly as long as the generation it began lasts. */
  lemma AcceptReplaysWhileGenerationLasts(s: State, actor: UserId, cmd: Command, steps: seq<Step>)
    requires Inv(s) && cmd.AcceptInvitation? && Verdict(s, actor, cmd).Done? && IsRun(Effect(s, actor, cmd), steps)
    ensures var t := Final(Effect(s, actor, cmd), steps);
      var id := WithHash(s.invitations, cmd.hash);
      var g := Effect(s, actor, cmd).campaigns[cmd.campaign].members[actor].generation;
      cmd.campaign in t.campaigns && actor in t.campaigns[cmd.campaign].members &&
      (AcceptReplays(t, actor, id, g) <==> t.campaigns[cmd.campaign].members[actor].generation == g)
  {
    var a := Effect(s, actor, cmd);
    AcceptKeepsInv(s, actor, cmd);
    RunMovesMembersOn(a, steps);
    RunMovesInvitationsOn(a, steps);
    var id := WithHash(s.invitations, cmd.hash);
    assert InvitationLater(a.invitations[id], Final(a, steps).invitations[id]);
    assert CampaignLater(a.campaigns[cmd.campaign], Final(a, steps).campaigns[cmd.campaign]);
    assert MemberLater(a.campaigns[cmd.campaign].members[actor],
      Final(a, steps).campaigns[cmd.campaign].members[actor]);
  }

  /** Every grant of the list that names `u` was made in a generation of `u` before `generation`. */
  predicate AllEnded(grants: seq<TemplateGrant>, u: UserId, generation: nat) {
    forall i :: 0 <= i < |grants| && grants[i].userId == u ==> grants[i].generation < generation
  }

  /**
   * Grants and acceptances tied to generations that have ended never work again, whatever happens next and
   * whomever else the grants name. A manager reads every template, with or without a grant.
   */
  lemma EndedGenerationNeverWorks(s: State, steps: seq<Step>, c: CampaignId, u: UserId, grants: seq<TemplateGrant>,
      g: nat, id: InvitationId, active: bool)
    requires Inv(s) && IsRun(s, steps) && c in s.campaigns && u in s.campaigns[c].members
    requires AllEnded(grants, u, s.campaigns[c].members[u].generation) && g < s.campaigns[c].members[u].generation
    ensures var t := Final(s, steps); var m := MemberOf(t.campaigns, c, u);
      (CanReadTemplate(Selected, active, grants, u, m) <==> IsGameMaster(m)) &&
      (id in t.invitations && t.invitations[id].campaign == c ==> !AcceptReplays(t, u, id, g))
  {
    RunMovesMembersOn(s, steps);
    var t := Final(s, steps);
    assert CampaignLater(s.campaigns[c], t.campaigns[c]);
    assert MemberLater(s.campaigns[c].members[u], t.campaigns[c].members[u]);
  }

  // ---------- invitations ----------

  /** Once it leaves `pending` an invitation row never changes again. */
  ghost predicate InvitationLater(a: Invitation, b: Invitation) {
    && a.campaign == b.campaign && a.role == b.role && a.revision <= b.revision
    && (a.status != Pending ==> b == a)
    && (a.revision == b.revision ==> b == a)
  }

  ghost predicate InvitationsLater(s: State, t: State) {
    forall i {:trigger t.invitations[i]} {:trigger s.invitations[i]} ::
      i in s.invitations ==> i in t.invitations && InvitationLater(s.invitations[i], t.invitations[i])
  }

  lemma StepMovesInvitationsOn(s: State, step: Step)
    requires Enabled(s, step)
    ensures InvitationsLater(s, Next(s, step))
  {
  }

  lemma {:induction false} RunMovesInvitationsOn(s: State, steps: seq<Step>)
    requires IsRun(s, steps)
    ensures InvitationsLater(s, Final(s, steps))
    decreases |steps|
  {
    if |steps| > 0 {
      var mid := Next(s, steps[0]);
      StepMovesInvitationsOn(s, steps[0]);
      RunMovesInvitationsOn(mid, steps[1..]);
      forall i | i in s.invitations
        ensures i in Final(s, steps).invitations && InvitationLater(s.invitations[i], Final(s, steps).invitations[i])
      {
        assert InvitationLater(s.invitations[i], mid.invitations[i]);
      }
    }
  }

  ghost predicate Consumes(s: State, step: Step, id: InvitationId) {
    step.Do? && Verdict(s, step.actor, step.command).Done? &&
    (step.command.AcceptInvitation? || step.command.DeclineInvitation?) &&
    HashInUse(s.invitations, step.command.hash) && WithHash(s.invitations, step.command.hash) == id
  }

  /** Single use: after one acceptance or decline, no later one is of the same invitation, by any token. */
  lemma InvitationConsumedOnce(s: State, first: Step, steps: seq<Step>, second: Step, id: InvitationId)
    requires Enabled(s, first) && IsRun(Next(s, first), steps)
    requires Consumes(s, first, id)
    ensures !Consumes(Final(Next(s, first), steps), second, id)
    ensures id in Next(s, first).invitations && id in Final(Next(s, first), steps).invitations
    ensures Final(Next(s, first), steps).invitations[id] == Next(s, first).invitations[id]
  {
    RunMovesInvitationsOn(Next(s, first), steps);
  }

  /** Two acceptances in a store never stand for the same membership generation. */
  lemma AcceptancesAreDistinctMemberships(limits: Limits, steps: seq<Step>, i: InvitationId, j: InvitationId)
    requires limits.maxMembers >= 1 && IsRun(Start(limits), steps)
    requires i in Final(Start(limits), steps).invitations && j in Final(Start(limits), steps).invitations
    requires SameMembership(Final(Start(limits), steps).invitations[i], Final(Start(limits), steps).invitations[j])
    ensures i == j
  {
    StartIsValid(limits);
    RunKeepsInv(Start(limits), steps);
  }

  /** A token that was minted, and that no invitation but `id` has. */
  ghost predicate BelongsTo(s: State, hash: TokenHash, id: InvitationId) {
    && hash in s.minted
    && forall i {:trigger s.invitations[i]} ::
         i in s.invitations && i != id ==> s.invitations[i].hash != hash
  }

  lemma StepKeepsOwnership(s: State, step: Step, hash: TokenHash, id: InvitationId)
    requires BelongsTo(s, hash, id) && id in s.invitations && Enabled(s, step)
    ensures BelongsTo(Next(s, step), hash, id)
  {
    forall i | i in Next(s, step).invitations && i != id ensures Next(s, step).invitations[i].hash != hash {
      if i in s.invitations {
        assert s.invitations[i].hash != hash;
      }
    }
  }

  lemma {:induction false} RunKeepsOwnership(s: State, steps: seq<Step>, hash: TokenHash, id: InvitationId)
    requires BelongsTo(s, hash, id) && id in s.invitations && IsRun(s, steps)
    ensures BelongsTo(Final(s, steps), hash, id) && id in Final(s, steps).invitations
    decreases |steps|
  {
    if |steps| > 0 {
      StepKeepsOwnership(s, steps[0], hash, id);
      StepMovesInvitationsOn(s, steps[0]);
      RunKeepsOwnership(Next(s, steps[0]), steps[1..], hash, id);
    }
  }

  ghost predicate Retired(s: State, hash: TokenHash) { hash in s.minted && !HashInUse(s.invitations, hash) }

  lemma StepKeepsRetired(s: State, step: Step, hash: TokenHash)
    requires Retired(s, hash) && Enabled(s, step)
    ensures Retired(Next(s, step), hash)
  {
    forall i | i in Next(s, step).invitations ensures Next(s, step).invitations[i].hash != hash {
      if i in s.invitations {
        assert s.invitations[i].hash != hash;
      }
    }
  }

  lemma {:induction false} RunKeepsRetired(s: State, steps: seq<Step>, hash: TokenHash)
    requires Retired(s, hash) && IsRun(s, steps)
    ensures Retired(Final(s, steps), hash)
    decreases |steps|
  {
    if |steps| > 0 {
      StepKeepsRetired(s, steps[0], hash);
      RunKeepsRetired(Next(s, steps[0]), steps[1..], hash);
    }
  }

  lemma RetiredIsUnavailable(s: State, user: UserId, attempt: Command, found: Option<InvitationId>)
    requires ByToken(attempt) && Retired(s, attempt.hash)
    ensures Verdict(s, user, attempt) == Unavailable && LockedVerdict(s, user, attempt, found) == Unavailable
  {
    assert forall i :: i in s.invitations ==> s.invitations[i].hash != attempt.hash;
  }

  lemma OneHolderDecides(s: State, user: UserId, attempt: Command, id: InvitationId)
    requires ByToken(attempt) && BelongsTo(s, attempt.hash, id) && id in s.invitations
    ensures LockedVerdict(s, user, attempt, Some(id)) == Verdict(s, user, attempt)
  {
    if s.invitations[id].hash == attempt.hash {
      assert HashInUse(s.invitations, attempt.hash);
      assert WithHash(s.invitations, attempt.hash) == id;
    } else {
      assert !HashInUse(s.invitations, attempt.hash);
    }
  }

  /**
   * The look-up by token hash takes no lock, so rotations, acceptances and removals can come between it and the
   * locked part. For every token that had been minted at the look-up, the locked part still decides as if the
   * look-up had been made under the lock.
   */
  lemma OldLookUpDecidesAlike(s: State, steps: seq<Step>, user: UserId, attempt: Command)
    requires Inv(s) && IsRun(s, steps) && ByToken(attempt) && attempt.hash in s.minted
    ensures var t := Final(s, steps);
      LockedVerdict(t, user, attempt, LookUp(s, attempt.campaign, attempt.hash)) == Verdict(t, user, attempt)
  {
    var t := Final(s, steps);
    if HashInUse(s.invitations, attempt.hash) {
      var id := WithHash(s.invitations, attempt.hash);
      assert UniqueHashes(s.invitations);
      assert BelongsTo(s, attempt.hash, id);
      RunKeepsOwnership(s, steps, attempt.hash, id);
      OneHolderDecides(t, user, attempt, id);
      RunMovesInvitationsOn(s, steps);
      assert InvitationLater(s.invitations[id], t.invitations[id]);
    } else {
      RunKeepsRetired(s, steps, attempt.hash);
    }
  }

  /**
   * A token that a rotation replaced can never be accepted or declined again, not even by a call that had found
   * the invitation before the rotation and gets its locks after it.
   */
  lemma ReplacedTokenIsDead(s: State, actor: UserId, rotation: Command, steps: seq<Step>, user: UserId,
      attempt: Command)
    requires Inv(s) && rotation.RotateInvitation? && NewIds(s, rotation) && Verdict(s, actor, rotation).Done?
    requires IsRun(Effect(s, actor, rotation), steps)
    requires ByToken(attempt) && attempt.hash == s.invitations[rotation.invitation].hash
    ensures var t := Final(Effect(s, actor, rotation), steps);
      && Verdict(t, user, attempt) == Unavailable
      && LockedVerdict(t, user, attempt, LookUp(s, attempt.campaign, attempt.hash)) == Unavailable
  {
    var t := Effect(s, actor, rotation);
    assert HashesMinted(s.invitations, s.minted) && UniqueHashes(s.invitations);
    forall i | i in t.invitations ensures t.invitations[i].hash != attempt.hash {
      assert s.invitations[i].hash == s.invitations[rotation.invitation].hash ==> i == rotation.invitation;
    }
    RunKeepsRetired(t, steps, attempt.hash);
    RetiredIsUnavailable(Final(t, steps), user, attempt, LookUp(s, attempt.campaign, attempt.hash));
  }

  ghost predicate Rotates(s: State, step: Step, id: InvitationId) {
    step.Do? && step.command.RotateInvitation? && step.command.invitation == id &&
      Verdict(s, step.actor, step.command).Done?
  }

  ghost function Rotations(s: State, steps: seq<Step>, id: InvitationId): nat
    requires IsRun(s, steps)
    decreases |steps|
  {
    if |steps| == 0 then 0
    else (if Rotates(s, steps[0], id) then 1 else 0) + Rotations(Next(s, steps[0]), steps[1..], id)
  }

  /** An invitation's revision counts its rotations and, at most once, its way out of `pending`. */
  lemma {:induction false} InvitationRevisionCounts(s: State, steps: seq<Step>, id: InvitationId)
    requires IsRun(s, steps) && id in s.invitations
    ensures id in Final(s, steps).invitations
    ensures var a, b := s.invitations[id], Final(s, steps).invitations[id];
      b.revision == a.revision + Rotations(s, steps, id) + if a.status == Pending && b.status != Pending then 1 else 0
    decreases |steps|
  {
    if |steps| > 0 {
      StepMovesInvitationsOn(s, steps[0]);
      InvitationStepCounts(s, steps[0], id);
      RunMovesInvitationsOn(Next(s, steps[0]), steps[1..]);
      InvitationRevisionCounts(Next(s, steps[0]), steps[1..], id);
    }
  }

  lemma InvitationStepCounts(s: State, step: Step, id: InvitationId)
    requires Enabled(s, step) && id in s.invitations
    ensures id in Next(s, step).invitations
    ensures var a, b := s.invitations[id], Next(s, step).invitations[id];
      b.revision == a.revision + (if Rotates(s, step, id) then 1 else 0) +
        (if a.status == Pending && b.status != Pending then 1 else 0)
    ensures Rotates(s, step, id) ==>
      s.invitations[id].status == Pending && Next(s, step).invitations[id].status == Pending
  {
  }

  // ---------- custody ----------

  /**
   * Custody over all runs: every sheet has an owner or a campaign and not both; an attached one has the
   * campaign's version, controllers, designees and designators who are active members, a return owner (if
   * any) who is one of those controllers, and exactly one open placement row, of its current generation.
   */
  lemma CustodyOverRuns(limits: Limits, steps: seq<Step>, id: SheetId)
    requires limits.maxMembers >= 1 && IsRun(Start(limits), steps) && id in Final(Start(limits), steps).sheets
    ensures var s := Final(Start(limits), steps); var sheet := s.sheets[id];
      && (sheet.owner.Some? <==> sheet.campaign.None?)
      && (sheet.campaign.None? ==> sheet.controllers == map[] && sheet.designations == map[] && sheet.returnOwner.None?)
      && (sheet.campaign.None? ==> forall i :: 0 <= i < |sheet.placements| ==> sheet.placements[i].ended)
      && (forall i, j ::
           0 <= i < |sheet.placements| && 0 <= j < |sheet.placements| ==>
           !sheet.placements[i].ended && !sheet.placements[j].ended ==> i == j)
      && (sheet.campaign.Some? ==>
            sheet.campaign.value in s.campaigns &&
            var c := sheet.campaign.value;
            AttachedTo(sheet, c, s.campaigns[c]) &&
            |Attached(s.sheets, c)| <= s.limits.maxAttached &&
            Placement(sheet.generation, c, sheet.returnOwner, false) in sheet.placements)
  {
    StartIsValid(limits);
    RunKeepsInv(Start(limits), steps);
    var s := Final(Start(limits), steps);
    assert ValidSheet(s.sheets[id], s.campaigns);
    if s.sheets[id].campaign.Some? {
      assert |Attached(s.sheets, s.sheets[id].campaign.value)| <= s.limits.maxAttached;
    }
  }

  /** `b` is `a` handed back to `u` with its current state. */
  ghost predicate HandedBack(a: Sheet, b: Sheet, u: UserId) {
    && b.owner == Some(u) && b.campaign.None? && b.returnOwner.None? && b.state == a.state && b.version == a.version
    && b.archived == a.archived && b.revision == a.revision + 1 && b.generation == a.generation + 1
    && b.controllers == map[] && b.designations == map[] && |b.placements| == |a.placements|
    && forall i :: 0 <= i < |a.placements| ==> b.placements[i] == a.placements[i].(ended := true)
  }

  /** `b` is `a` without `u` as controller, designee or designator, and otherwise the same. */
  ghost predicate OnlyWithout(a: Sheet, b: Sheet, u: UserId) {
    && b == a.(controllers := b.controllers, designations := b.designations)
    && b.controllers == a.controllers - {u}
    && (forall v :: v in b.designations <==> v in a.designations && v != u && a.designations[v].designator != u)
    && (forall v :: v in b.designations ==> b.designations[v] == a.designations[v])
  }

  lemma WithoutMemberIsExact(sheet: Sheet, c: CampaignId, u: UserId, campaign: Campaign)
    requires AttachedTo(sheet, c, campaign)
    ensures OnlyWithout(sheet, WithoutMember(sheet, c, u), u)
  {
    assert Controlled(sheet, c, campaign) && Designated(sheet, c, campaign);
    assert WithoutMember(sheet, c, u).controllers == sheet.controllers - {u};
  }

  /** Removal gives back exactly the sheets the member is return owner of here; elsewhere nothing moves. */
  lemma RemovalReturnsExactly(s: State, actor: UserId, cmd: Command, id: SheetId)
    requires AllSheets(s.sheets, s.campaigns) && cmd.RemoveMember? && Verdict(s, actor, cmd).Done? && id in s.sheets
    ensures id in SheetsAfter(s, actor, cmd)
    ensures var a, b := s.sheets[id], SheetsAfter(s, actor, cmd)[id];
      if a.campaign != Some(cmd.campaign) then b == a
      else if a.returnOwner == Some(cmd.target) then HandedBack(a, b, cmd.target)
      else OnlyWithout(a, b, cmd.target)
  {
    var a := s.sheets[id];
    assert ValidSheet(a, s.campaigns);
    if a.campaign != Some(cmd.campaign) {
      ReleaseElsewhere(a, cmd.campaign, cmd.target, s.campaigns);
    } else if a.returnOwner != Some(cmd.target) {
      WithoutMemberIsExact(a, cmd.campaign, cmd.target, s.campaigns[cmd.campaign]);
    }
  }

  ghost predicate AdoptedBy(s: State, id: SheetId, c: CampaignId, u: UserId, generation: nat) {
    id in s.sheets && s.sheets[id].campaign == Some(c) && s.sheets[id].returnOwner == Some(u) &&
      s.sheets[id].generation == generation
  }

  ghost predicate Departs(s: State, step: Step, c: CampaignId, u: UserId) {
    step.Do? && step.command.RemoveMember? && step.command.campaign == c && step.command.target == u &&
      Verdict(s, step.actor, step.command).Done?
  }

  ghost predicate NoDeparture(s: State, steps: seq<Step>, c: CampaignId, u: UserId)
    requires IsRun(s, steps)
    decreases |steps|
  {
    |steps| > 0 ==> !Departs(s, steps[0], c, u) && NoDeparture(Next(s, steps[0]), steps[1..], c, u)
  }

  lemma CommandKeepsAdoption(s: State, actor: UserId, cmd: Command, id: SheetId, c: CampaignId, u: UserId,
      generation: nat)
    requires NewIds(s, cmd) && Verdict(s, actor, cmd).Done? && AdoptedBy(s, id, c, u, generation) &&
      s.sheets[id].owner.None?
    requires cmd.RemoveMember? ==> cmd.campaign != c || cmd.target != u
    ensures var sheets := SheetsAfter(s, actor, cmd);
      id in sheets && sheets[id].campaign == Some(c) && sheets[id].returnOwner == Some(u) &&
        sheets[id].generation == generation &&
      sheets[id].version == s.sheets[id].version
  {
  }

  lemma OutsideStepKeepsAdoption(s: State, step: Step, id: SheetId, c: CampaignId, u: UserId, generation: nat)
    requires Enabled(s, step) && AdoptedBy(s, id, c, u, generation) && !step.Do?
    ensures AdoptedBy(Next(s, step), id, c, u, generation) && Next(s, step).sheets[id].version == s.sheets[id].version
  {
  }

  lemma StepKeepsAdoption(s: State, step: Step, id: SheetId, c: CampaignId, u: UserId, generation: nat)
    requires AllSheets(s.sheets, s.campaigns) && Enabled(s, step) && AdoptedBy(s, id, c, u, generation) &&
      !Departs(s, step, c, u)
    ensures AdoptedBy(Next(s, step), id, c, u, generation)
    ensures Next(s, step).sheets[id].version == s.sheets[id].version
  {
    assert ValidSheet(s.sheets[id], s.campaigns);
    if !step.Do? {
      OutsideStepKeepsAdoption(s, step, id, c, u, generation);
    } else if Verdict(s, step.actor, step.command).Done? {
      CommandKeepsAdoption(s, step.actor, step.command, id, c, u, generation);
      assert Next(s, step).sheets == SheetsAfter(s, step.actor, step.command);
    } else {
      assert Next(s, step) == s;
    }
  }

  /** Nothing but the adopter's own departure ends an adoption: no assignment, claim, archive or edit does. */
  lemma {:induction false} AdoptionLastsUntilDeparture(s: State, steps: seq<Step>, id: SheetId, c: CampaignId,
      u: UserId, generation: nat)
    requires Inv(s) && IsRun(s, steps) && AdoptedBy(s, id, c, u, generation) && NoDeparture(s, steps, c, u)
    ensures AdoptedBy(Final(s, steps), id, c, u, generation)
    ensures Final(s, steps).sheets[id].version == s.sheets[id].version
    decreases |steps|
  {
    if |steps| > 0 {
      StepKeepsInv(s, steps[0]);
      StepKeepsAdoption(s, steps[0], id, c, u, generation);
      AdoptionLastsUntilDeparture(Next(s, steps[0]), steps[1..], id, c, u, generation);
    }
  }

  lemma AdoptionBegins(s: State, u: UserId, adopt: Command)
    requires Inv(s) && adopt.AdoptSheet? && Verdict(s, u, adopt).Done?
    ensures Inv(Effect(s, u, adopt)) &&
      AdoptedBy(Effect(s, u, adopt), adopt.sheet, adopt.campaign, u, s.sheets[adopt.sheet].generation + 1)
    ensures s.sheets[adopt.sheet].owner == Some(u) &&
      Effect(s, u, adopt).sheets[adopt.sheet].version == s.sheets[adopt.sheet].version
  {
    PlacementCommandKeepsInv(s, u, adopt);
  }

  /** Adopt, then anything, then depart: the sheet is theirs again, as it was the moment before departure. */
  lemma AdoptThenDepart(s: State, u: UserId, adopt: Command, steps: seq<Step>, remover: UserId, removal: Command)
    requires Inv(s) && adopt.AdoptSheet? && Verdict(s, u, adopt).Done?
    requires IsRun(Effect(s, u, adopt), steps) && NoDeparture(Effect(s, u, adopt), steps, adopt.campaign, u)
    requires removal.RemoveMember? && removal.campaign == adopt.campaign && removal.target == u
    requires Verdict(Final(Effect(s, u, adopt), steps), remover, removal).Done?
    ensures var t := Final(Effect(s, u, adopt), steps); var id := adopt.sheet;
      id in t.sheets && id in SheetsAfter(t, remover, removal) &&
      var before, after := s.sheets[id], SheetsAfter(t, remover, removal)[id];
      && HandedBack(t.sheets[id], after, u)
      && after.owner == before.owner && after.version == before.version && after.generation == before.generation + 2
      && Inv(Effect(t, remover, removal))
  {
    var a := Effect(s, u, adopt);
    AdoptionBegins(s, u, adopt);
    AdoptionLastsUntilDeparture(a, steps, adopt.sheet, adopt.campaign, u, s.sheets[adopt.sheet].generation + 1);
    RunKeepsInv(a, steps);
    var t := Final(a, steps);
    RemovalReturnsExactly(t, remover, removal, adopt.sheet);
    CommandKeepsInv(t, remover, removal);
  }

  // ---------- revisions ----------

  /** The commands that write the campaign row; revoking an invitation does so only while it is pending. */
  ghost predicate WritesCampaign(s: State, step: Step, c: CampaignId) {
    step.Do? && Verdict(s, step.actor, step.command).Done? &&
    var cmd := step.command;
    !cmd.CreateContent? && !cmd.ReplaceGrants? && cmd.campaign == c &&
    (cmd.RevokeInvitation? ==> s.invitations[cmd.invitation].status == Pending)
  }

  ghost function CampaignWrites(s: State, steps: seq<Step>, c: CampaignId): nat
    requires IsRun(s, steps)
    decreases |steps|
  {
    if |steps| == 0 then 0
    else (if WritesCampaign(s, steps[0], c) then 1 else 0) + CampaignWrites(Next(s, steps[0]), steps[1..], c)
  }

  lemma StepCountsCampaignWrites(s: State, step: Step, c: CampaignId)
    requires Enabled(s, step) && c in s.campaigns
    ensures c in Next(s, step).campaigns
    ensures Next(s, step).campaigns[c].revision == s.campaigns[c].revision + if WritesCampaign(s, step, c) then 1 else 0
  {
  }

  /** A campaign's revision counts the committed commands that write its row, no more and no fewer. */
  lemma {:induction false} CampaignRevisionCounts(s: State, steps: seq<Step>, c: CampaignId)
    requires IsRun(s, steps) && c in s.campaigns
    ensures c in Final(s, steps).campaigns
    ensures Final(s, steps).campaigns[c].revision == s.campaigns[c].revision + CampaignWrites(s, steps, c)
    decreases |steps|
  {
    if |steps| > 0 {
      StepCountsCampaignWrites(s, steps[0], c);
      CampaignRevisionCounts(Next(s, steps[0]), steps[1..], c);
    }
  }
}
