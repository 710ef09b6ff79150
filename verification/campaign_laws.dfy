/** What each campaign command asks for, stated without the order of its guards, and who is refused how. */
module CampaignLaws {
  import opened Wrappers
  import opened Policy
  import opened CampaignRows

  // ---------- standing ----------

  predicate InCampaign(s: State, c: CampaignId, u: UserId) {
    c in s.campaigns && u in s.campaigns[c].members && s.campaigns[c].members[u].status == Active
  }

  predicate InRole(s: State, c: CampaignId, u: UserId, role: Role) {
    InCampaign(s, c, u) && s.campaigns[c].members[u].role == role
  }

  predicate Manages(s: State, c: CampaignId, u: UserId) { InRole(s, c, u, Owner) || InRole(s, c, u, CoGm) }

  predicate Open(s: State, c: CampaignId) { c in s.campaigns && s.campaigns[c].active }

  predicate At(s: State, c: CampaignId, revision: nat) { c in s.campaigns && s.campaigns[c].revision == revision }

  predicate AllIn(s: State, c: CampaignId, users: set<UserId>) { forall u :: u in users ==> InCampaign(s, c, u) }

  predicate InGeneration(s: State, c: CampaignId, u: UserId, generation: nat) {
    InCampaign(s, c, u) && s.campaigns[c].members[u].generation == generation
  }

  // ---------- what a command asks for ----------

  /** A pending invitation to the campaign with this token, not expired. */
  predicate Usable(i: Invitation, c: CampaignId, hash: TokenHash, now: int) {
    i.campaign == c && i.hash == hash && i.status == Pending && now < i.expires
  }

  predicate IsUsable(s: State, c: CampaignId, hash: TokenHash, now: int) {
    exists i :: i in s.invitations && Usable(s.invitations[i], c, hash, now)
  }

  predicate Reviewed(s: State, c: CampaignId, hash: TokenHash, now: int, revision: nat, access: nat) {
    Open(s, c) && s.campaigns[c].accessRevision == access &&
    exists i :: i in s.invitations && Usable(s.invitations[i], c, hash, now) && s.invitations[i].revision == revision
  }

  /** A co-GM's invitation is the owner's business. */
  predicate MayHandle(s: State, c: CampaignId, actor: UserId, role: Role) {
    InRole(s, c, actor, Owner) || (InRole(s, c, actor, CoGm) && role == Player)
  }

  predicate HandlesInvitation(s: State, actor: UserId, c: CampaignId, id: InvitationId, revision: nat) {
    id in s.invitations && s.invitations[id].campaign == c && s.invitations[id].revision == revision &&
    Manages(s, c, actor) && (s.invitations[id].role == CoGm ==> InRole(s, c, actor, Owner))
  }

  predicate IsAttached(s: State, id: SheetId, c: CampaignId, revision: nat) {
    id in s.sheets && s.sheets[id].campaign == Some(c) && s.sheets[id].revision == revision
  }

  predicate PlacedBy(s: State, actor: UserId, c: CampaignId, generation: nat, expected: nat) {
    InGeneration(s, c, actor, generation) && Open(s, c) && At(s, c, expected)
  }

  ghost predicate HasRoom(s: State, c: CampaignId) { |Attached(s.sheets, c)| < s.limits.maxAttached }

  predicate NobodyTwice(users: seq<UserId>) {
    forall i, j :: 0 <= i < |users| && 0 <= j < |users| && users[i] == users[j] ==> i == j
  }

  ghost predicate Permitted(s: State, actor: UserId, cmd: Command) {
    match cmd
    case CreateCampaign(_, _) => true
    case UpdateMetadata(c, expected) => Manages(s, c, actor) && Open(s, c) && At(s, c, expected)
    case SetLifecycle(c, active, expected) => Manages(s, c, actor) && Open(s, c) != active && At(s, c, expected)
    case ChangeRole(c, target, role, expected) =>
      && Open(s, c) && At(s, c, expected)
      && ((InRole(s, c, actor, Owner) && role != Owner && (InRole(s, c, target, CoGm) || InRole(s, c, target, Player)))
          || (InRole(s, c, actor, CoGm) && role == Player && InRole(s, c, target, Player)))
    case RemoveMember(c, target, expected) =>
      && At(s, c, expected) && InCampaign(s, c, target) && !InRole(s, c, target, Owner)
      && (actor == target || InRole(s, c, actor, Owner) || (InRole(s, c, actor, CoGm) && InRole(s, c, target, Player)))
    case IssueInvitation(c, _, role, _, _, expected) =>
      role != Owner && MayHandle(s, c, actor, role) && Open(s, c) && At(s, c, expected)
    case AcceptInvitation(c, hash, revision, access, now) =>
      && Reviewed(s, c, hash, now, revision, access) && !InCampaign(s, c, actor)
      && |ActiveMembers(s.campaigns[c])| < s.limits.maxMembers
    case DeclineInvitation(c, hash, revision, access, now) => Reviewed(s, c, hash, now, revision, access)
    case RotateInvitation(c, id, _, _, revision, expected) =>
      HandlesInvitation(s, actor, c, id, revision) && At(s, c, expected) && s.invitations[id].status == Pending
    case RevokeInvitation(c, id, revision, expected) =>
      HandlesInvitation(s, actor, c, id, revision) && At(s, c, expected)
    case CreateContent(c, _, audience, grants) =>
      && InCampaign(s, c, actor) && Open(s, c) && AllIn(s, c, grants)
      && (Manages(s, c, actor) || ((audience.None? || audience.value == OwnerOnlyNote) && grants == {}))
    case ReplaceGrants(id, grants, expected) =>
      id in s.contents && var note := s.contents[id];
      && !note.deleted && note.revision == expected && Open(s, note.campaign) && Manages(s, note.campaign, actor)
      && (note.audience == OwnerOnlyNote ==> note.creator == actor) && AllIn(s, note.campaign, grants)
    case CreateInCampaign(c, _, version, _, requested, generation, expected) =>
      && PlacedBy(s, actor, c, generation, expected) && version == s.campaigns[c].version && HasRoom(s, c)
      && (if Manages(s, c, actor) then requested.Some? ==> forall u :: u in requested.value ==> InCampaign(s, c, u)
          else requested.Some? ==> requested.value == [actor])
    case AdoptSheet(c, id, generation, expected, revision) =>
      && PlacedBy(s, actor, c, generation, expected) && HasRoom(s, c) && id in s.sheets
      && var sheet := s.sheets[id];
         && sheet.owner == Some(actor) && sheet.campaign.None? && !sheet.archived
         && sheet.version == s.campaigns[c].version && sheet.revision == revision
    case AssignControllers(c, id, users, designees, generation, expected, revision) =>
      && PlacedBy(s, actor, c, generation, expected) && Manages(s, c, actor) && IsAttached(s, id, c, revision)
      && NobodyTwice(users) && NobodyTwice(designees)
      && (s.sheets[id].returnOwner.Some? ==> s.sheets[id].returnOwner.value in users)
      && (forall u :: u in users ==> InCampaign(s, c, u))
      && (forall u :: u in designees ==> InCampaign(s, c, u) && u !in users && u !in s.sheets[id].designations)
    case ClaimSheet(c, id, generation, expected, revision) =>
      && PlacedBy(s, actor, c, generation, expected) && IsAttached(s, id, c, revision)
      && actor in s.sheets[id].designations
  }

  lemma {:induction false} DesigneesAllFit(campaign: Campaign, sheet: Sheet, users: set<UserId>,
      designees: seq<UserId>)
    ensures DesigneesVerdict(campaign, sheet, users, designees).Done? <==>
      forall u :: u in designees ==> ActiveIn(campaign, u) && u !in users && u !in sheet.designations
    decreases |designees|
  {
    if |designees| > 0 {
      DesigneesAllFit(campaign, sheet, users, designees[1..]);
      assert forall u :: u in designees <==> u == designees[0] || u in designees[1..];
    }
  }

  lemma TokenIsReviewed(s: State, c: CampaignId, hash: TokenHash, revision: nat, access: nat, now: int)
    requires UniqueHashes(s.invitations)
    ensures ConsumeVerdict(s, c, hash, revision, access, now).Done? <==> Reviewed(s, c, hash, now, revision, access)
    ensures ConsumeVerdict(s, c, hash, revision, access, now) == Unavailable <==>
      !Open(s, c) || !IsUsable(s, c, hash, now)
  {
    if i :| i in s.invitations && Usable(s.invitations[i], c, hash, now) {
      assert HashInUse(s.invitations, hash) && WithHash(s.invitations, hash) == i;
    }
  }

  lemma AssignmentGrantedIff(s: State, actor: UserId, cmd: Command)
    requires cmd.AssignControllers?
    ensures Verdict(s, actor, cmd).Done? <==> Permitted(s, actor, cmd)
  {
    var c, id, users, designees := cmd.campaign, cmd.sheet, cmd.users, cmd.designees;
    assert Distinct(users) <==> NobodyTwice(users);
    assert Distinct(designees) <==> NobodyTwice(designees);
    if c in s.campaigns && id in s.sheets {
      DesigneesAllFit(s.campaigns[c], s.sheets[id], AsSet(users), designees);
      assert forall u :: ActiveIn(s.campaigns[c], u) <==> InCampaign(s, c, u);
      assert AllActive(s.campaigns[c], AsSet(users)) <==> forall u :: u in users ==> InCampaign(s, c, u);
    }
  }

  lemma NoteGrantedIff(s: State, actor: UserId, cmd: Command)
    requires OnNote(cmd)
    ensures Verdict(s, actor, cmd).Done? <==> Permitted(s, actor, cmd)
  {
    var c := if cmd.CreateContent? then cmd.campaign
             else if cmd.content in s.contents then s.contents[cmd.content].campaign else "";
    if c in s.campaigns {
      assert AllActive(s.campaigns[c], cmd.grants) <==> AllIn(s, c, cmd.grants);
    }
  }

  lemma PlacementGrantedIff(s: State, actor: UserId, cmd: Command)
    requires cmd.CreateInCampaign? || cmd.AdoptSheet? || cmd.ClaimSheet?
    ensures Verdict(s, actor, cmd).Done? <==> Permitted(s, actor, cmd)
  {
    if cmd.CreateInCampaign? && cmd.campaign in s.campaigns {
      var named := Controllers(s, actor, cmd.campaign, cmd.requested);
      assert AllActive(s.campaigns[cmd.campaign], named) <==> forall u :: u in named ==> InCampaign(s, cmd.campaign, u);
    }
  }

  lemma MemberGrantedIff(s: State, actor: UserId, cmd: Command)
    requires cmd.ChangeRole? || cmd.RemoveMember? || cmd.UpdateMetadata? || cmd.SetLifecycle?
    ensures Verdict(s, actor, cmd).Done? <==> Permitted(s, actor, cmd)
  {
  }

  lemma TokenGrantedIff(s: State, actor: UserId, cmd: Command)
    requires UniqueHashes(s.invitations) && ByToken(cmd)
    ensures Verdict(s, actor, cmd).Done? <==> Permitted(s, actor, cmd)
  {
    TokenIsReviewed(s, cmd.campaign, cmd.hash, cmd.invitationRevision, cmd.accessRevision, cmd.now);
    if cmd.campaign in s.campaigns {
      assert ActiveIn(s.campaigns[cmd.campaign], actor) <==> InCampaign(s, cmd.campaign, actor);
    }
  }

  lemma InvitationGrantedIff(s: State, actor: UserId, cmd: Command)
    requires cmd.IssueInvitation? || cmd.RotateInvitation? || cmd.RevokeInvitation?
    ensures Verdict(s, actor, cmd).Done? <==> Permitted(s, actor, cmd)
  {
  }

  /** The guards of every command together, in no order: a command is granted exactly if all it asks for is there. */
  lemma GrantedIff(s: State, actor: UserId, cmd: Command)
    requires UniqueHashes(s.invitations)
    ensures Verdict(s, actor, cmd).Done? <==> Permitted(s, actor, cmd)
  {
    if ByToken(cmd) {
      TokenGrantedIff(s, actor, cmd);
    } else if OnNote(cmd) {
      NoteGrantedIff(s, actor, cmd);
    } else if cmd.AssignControllers? {
      AssignmentGrantedIff(s, actor, cmd);
    } else if cmd.CreateInCampaign? || cmd.AdoptSheet? || cmd.ClaimSheet? {
      PlacementGrantedIff(s, actor, cmd);
    } else if cmd.IssueInvitation? || cmd.RotateInvitation? || cmd.RevokeInvitation? {
      InvitationGrantedIff(s, actor, cmd);
    } else if !cmd.CreateCampaign? {
      MemberGrantedIff(s, actor, cmd);
    }
  }

  // ---------- refusals ----------

  /** The campaign whose members a command is for; a note's commands are for its campaign, if there is such a note. */
  predicate Insider(s: State, actor: UserId, cmd: Command) {
    if cmd.ReplaceGrants? then cmd.content in s.contents && InCampaign(s, s.contents[cmd.content].campaign, actor)
    else InCampaign(s, cmd.campaign, actor)
  }

  predicate ForAnyone(cmd: Command) { cmd.CreateCampaign? || ByToken(cmd) }

  /** To outsiders a campaign of others, one that does not exist, a note and its absence all look the same. */
  lemma OutsidersLearnNothing(s: State, t: State, actor: UserId, cmd: Command)
    requires !ForAnyone(cmd) && !Insider(s, actor, cmd) && !Insider(t, actor, cmd)
    ensures Verdict(s, actor, cmd) == Verdict(t, actor, cmd) && Verdict(s, actor, cmd) in {NotFound, BadRequest}
  {
  }

  lemma {:induction false} DesigneesFaults(campaign: Campaign, sheet: Sheet, users: set<UserId>,
      designees: seq<UserId>)
    ensures DesigneesVerdict(campaign, sheet, users, designees) in {Done, BadRequest, Conflict}
    decreases |designees|
  {
    if |designees| > 0 {
      DesigneesFaults(campaign, sheet, users, designees[1..]);
    }
  }

  /** A token that is no good is unavailable, whatever the reason, and nothing else ever is. */
  lemma TokenUnavailableIff(s: State, actor: UserId, cmd: Command)
    requires UniqueHashes(s.invitations)
    ensures Verdict(s, actor, cmd) == Unavailable <==>
      ByToken(cmd) && (!Open(s, cmd.campaign) || !IsUsable(s, cmd.campaign, cmd.hash, cmd.now))
  {
    if ByToken(cmd) {
      TokenIsReviewed(s, cmd.campaign, cmd.hash, cmd.invitationRevision, cmd.accessRevision, cmd.now);
    } else if cmd.AssignControllers? && cmd.campaign in s.campaigns && cmd.sheet in s.sheets {
      DesigneesFaults(s.campaigns[cmd.campaign], s.sheets[cmd.sheet], AsSet(cmd.users), cmd.designees);
    }
  }

  /** The command without the revisions and the membership generation it was sent against. */
  function Undated(cmd: Command): Command {
    match cmd
    case CreateCampaign(_, _) => cmd
    case UpdateMetadata(c, _) => UpdateMetadata(c, 0)
    case SetLifecycle(c, active, _) => SetLifecycle(c, active, 0)
    case ChangeRole(c, target, role, _) => ChangeRole(c, target, role, 0)
    case RemoveMember(c, target, _) => RemoveMember(c, target, 0)
    case IssueInvitation(c, id, role, hash, expires, _) => IssueInvitation(c, id, role, hash, expires, 0)
    case AcceptInvitation(c, hash, _, _, now) => AcceptInvitation(c, hash, 0, 0, now)
    case DeclineInvitation(c, hash, _, _, now) => DeclineInvitation(c, hash, 0, 0, now)
    case RotateInvitation(c, id, hash, expires, _, _) => RotateInvitation(c, id, hash, expires, 0, 0)
    case RevokeInvitation(c, id, _, _) => RevokeInvitation(c, id, 0, 0)
    case CreateContent(_, _, _, _) => cmd
    case ReplaceGrants(id, grants, _) => ReplaceGrants(id, grants, 0)
    case CreateInCampaign(c, id, version, state, requested, _, _) =>
      CreateInCampaign(c, id, version, state, requested, 0, 0)
    case AdoptSheet(c, id, _, _, _) => AdoptSheet(c, id, 0, 0, 0)
    case AssignControllers(c, id, users, designees, _, _, _) => AssignControllers(c, id, users, designees, 0, 0, 0)
    case ClaimSheet(c, id, _, _, _) => ClaimSheet(c, id, 0, 0, 0)
  }

  predicate OnSheet(cmd: Command) {
    cmd.CreateInCampaign? || cmd.AdoptSheet? || cmd.AssignControllers? || cmd.ClaimSheet?
  }

  lemma StalePlacementsConflict(s: State, actor: UserId, cmd: Command, uptodate: Command)
    requires OnSheet(cmd) && Undated(cmd) == Undated(uptodate) && Verdict(s, actor, uptodate).Done?
    ensures Verdict(s, actor, cmd) in {Done, Conflict}
  {
  }

  lemma StaleConsumptionsConflict(s: State, actor: UserId, cmd: Command, uptodate: Command)
    requires ByToken(cmd) && Undated(cmd) == Undated(uptodate) && Verdict(s, actor, uptodate).Done?
    ensures Verdict(s, actor, cmd) in {Done, Conflict}
  {
  }

  lemma StaleCommandsConflict(s: State, actor: UserId, cmd: Command, uptodate: Command)
    requires !OnSheet(cmd) && !ByToken(cmd) && Undated(cmd) == Undated(uptodate) && Verdict(s, actor, uptodate).Done?
    ensures Verdict(s, actor, cmd) in {Done, Conflict}
  {
  }

  /** What would be granted if sent against the rows as they are now is a conflict when sent against older ones. */
  lemma StaleRequestsConflict(s: State, actor: UserId, cmd: Command, uptodate: Command)
    requires UniqueHashes(s.invitations) && Undated(cmd) == Undated(uptodate) && Permitted(s, actor, uptodate)
    ensures Verdict(s, actor, cmd) == if Permitted(s, actor, cmd) then Done else Conflict
  {
    GrantedIff(s, actor, cmd);
    GrantedIff(s, actor, uptodate);
    if OnSheet(cmd) {
      StalePlacementsConflict(s, actor, cmd, uptodate);
    } else if ByToken(cmd) {
      StaleConsumptionsConflict(s, actor, cmd, uptodate);
    } else {
      StaleCommandsConflict(s, actor, cmd, uptodate);
    }
  }
}
