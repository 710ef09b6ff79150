/** Why a campaign command is refused: it is out of the actor's reach, or improper, or merely too late. */
module CampaignRefusals {
  import opened Wrappers
  import opened Policy
  import opened CampaignRows
  import opened CampaignLaws

  /** A co-GM reaching for what only the owner may touch. */
  predicate CoGmToo(s: State, c: CampaignId, actor: UserId, role: Role) { InRole(s, c, actor, CoGm) && role == CoGm }

  predicate HasInvitation(s: State, c: CampaignId, id: InvitationId) {
    id in s.invitations && s.invitations[id].campaign == c
  }

  predicate HasSheet(s: State, c: CampaignId, id: SheetId) { id in s.sheets && s.sheets[id].campaign == Some(c) }

  /** The actor is not, or not enough, in the campaign, or what the command names is not there for them. */
  predicate OutOfReach(s: State, actor: UserId, cmd: Command) {
    match cmd
    case CreateCampaign(_, _) => false
    case UpdateMetadata(c, _) => !InCampaign(s, c, actor) || (Open(s, c) && !Manages(s, c, actor))
    case SetLifecycle(c, _, _) => !Manages(s, c, actor)
    case ChangeRole(c, target, role, _) =>
      || !InCampaign(s, c, actor)
      || (Open(s, c) &&
          (!InCampaign(s, c, target) || InRole(s, c, actor, Player) ||
           (InRole(s, c, actor, CoGm) && !InRole(s, c, target, Owner) && role != Owner &&
            (InRole(s, c, target, CoGm) || role == CoGm))))
    case RemoveMember(c, target, _) =>
      || !InCampaign(s, c, actor) || !InCampaign(s, c, target)
      || (actor != target && InRole(s, c, actor, CoGm) && InRole(s, c, target, CoGm))
    case IssueInvitation(c, _, role, _, _, _) =>
      role != Owner && (!Manages(s, c, actor) || (Open(s, c) && CoGmToo(s, c, actor, role)))
    case AcceptInvitation(_, _, _, _, _) => false
    case DeclineInvitation(_, _, _, _, _) => false
    case RotateInvitation(c, id, _, _, _, _) =>
      !Manages(s, c, actor) || !HasInvitation(s, c, id) || CoGmToo(s, c, actor, s.invitations[id].role)
    case RevokeInvitation(c, id, _, _) =>
      !Manages(s, c, actor) || !HasInvitation(s, c, id) || CoGmToo(s, c, actor, s.invitations[id].role)
    case CreateContent(c, _, _, _) => !InCampaign(s, c, actor)
    case ReplaceGrants(id, _, _) =>
      id !in s.contents || var note := s.contents[id];
      || !InCampaign(s, note.campaign, actor)
      || (Open(s, note.campaign) &&
          (note.deleted || !Manages(s, note.campaign, actor) ||
           (note.audience == OwnerOnlyNote && note.creator != actor)))
    case CreateInCampaign(c, _, _, _, _, _, _) => !InCampaign(s, c, actor)
    case AdoptSheet(c, id, generation, expected, _) =>
      !InCampaign(s, c, actor) ||
      (PlacedBy(s, actor, c, generation, expected) && (id !in s.sheets || s.sheets[id].owner != Some(actor)))
    case AssignControllers(c, id, users, designees, generation, expected, _) =>
      NobodyTwice(users) && NobodyTwice(designees) &&
      (!Manages(s, c, actor) || (PlacedBy(s, actor, c, generation, expected) && !HasSheet(s, c, id)))
    case ClaimSheet(c, id, generation, expected, revision) =>
      !InCampaign(s, c, actor) ||
      (PlacedBy(s, actor, c, generation, expected) &&
       (!HasSheet(s, c, id) || (IsAttached(s, id, c, revision) && actor !in s.sheets[id].designations)))
  }

  /** A designee who is no member or a controller already is met before any who was designated before. */
  predicate UnfitDesignee(s: State, c: CampaignId, id: SheetId, users: seq<UserId>, designees: seq<UserId>)
    requires id in s.sheets
  {
    exists k :: 0 <= k < |designees| && (!InCampaign(s, c, designees[k]) || designees[k] in users) &&
                forall j :: 0 <= j < k ==> designees[j] !in s.sheets[id].designations
  }

  /** The request itself is at fault: it asks for what cannot be had by anyone, or of the wrong people. */
  ghost predicate Improper(s: State, actor: UserId, cmd: Command) {
    match cmd
    case ChangeRole(c, target, role, _) =>
      Open(s, c) && Manages(s, c, actor) && InCampaign(s, c, target) && (InRole(s, c, target, Owner) || role == Owner)
    case RemoveMember(c, target, _) =>
      InCampaign(s, c, actor) && InCampaign(s, c, target) &&
      (InRole(s, c, target, Owner) || (actor != target && InRole(s, c, actor, Player)))
    case IssueInvitation(_, _, role, _, _, _) => role == Owner
    case AcceptInvitation(c, hash, revision, access, now) =>
      Reviewed(s, c, hash, now, revision, access) && InCampaign(s, c, actor)
    case CreateContent(c, _, audience, grants) =>
      && InCampaign(s, c, actor) && Open(s, c)
      && (!AllIn(s, c, grants) ||
          (!Manages(s, c, actor) && (grants != {} || (audience.Some? && audience.value != OwnerOnlyNote))))
    case ReplaceGrants(id, grants, _) =>
      !OutOfReach(s, actor, cmd) && Open(s, s.contents[id].campaign) && !AllIn(s, s.contents[id].campaign, grants)
    case CreateInCampaign(c, _, version, _, requested, generation, expected) =>
      && InGeneration(s, c, actor, generation) && Open(s, c)
      && (version != s.campaigns[c].version ||
          (At(s, c, expected) &&
           (!HasRoom(s, c) ||
            (requested.Some? && !(if Manages(s, c, actor) then AllIn(s, c, AsSet(requested.value))
                                  else requested.value == [actor])))))
    case AdoptSheet(c, id, generation, expected, revision) =>
      && PlacedBy(s, actor, c, generation, expected) && id in s.sheets && s.sheets[id].owner == Some(actor)
      && s.sheets[id].campaign.None? && !s.sheets[id].archived
      && (s.sheets[id].version != s.campaigns[c].version || (s.sheets[id].revision == revision && !HasRoom(s, c)))
    case AssignControllers(c, id, users, designees, generation, expected, revision) =>
      || !NobodyTwice(users) || !NobodyTwice(designees)
      || (Manages(s, c, actor) && PlacedBy(s, actor, c, generation, expected) && IsAttached(s, id, c, revision) &&
          ((s.sheets[id].returnOwner.Some? && s.sheets[id].returnOwner.value !in users) ||
           !AllIn(s, c, AsSet(users)) || UnfitDesignee(s, c, id, users, designees)))
    case _ => false
  }

  ghost predicate SaysWhy(s: State, actor: UserId, cmd: Command) {
    && (Verdict(s, actor, cmd) == NotFound <==> OutOfReach(s, actor, cmd))
    && (Verdict(s, actor, cmd) == BadRequest <==> Improper(s, actor, cmd))
  }

  lemma MemberRefusals(s: State, actor: UserId, cmd: Command)
    requires cmd.CreateCampaign? || cmd.UpdateMetadata? || cmd.SetLifecycle? || cmd.ChangeRole? || cmd.RemoveMember?
    ensures SaysWhy(s, actor, cmd)
  {
  }

  lemma InvitationRefusals(s: State, actor: UserId, cmd: Command)
    requires cmd.IssueInvitation? || cmd.RotateInvitation? || cmd.RevokeInvitation?
    ensures SaysWhy(s, actor, cmd)
  {
  }

  lemma TokenRefusals(s: State, actor: UserId, cmd: Command)
    requires UniqueHashes(s.invitations) && ByToken(cmd)
    ensures SaysWhy(s, actor, cmd)
  {
    TokenIsReviewed(s, cmd.campaign, cmd.hash, cmd.invitationRevision, cmd.accessRevision, cmd.now);
  }

  lemma NoteRefusals(s: State, actor: UserId, cmd: Command)
    requires OnNote(cmd)
    ensures SaysWhy(s, actor, cmd)
  {
    var c := if cmd.CreateContent? then cmd.campaign
             else if cmd.content in s.contents then s.contents[cmd.content].campaign else "";
    if c in s.campaigns {
      assert AllActive(s.campaigns[c], cmd.grants) <==> AllIn(s, c, cmd.grants);
    }
  }

  lemma PlacementRefusals(s: State, actor: UserId, cmd: Command)
    requires cmd.CreateInCampaign? || cmd.AdoptSheet? || cmd.ClaimSheet?
    ensures SaysWhy(s, actor, cmd)
  {
    if cmd.CreateInCampaign? && cmd.campaign in s.campaigns {
      var named := Controllers(s, actor, cmd.campaign, cmd.requested);
      assert AllActive(s.campaigns[cmd.campaign], named) <==> AllIn(s, cmd.campaign, named);
    }
  }

  predicate UnfitAt(campaign: Campaign, sheet: Sheet, users: set<UserId>, designees: seq<UserId>, k: nat) {
    k < |designees| && (!ActiveIn(campaign, designees[k]) || designees[k] in users) &&
    forall j :: 0 <= j < k ==> designees[j] !in sheet.designations
  }

  lemma UnfitLater(campaign: Campaign, sheet: Sheet, users: set<UserId>, designees: seq<UserId>, k: nat)
    requires |designees| > 0
    ensures UnfitAt(campaign, sheet, users, designees, k + 1) <==>
      designees[0] !in sheet.designations && UnfitAt(campaign, sheet, users, designees[1..], k)
  {
    assert forall j :: 0 <= j < |designees[1..]| ==> designees[1..][j] == designees[j + 1];
    if UnfitAt(campaign, sheet, users, designees, k + 1) {
      forall j | 0 <= j < k ensures designees[1..][j] !in sheet.designations {
        assert designees[j + 1] !in sheet.designations;
      }
    }
    if designees[0] !in sheet.designations && UnfitAt(campaign, sheet, users, designees[1..], k) {
      forall j | 0 <= j < k + 1 ensures designees[j] !in sheet.designations {
        assert j > 0 ==> designees[1..][j - 1] !in sheet.designations;
      }
    }
  }

  /** The first designee at fault decides, and this is when it is an unfit one. */
  lemma {:induction false} FirstFaultIsUnfit(campaign: Campaign, sheet: Sheet, users: set<UserId>,
      designees: seq<UserId>)
    ensures DesigneesVerdict(campaign, sheet, users, designees) == BadRequest <==>
      exists k: nat :: UnfitAt(campaign, sheet, users, designees, k)
    decreases |designees|
  {
    if |designees| > 0 {
      FirstFaultIsUnfit(campaign, sheet, users, designees[1..]);
      if !ActiveIn(campaign, designees[0]) || designees[0] in users {
        assert UnfitAt(campaign, sheet, users, designees, 0);
      } else {
        if k: nat :| UnfitAt(campaign, sheet, users, designees, k) {
          UnfitLater(campaign, sheet, users, designees, k - 1);
        }
        if k: nat :| UnfitAt(campaign, sheet, users, designees[1..], k) {
          UnfitLater(campaign, sheet, users, designees, k);
        }
      }
    }
  }

  lemma AssignmentRefusals(s: State, actor: UserId, cmd: Command)
    requires cmd.AssignControllers?
    ensures SaysWhy(s, actor, cmd)
  {
    var c, id, users, designees := cmd.campaign, cmd.sheet, cmd.users, cmd.designees;
    assert Distinct(users) <==> NobodyTwice(users);
    assert Distinct(designees) <==> NobodyTwice(designees);
    if c in s.campaigns && id in s.sheets {
      DesigneesFaults(s.campaigns[c], s.sheets[id], AsSet(users), designees);
      UnfitIsUnfit(s, c, id, users, designees);
      assert AllActive(s.campaigns[c], AsSet(users)) <==> AllIn(s, c, AsSet(users));
    }
  }

  lemma UnfitIsUnfit(s: State, c: CampaignId, id: SheetId, users: seq<UserId>, designees: seq<UserId>)
    requires c in s.campaigns && id in s.sheets
    ensures DesigneesVerdict(s.campaigns[c], s.sheets[id], AsSet(users), designees) == BadRequest <==>
      UnfitDesignee(s, c, id, users, designees)
  {
    FirstFaultIsUnfit(s.campaigns[c], s.sheets[id], AsSet(users), designees);
    if k: nat :| UnfitAt(s.campaigns[c], s.sheets[id], AsSet(users), designees, k) {
      assert !InCampaign(s, c, designees[k]) || designees[k] in users;
    }
    if UnfitDesignee(s, c, id, users, designees) {
      var k :| 0 <= k < |designees| && (!InCampaign(s, c, designees[k]) || designees[k] in users) &&
               forall j :: 0 <= j < k ==> designees[j] !in s.sheets[id].designations;
      assert UnfitAt(s.campaigns[c], s.sheets[id], AsSet(users), designees, k);
    }
  }

  /**
   * Every refusal has its reason: not found exactly when out of reach, a bad request exactly when improper, unavailable
   * exactly when a token is no good; the rest is a conflict with rows that have changed or a limit that is reached.
   */
  lemma RefusalsSayWhy(s: State, actor: UserId, cmd: Command)
    requires UniqueHashes(s.invitations)
    ensures Verdict(s, actor, cmd) ==
      if Permitted(s, actor, cmd) then Done
      else if OutOfReach(s, actor, cmd) then NotFound
      else if Improper(s, actor, cmd) then BadRequest
      else if ByToken(cmd) && (!Open(s, cmd.campaign) || !IsUsable(s, cmd.campaign, cmd.hash, cmd.now)) then Unavailable
      else Conflict
  {
    GrantedIff(s, actor, cmd);
    TokenUnavailableIff(s, actor, cmd);
    if ByToken(cmd) {
      TokenRefusals(s, actor, cmd);
    } else if OnNote(cmd) {
      NoteRefusals(s, actor, cmd);
    } else if cmd.AssignControllers? {
      AssignmentRefusals(s, actor, cmd);
    } else if OnSheet(cmd) {
      PlacementRefusals(s, actor, cmd);
    } else if cmd.IssueInvitation? || cmd.RotateInvitation? || cmd.RevokeInvitation? {
      InvitationRefusals(s, actor, cmd);
    } else {
      MemberRefusals(s, actor, cmd);
    }
  }
}
