/** What every step of the campaign aggregate keeps. */
module CampaignInvariants {
  import opened Wrappers
  import opened Policy
  import opened CampaignRows

  // ---------- membership ----------

  predicate HoldsOwnerRow(campaign: Campaign, u: UserId) { u in campaign.members && campaign.members[u].role == Owner }

  ghost predicate SoleOwner(campaign: Campaign, u: UserId) {
    HoldsOwnerRow(campaign, u) && ActiveIn(campaign, u) && forall v :: HoldsOwnerRow(campaign, v) ==> v == u
  }

  ghost predicate OneActiveOwner(campaign: Campaign) { exists u :: SoleOwner(campaign, u) }

  /** Joining and leaving each advance the generation, so it is odd exactly while active. */
  predicate OddWhileActive(m: Member) { m.generation % 2 == 1 <==> m.status == Active }

  ghost predicate ValidCampaign(campaign: Campaign, maxMembers: nat) {
    && OneActiveOwner(campaign)
    && (forall u {:trigger campaign.members[u]} :: u in campaign.members ==> OddWhileActive(campaign.members[u]))
    && |ActiveMembers(campaign)| <= maxMembers
    && 1 <= campaign.accessRevision <= campaign.revision
  }

  ghost predicate AllCampaigns(campaigns: map<CampaignId, Campaign>, maxMembers: nat) {
    forall c {:trigger campaigns[c]} :: c in campaigns ==> ValidCampaign(campaigns[c], maxMembers)
  }

  // ---------- invitations ----------

  ghost predicate ValidInvitation(i: Invitation, campaigns: map<CampaignId, Campaign>) {
    i.campaign in campaigns && i.role != Owner && i.revision >= 1 &&
    match i.status
    case Pending => i.consumer.None? && i.acceptedGeneration.None?
    case Revoked => i.consumer.None? && i.acceptedGeneration.None?
    case Declined => i.consumer.Some? && i.acceptedGeneration.None?
    case Accepted =>
      i.consumer.Some? && i.acceptedGeneration.Some? &&
      WasMember(campaigns[i.campaign], i.consumer.value, i.acceptedGeneration.value)
  }

  /** Generation `g` of `u` is an active one that has begun. */
  predicate WasMember(campaign: Campaign, u: UserId, g: nat) {
    u in campaign.members && g % 2 == 1 && g <= campaign.members[u].generation
  }

  ghost predicate AllInvitations(invitations: map<InvitationId, Invitation>, campaigns: map<CampaignId, Campaign>) {
    forall i {:trigger invitations[i]} :: i in invitations ==> ValidInvitation(invitations[i], campaigns)
  }

  /** No two accepted invitations stand for one membership generation. */
  predicate SameMembership(a: Invitation, b: Invitation) {
    a.status == Accepted && b.status == Accepted && a.campaign == b.campaign && a.consumer == b.consumer &&
      a.acceptedGeneration == b.acceptedGeneration
  }

  ghost predicate OneAcceptancePerGeneration(invitations: map<InvitationId, Invitation>) {
    forall i, j {:trigger invitations[i], invitations[j]} ::
      i in invitations && j in invitations && SameMembership(invitations[i], invitations[j]) ==> i == j
  }

  ghost predicate HashesMinted(invitations: map<InvitationId, Invitation>, minted: set<TokenHash>) {
    forall i {:trigger invitations[i]} :: i in invitations ==> invitations[i].hash in minted
  }

  // ---------- content ----------

  ghost predicate ValidNote(note: Content, campaigns: map<CampaignId, Campaign>) {
    note.campaign in campaigns && AllActive(campaigns[note.campaign], note.grants)
  }

  ghost predicate AllNotes(contents: map<ContentId, Content>, campaigns: map<CampaignId, Campaign>) {
    forall k {:trigger contents[k]} :: k in contents ==> ValidNote(contents[k], campaigns)
  }

  // ---------- custody ----------

  ghost predicate Unattached(sheet: Sheet) {
    sheet.campaign.None? && sheet.owner.Some? && sheet.returnOwner.None? && sheet.controllers == map[] &&
      sheet.designations == map[]
  }

  ghost predicate Controlled(sheet: Sheet, c: CampaignId, campaign: Campaign) {
    forall u {:trigger sheet.controllers[u]} ::
      u in sheet.controllers ==> sheet.controllers[u] == c && ActiveIn(campaign, u)
  }

  ghost predicate Designated(sheet: Sheet, c: CampaignId, campaign: Campaign) {
    forall u {:trigger sheet.designations[u]} :: u in sheet.designations ==>
      sheet.designations[u].campaign == c && ActiveIn(campaign, u) &&
        ActiveIn(campaign, sheet.designations[u].designator)
  }

  ghost predicate AttachedTo(sheet: Sheet, c: CampaignId, campaign: Campaign) {
    && sheet.campaign == Some(c) && sheet.owner.None?
    && sheet.version == campaign.version
    && Controlled(sheet, c, campaign) && Designated(sheet, c, campaign)
    && (sheet.returnOwner.Some? ==>
         ActiveIn(campaign, sheet.returnOwner.value) && sheet.returnOwner.value in sheet.controllers)
  }

  /** Placement rows record one attachment each; the only open one is the present attachment's. */
  ghost predicate ValidPlacements(sheet: Sheet) {
    var ps := sheet.placements;
    && (forall i, j :: 0 <= i < j < |ps| ==> ps[i].generation < ps[j].generation)
    && (forall i :: 0 <= i < |ps| ==> ps[i].generation <= sheet.generation)
    && (forall i :: 0 <= i < |ps| ==> (!ps[i].ended <==> (sheet.campaign.Some? && i == |ps| - 1)))
    && (sheet.campaign.Some? ==>
         |ps| > 0 && ps[|ps| - 1] == Placement(sheet.generation, sheet.campaign.value, sheet.returnOwner, false))
  }

  ghost predicate ValidSheet(sheet: Sheet, campaigns: map<CampaignId, Campaign>) {
    && ValidPlacements(sheet)
    && (if sheet.campaign.None? then Unattached(sheet)
        else
          sheet.campaign.value in campaigns &&
          AttachedTo(sheet, sheet.campaign.value, campaigns[sheet.campaign.value]))
  }

  ghost predicate AllSheets(sheets: map<SheetId, Sheet>, campaigns: map<CampaignId, Campaign>) {
    forall k {:trigger sheets[k]} :: k in sheets ==> ValidSheet(sheets[k], campaigns)
  }

  ghost predicate WithinAttachments(sheets: map<SheetId, Sheet>, maxAttached: nat) {
    forall c {:trigger Attached(sheets, c)} :: |Attached(sheets, c)| <= maxAttached
  }

  ghost predicate Inv(s: State) {
    && s.limits.maxMembers >= 1
    && AllCampaigns(s.campaigns, s.limits.maxMembers)
    && AllInvitations(s.invitations, s.campaigns)
    && OneAcceptancePerGeneration(s.invitations) && UniqueHashes(s.invitations) && HashesMinted(s.invitations, s.minted)
    && AllNotes(s.contents, s.campaigns)
    && AllSheets(s.sheets, s.campaigns)
    && WithinAttachments(s.sheets, s.limits.maxAttached)
  }

  // ---------- nobody stops being a member except by removal ----------

  ghost predicate CampaignExtends(a: Campaign, b: Campaign) {
    && a.version == b.version
    && (forall u {:trigger ActiveIn(b, u)} {:trigger ActiveIn(a, u)} :: ActiveIn(a, u) ==> ActiveIn(b, u))
    && (forall u {:trigger b.members[u]} {:trigger a.members[u]} ::
         u in a.members ==> u in b.members && a.members[u].generation <= b.members[u].generation)
  }

  ghost predicate Extends(a: map<CampaignId, Campaign>, b: map<CampaignId, Campaign>) {
    forall c {:trigger b[c]} {:trigger a[c]} :: c in a ==> c in b && CampaignExtends(a[c], b[c])
  }

  lemma SheetStaysValid(sheet: Sheet, a: map<CampaignId, Campaign>, b: map<CampaignId, Campaign>)
    requires ValidSheet(sheet, a) && Extends(a, b)
    ensures ValidSheet(sheet, b)
  {
    if sheet.campaign.Some? {
      var c := sheet.campaign.value;
      assert CampaignExtends(a[c], b[c]);
      assert Controlled(sheet, c, b[c]);
      assert Designated(sheet, c, b[c]);
    }
  }

  lemma SheetsStayValid(sheets: map<SheetId, Sheet>, a: map<CampaignId, Campaign>, b: map<CampaignId, Campaign>)
    requires AllSheets(sheets, a) && Extends(a, b)
    ensures AllSheets(sheets, b)
  {
    forall k | k in sheets ensures ValidSheet(sheets[k], b) {
      SheetStaysValid(sheets[k], a, b);
    }
  }

  lemma NotesStayValid(contents: map<ContentId, Content>, a: map<CampaignId, Campaign>, b: map<CampaignId, Campaign>)
    requires AllNotes(contents, a) && Extends(a, b)
    ensures AllNotes(contents, b)
  {
    forall k | k in contents ensures ValidNote(contents[k], b) {
      var note := contents[k];
      assert CampaignExtends(a[note.campaign], b[note.campaign]);
    }
  }

  /** Even removal leaves accepted invitations true: rows stay and generations only grow. */
  ghost predicate CampaignGrows(a: Campaign, b: Campaign) {
    forall u {:trigger b.members[u]} {:trigger a.members[u]} ::
      u in a.members ==> u in b.members && a.members[u].generation <= b.members[u].generation
  }

  ghost predicate Grows(a: map<CampaignId, Campaign>, b: map<CampaignId, Campaign>) {
    forall c {:trigger b[c]} {:trigger a[c]} :: c in a ==> c in b && CampaignGrows(a[c], b[c])
  }

  lemma InvitationStaysValid(i: Invitation, a: map<CampaignId, Campaign>, b: map<CampaignId, Campaign>)
    requires ValidInvitation(i, a) && Grows(a, b)
    ensures ValidInvitation(i, b)
  {
    assert CampaignGrows(a[i.campaign], b[i.campaign]);
  }

  lemma InvitationsStayValid(invitations: map<InvitationId, Invitation>, a: map<CampaignId, Campaign>,
      b: map<CampaignId, Campaign>)
    requires AllInvitations(invitations, a) && Grows(a, b)
    ensures AllInvitations(invitations, b)
  {
    forall i | i in invitations ensures ValidInvitation(invitations[i], b) {
      InvitationStaysValid(invitations[i], a, b);
    }
  }

  // ---------- one campaign changes ----------

  lemma PutCampaign(s: State, c: CampaignId, campaign: Campaign)
    requires Inv(s) && ValidCampaign(campaign, s.limits.maxMembers)
    requires c in s.campaigns ==> CampaignExtends(s.campaigns[c], campaign)
    ensures Inv(s.(campaigns := s.campaigns[c := campaign]))
    ensures Extends(s.campaigns, s.campaigns[c := campaign]) && Grows(s.campaigns, s.campaigns[c := campaign])
  {
    var b := s.campaigns[c := campaign];
    forall d | d in s.campaigns
      ensures d in b && CampaignExtends(s.campaigns[d], b[d]) && CampaignGrows(s.campaigns[d], b[d])
    {
    }
    SheetsStayValid(s.sheets, s.campaigns, b);
    NotesStayValid(s.contents, s.campaigns, b);
    InvitationsStayValid(s.invitations, s.campaigns, b);
  }

  lemma SameMembersIsValid(a: Campaign, b: Campaign, maxMembers: nat)
    requires ValidCampaign(a, maxMembers) && b.members == a.members && b.version == a.version &&
      1 <= b.accessRevision <= b.revision
    ensures ValidCampaign(b, maxMembers) && CampaignExtends(a, b)
  {
    assert ActiveMembers(b) == ActiveMembers(a);
    var u :| SoleOwner(a, u);
    forall v | HoldsOwnerRow(b, v) ensures v == u {
      assert HoldsOwnerRow(a, v);
    }
    assert SoleOwner(b, u);
  }

  lemma BumpedIsValid(campaign: Campaign, maxMembers: nat)
    requires ValidCampaign(campaign, maxMembers)
    ensures ValidCampaign(Bumped(campaign), maxMembers) && CampaignExtends(campaign, Bumped(campaign))
  {
    var b := Bumped(campaign);
    SameMembersIsValid(campaign, b, maxMembers);
  }

  /** The owner stays when another row changes into anything but an owner's. */
  lemma OwnerStays(campaign: Campaign, u: UserId, m: Member)
    requires OneActiveOwner(campaign) && !HoldsOwnerRow(campaign, u) && m.role != Owner
    ensures OneActiveOwner(WithMember(campaign, u, m))
  {
    var o :| SoleOwner(campaign, o);
    var b := WithMember(campaign, u, m);
    forall v | HoldsOwnerRow(b, v) ensures v == o {
      assert HoldsOwnerRow(campaign, v);
    }
    assert SoleOwner(b, o);
  }

  lemma OwnerRowIsActive(campaign: Campaign, u: UserId)
    requires OneActiveOwner(campaign) && HoldsOwnerRow(campaign, u)
    ensures ActiveIn(campaign, u)
  {
  }

  lemma WithMemberKeepsParity(campaign: Campaign, u: UserId, m: Member)
    requires forall v {:trigger campaign.members[v]} :: v in campaign.members ==> OddWhileActive(campaign.members[v])
    requires OddWhileActive(m)
    ensures forall v {:trigger WithMember(campaign, u, m).members[v]} ::
      v in WithMember(campaign, u, m).members ==> OddWhileActive(WithMember(campaign, u, m).members[v])
  {
  }

  lemma RoleChangeIsValid(campaign: Campaign, u: UserId, role: Role, maxMembers: nat)
    requires ValidCampaign(campaign, maxMembers) && ActiveIn(campaign, u) && campaign.members[u].role != Owner &&
      role != Owner
    ensures var b := WithMember(campaign, u, campaign.members[u].(role := role));
      ValidCampaign(b, maxMembers) && CampaignExtends(campaign, b)
  {
    var m := campaign.members[u].(role := role);
    var b := WithMember(campaign, u, m);
    OwnerStays(campaign, u, m);
    WithMemberKeepsParity(campaign, u, m);
    assert ActiveMembers(b) == ActiveMembers(campaign);
  }

  lemma JoinIsValid(campaign: Campaign, u: UserId, role: Role, maxMembers: nat)
    requires ValidCampaign(campaign, maxMembers) && !ActiveIn(campaign, u) && role != Owner &&
      |ActiveMembers(campaign)| < maxMembers
    ensures var m := Joined(Find(campaign.members, u), role);
      ValidCampaign(WithMember(campaign, u, m), maxMembers) && CampaignExtends(campaign, WithMember(campaign, u, m)) &&
        m.generation % 2 == 1
  {
    var m := Joined(Find(campaign.members, u), role);
    var b := WithMember(campaign, u, m);
    if HoldsOwnerRow(campaign, u) {
      OwnerRowIsActive(campaign, u);
    }
    OwnerStays(campaign, u, m);
    if u in campaign.members {
      assert OddWhileActive(campaign.members[u]);
    }
    WithMemberKeepsParity(campaign, u, m);
    assert ActiveMembers(b) == ActiveMembers(campaign) + {u};
  }

  lemma LeavingIsValid(campaign: Campaign, u: UserId, maxMembers: nat)
    requires ValidCampaign(campaign, maxMembers) && ActiveIn(campaign, u) && campaign.members[u].role != Owner
    ensures ValidCampaign(WithMember(campaign, u, Left(campaign.members[u])), maxMembers)
    ensures CampaignGrows(campaign, WithMember(campaign, u, Left(campaign.members[u])))
  {
    var m := Left(campaign.members[u]);
    var b := WithMember(campaign, u, m);
    OwnerStays(campaign, u, m);
    assert OddWhileActive(campaign.members[u]);
    WithMemberKeepsParity(campaign, u, m);
    assert ActiveMembers(b) == ActiveMembers(campaign) - {u};
  }

  lemma FoundingIsValid(actor: UserId, version: VersionId, maxMembers: nat)
    requires maxMembers >= 1
    ensures ValidCampaign(Campaign(true, version, 1, 1, map[actor := Member(Owner, Active, 1)]), maxMembers)
  {
    var b := Campaign(true, version, 1, 1, map[actor := Member(Owner, Active, 1)]);
    assert ActiveMembers(b) == {actor};
    assert SoleOwner(b, actor);
  }

  // ---------- removal ----------

  ghost function AfterRemoval(s: State, c: CampaignId, u: UserId): State
    requires c in s.campaigns && u in s.campaigns[c].members
  {
    s.(campaigns := s.campaigns[c := WithMember(Bumped(s.campaigns[c]), u, Left(s.campaigns[c].members[u]))],
      contents := map k | k in s.contents :: Revoking(s.contents[k], c, u),
      sheets := map k | k in s.sheets :: Released(s.sheets[k], c, u))
  }

  /** Everybody but `u` stays active. */
  ghost predicate OnlyLeaves(a: Campaign, b: Campaign, u: UserId) {
    && a.version == b.version
    && forall v {:trigger ActiveIn(b, v)} {:trigger ActiveIn(a, v)} ::
         v != u && ActiveIn(a, v) ==> ActiveIn(b, v)
  }

  lemma ReturnedIsValid(sheet: Sheet, campaigns: map<CampaignId, Campaign>)
    requires ValidPlacements(sheet) && sheet.returnOwner.Some?
    ensures ValidSheet(Returned(sheet), campaigns)
  {
    var r := Returned(sheet);
    forall i, j | 0 <= i < j < |r.placements| ensures r.placements[i].generation < r.placements[j].generation {
      assert sheet.placements[i].generation < sheet.placements[j].generation;
    }
    forall i | 0 <= i < |r.placements| ensures r.placements[i].generation <= r.generation && r.placements[i].ended {
      assert sheet.placements[i].generation <= sheet.generation;
    }
  }

  lemma ReleasedStaysAttached(sheet: Sheet, c: CampaignId, a: Campaign, b: Campaign, u: UserId)
    requires AttachedTo(sheet, c, a) && OnlyLeaves(a, b, u) && sheet.returnOwner != Some(u)
    ensures AttachedTo(WithoutMember(sheet, c, u), c, b)
  {
    var r := WithoutMember(sheet, c, u);
    forall v | v in r.controllers ensures r.controllers[v] == c && ActiveIn(b, v) {
      assert v in sheet.controllers && sheet.controllers[v] == c;
    }
    forall v | v in r.designations
      ensures r.designations[v].campaign == c && ActiveIn(b, v) && ActiveIn(b, r.designations[v].designator)
    {
      assert v in sheet.designations && sheet.designations[v].campaign == c;
    }
  }

  /** A sheet elsewhere has nothing of this campaign on it. */
  lemma ReleaseElsewhere(sheet: Sheet, c: CampaignId, u: UserId, campaigns: map<CampaignId, Campaign>)
    requires ValidSheet(sheet, campaigns) && sheet.campaign != Some(c)
    ensures Released(sheet, c, u) == sheet
  {
    var r := WithoutMember(sheet, c, u);
    if sheet.campaign.Some? {
      assert forall v :: v in sheet.controllers ==> sheet.controllers[v] != c;
      assert forall v :: v in sheet.designations ==> sheet.designations[v].campaign != c;
    }
    assert r.controllers == sheet.controllers && r.designations == sheet.designations;
  }

  lemma ReleasedIsValid(sheet: Sheet, c: CampaignId, u: UserId, a: map<CampaignId, Campaign>, campaign: Campaign)
    requires ValidSheet(sheet, a) && c in a && OnlyLeaves(a[c], campaign, u)
    ensures ValidSheet(Released(sheet, c, u), a[c := campaign])
  {
    if sheet.campaign != Some(c) {
      ReleaseElsewhere(sheet, c, u, a);
    } else if sheet.returnOwner == Some(u) {
      ReturnedIsValid(sheet, a[c := campaign]);
    } else {
      ReleasedStaysAttached(sheet, c, a[c], campaign, u);
    }
  }

  lemma RevokingIsValid(note: Content, c: CampaignId, u: UserId, a: map<CampaignId, Campaign>, campaign: Campaign)
    requires ValidNote(note, a) && c in a && OnlyLeaves(a[c], campaign, u)
    ensures ValidNote(Revoking(note, c, u), a[c := campaign])
  {
  }

  /** The hardest step: removal spans membership, grants, controllers, designations, placements and custody. */
  lemma RemovalKeepsInv(s: State, c: CampaignId, u: UserId)
    requires Inv(s) && c in s.campaigns && ActiveIn(s.campaigns[c], u) && s.campaigns[c].members[u].role != Owner
    ensures Inv(AfterRemoval(s, c, u))
  {
    var campaign := WithMember(Bumped(s.campaigns[c]), u, Left(s.campaigns[c].members[u]));
    BumpedIsValid(s.campaigns[c], s.limits.maxMembers);
    LeavingIsValid(Bumped(s.campaigns[c]), u, s.limits.maxMembers);
    var b := s.campaigns[c := campaign];
    forall d | d in s.campaigns ensures d in b && CampaignGrows(s.campaigns[d], b[d]) {
    }
    InvitationsStayValid(s.invitations, s.campaigns, b);
    assert OnlyLeaves(s.campaigns[c], campaign, u);
    var t := AfterRemoval(s, c, u);
    forall k | k in t.sheets ensures ValidSheet(t.sheets[k], b) {
      ReleasedIsValid(s.sheets[k], c, u, s.campaigns, campaign);
    }
    forall k | k in t.contents ensures ValidNote(t.contents[k], b) {
      RevokingIsValid(s.contents[k], c, u, s.campaigns, campaign);
    }
    RemovalDetachesOnly(s, c, u);
  }

  lemma RemovalDetachesOnly(s: State, c: CampaignId, u: UserId)
    requires c in s.campaigns && u in s.campaigns[c].members && WithinAttachments(s.sheets, s.limits.maxAttached)
    ensures WithinAttachments(AfterRemoval(s, c, u).sheets, s.limits.maxAttached)
  {
    var t := AfterRemoval(s, c, u);
    forall d ensures |Attached(t.sheets, d)| <= s.limits.maxAttached {
      assert Attached(t.sheets, d) <= Attached(s.sheets, d);
      Smaller(Attached(t.sheets, d), Attached(s.sheets, d));
    }
  }

  lemma Smaller(a: set<SheetId>, b: set<SheetId>)
    requires a <= b
    ensures |a| <= |b|
  {
    assert b == a + (b - a);
  }

  // ---------- invitations change ----------

  /** One invitation row is replaced or added; what makes it stand out from the others is checked once. */
  lemma PutInvitation(s: State, id: InvitationId, i: Invitation, minted: set<TokenHash>)
    requires Inv(s) && ValidInvitation(i, s.campaigns)
    requires s.minted <= minted && i.hash in minted
    requires (id in s.invitations && s.invitations[id].hash == i.hash) || i.hash !in s.minted
    requires forall j {:trigger s.invitations[j]} ::
      j in s.invitations && j != id ==> !SameMembership(i, s.invitations[j]) && !SameMembership(s.invitations[j], i)
    ensures Inv(s.(invitations := s.invitations[id := i], minted := minted))
  {
    var b := s.invitations[id := i];
    assert UniqueHashes(b) by {
      forall j, k | j in b && k in b && b[j].hash == b[k].hash ensures j == k {
      }
    }
    assert AllInvitations(b, s.campaigns);
    assert HashesMinted(b, minted);
  }

  /** A new acceptance belongs to a generation that no earlier acceptance can have. */
  lemma AcceptanceIsNew(s: State, c: CampaignId, u: UserId, i: Invitation, j: Invitation)
    requires c in s.campaigns && ValidInvitation(j, s.campaigns)
    requires i.campaign == c && i.consumer == Some(u) &&
      i.acceptedGeneration == Some(Joined(Find(s.campaigns[c].members, u), i.role).generation)
    ensures !SameMembership(i, j) && !SameMembership(j, i)
  {
  }

  lemma JoiningKeepsInv(s: State, c: CampaignId, u: UserId, role: Role)
    requires Inv(s) && c in s.campaigns && role != Owner && !ActiveIn(s.campaigns[c], u)
    requires |ActiveMembers(s.campaigns[c])| < s.limits.maxMembers
    ensures var m := Joined(MemberOf(s.campaigns, c, u), role);
      Inv(s.(campaigns := s.campaigns[c := WithMember(Bumped(s.campaigns[c]), u, m)])) && m.generation % 2 == 1
  {
    var a := s.campaigns[c];
    BumpedIsValid(a, s.limits.maxMembers);
    assert ActiveMembers(Bumped(a)) == ActiveMembers(a);
    JoinIsValid(Bumped(a), u, role, s.limits.maxMembers);
    var b := WithMember(Bumped(a), u, Joined(MemberOf(s.campaigns, c, u), role));
    assert CampaignExtends(a, b);
    PutCampaign(s, c, b);
  }

  /** Invitation `id` is accepted by `u`: membership, invitation and campaign change together. */
  ghost function AfterAcceptance(s: State, c: CampaignId, id: InvitationId, u: UserId): State
    requires c in s.campaigns && id in s.invitations
  {
    var m := Joined(MemberOf(s.campaigns, c, u), s.invitations[id].role);
    s.(campaigns := s.campaigns[c := WithMember(Bumped(s.campaigns[c]), u, m)],
      invitations := s.invitations[id := Consumed(s.invitations[id], Accepted, u, Some(m.generation))])
  }

  lemma AcceptanceKeepsInv(s: State, c: CampaignId, id: InvitationId, u: UserId)
    requires Inv(s) && c in s.campaigns && id in s.invitations && s.invitations[id].campaign == c
    requires !ActiveIn(s.campaigns[c], u) && |ActiveMembers(s.campaigns[c])| < s.limits.maxMembers
    ensures Inv(AfterAcceptance(s, c, id, u))
  {
    var was := s.invitations[id];
    assert ValidInvitation(was, s.campaigns);
    JoiningKeepsInv(s, c, u, was.role);
    var after := AfterAcceptance(s, c, id, u);
    var i := after.invitations[id];
    forall j | j in s.invitations && j != id
      ensures !SameMembership(i, s.invitations[j]) && !SameMembership(s.invitations[j], i)
    {
      assert ValidInvitation(s.invitations[j], s.campaigns);
      AcceptanceIsNew(s, c, u, i, s.invitations[j]);
    }
    assert HashesMinted(s.invitations, s.minted);
    PutInvitation(s.(campaigns := after.campaigns), id, i, s.minted);
  }

  lemma AcceptKeepsInv(s: State, actor: UserId, cmd: Command)
    requires Inv(s) && cmd.AcceptInvitation? && Verdict(s, actor, cmd).Done?
    ensures Inv(Effect(s, actor, cmd))
  {
    AcceptanceKeepsInv(s, cmd.campaign, WithHash(s.invitations, cmd.hash), actor);
  }

  function PutBumped(s: State, c: CampaignId): State
    requires c in s.campaigns
  {
    s.(campaigns := s.campaigns[c := Bumped(s.campaigns[c])])
  }

  lemma BumpKeepsInv(s: State, c: CampaignId)
    requires Inv(s) && c in s.campaigns
    ensures Inv(PutBumped(s, c))
    ensures Extends(s.campaigns, PutBumped(s, c).campaigns)
  {
    BumpedIsValid(s.campaigns[c], s.limits.maxMembers);
    PutCampaign(s, c, Bumped(s.campaigns[c]));
  }

  lemma NewInvitationKeepsInv(s: State, c: CampaignId, id: InvitationId, role: Role, hash: TokenHash, expires: int)
    requires Inv(s) && c in s.campaigns && role != Owner && id !in s.invitations && hash !in s.minted
    ensures Inv(PutBumped(s, c).(
      invitations := s.invitations[id := Invitation(c, role, hash, expires, Pending, 1, None, None)],
      minted := s.minted + {hash}))
  {
    BumpKeepsInv(s, c);
    PutInvitation(PutBumped(s, c), id, Invitation(c, role, hash, expires, Pending, 1, None, None), s.minted + {hash});
  }

  lemma IssueEffect(s: State, actor: UserId, cmd: Command)
    requires cmd.IssueInvitation? && Verdict(s, actor, cmd).Done?
    ensures cmd.campaign in s.campaigns && cmd.role != Owner
    ensures Effect(s, actor, cmd) == PutBumped(s, cmd.campaign).(
      invitations := s.invitations[cmd.invitation :=
        Invitation(cmd.campaign, cmd.role, cmd.hash, cmd.expires, Pending, 1, None, None)],
      minted := s.minted + {cmd.hash})
  {
  }

  lemma IssueKeepsInv(s: State, actor: UserId, cmd: Command)
    requires Inv(s) && NewIds(s, cmd) && cmd.IssueInvitation? && Verdict(s, actor, cmd).Done?
    ensures Inv(Effect(s, actor, cmd))
  {
    IssueEffect(s, actor, cmd);
    NewInvitationKeepsInv(s, cmd.campaign, cmd.invitation, cmd.role, cmd.hash, cmd.expires);
  }

  /** An invitation that is not becoming accepted. */
  lemma ReplaceInvitation(s: State, c: CampaignId, id: InvitationId, i: Invitation, minted: set<TokenHash>)
    requires Inv(s) && c in s.campaigns && id in s.invitations && s.minted <= minted && i.hash in minted
    requires i.hash == s.invitations[id].hash || i.hash !in s.minted
    requires i.status != Accepted
    requires ValidInvitation(s.invitations[id], s.campaigns) ==> ValidInvitation(i, s.campaigns)
    ensures Inv(PutBumped(s, c).(invitations := s.invitations[id := i], minted := minted))
  {
    BumpKeepsInv(s, c);
    var t := PutBumped(s, c);
    assert ValidInvitation(s.invitations[id], s.campaigns);
    InvitationStaysValid(i, s.campaigns, t.campaigns);
    PutInvitation(t, id, i, minted);
  }

  lemma DeclineKeepsInv(s: State, actor: UserId, cmd: Command)
    requires Inv(s) && cmd.DeclineInvitation? && Verdict(s, actor, cmd).Done?
    ensures Inv(Effect(s, actor, cmd))
  {
    var id := WithHash(s.invitations, cmd.hash);
    assert HashesMinted(s.invitations, s.minted);
    ReplaceInvitation(s, cmd.campaign, id, Consumed(s.invitations[id], Declined, actor, None), s.minted);
  }

  lemma RotateKeepsInv(s: State, actor: UserId, cmd: Command)
    requires Inv(s) && NewIds(s, cmd) && cmd.RotateInvitation? && Verdict(s, actor, cmd).Done?
    ensures Inv(Effect(s, actor, cmd))
  {
    ReplaceInvitation(s, cmd.campaign, cmd.invitation, Rotated(s.invitations[cmd.invitation], cmd.hash, cmd.expires),
      s.minted + {cmd.hash});
  }

  lemma RevokeKeepsInv(s: State, actor: UserId, cmd: Command)
    requires Inv(s) && cmd.RevokeInvitation? && Verdict(s, actor, cmd).Done?
    ensures Inv(Effect(s, actor, cmd))
  {
    assert HashesMinted(s.invitations, s.minted);
    if s.invitations[cmd.invitation].status.Pending? {
      ReplaceInvitation(s, cmd.campaign, cmd.invitation, RevokedInvitation(s.invitations[cmd.invitation]), s.minted);
    } else {
      assert Effect(s, actor, cmd).campaigns == s.campaigns;
    }
  }

  // ---------- campaigns change ----------

  lemma CreateKeepsInv(s: State, actor: UserId, cmd: Command)
    requires Inv(s) && NewIds(s, cmd) && cmd.CreateCampaign?
    ensures Inv(Effect(s, actor, cmd))
  {
    FoundingIsValid(actor, cmd.version, s.limits.maxMembers);
    PutCampaign(s, cmd.campaign, Campaign(true, cmd.version, 1, 1, map[actor := Member(Owner, Active, 1)]));
  }

  /** Metadata and lifecycle leave the members alone. */
  lemma CampaignRowKeepsInv(s: State, actor: UserId, cmd: Command)
    requires Inv(s) && (cmd.UpdateMetadata? || cmd.SetLifecycle?) && Verdict(s, actor, cmd).Done?
    ensures Inv(Effect(s, actor, cmd))
  {
    var a, b := s.campaigns[cmd.campaign], Effect(s, actor, cmd).campaigns[cmd.campaign];
    assert ValidCampaign(a, s.limits.maxMembers);
    SameMembersIsValid(a, b, s.limits.maxMembers);
    PutCampaign(s, cmd.campaign, b);
  }

  lemma RoleChangeKeepsInv(s: State, c: CampaignId, u: UserId, role: Role)
    requires Inv(s) && c in s.campaigns && ActiveIn(s.campaigns[c], u) && s.campaigns[c].members[u].role != Owner &&
      role != Owner
    ensures Inv(s.(campaigns :=
      s.campaigns[c := WithMember(Bumped(s.campaigns[c]), u, s.campaigns[c].members[u].(role := role))]))
  {
    BumpedIsValid(s.campaigns[c], s.limits.maxMembers);
    RoleChangeIsValid(Bumped(s.campaigns[c]), u, role, s.limits.maxMembers);
    var b := WithMember(Bumped(s.campaigns[c]), u, s.campaigns[c].members[u].(role := role));
    assert CampaignExtends(s.campaigns[c], b);
    PutCampaign(s, c, b);
  }

  lemma RoleKeepsInv(s: State, actor: UserId, cmd: Command)
    requires Inv(s) && cmd.ChangeRole? && Verdict(s, actor, cmd).Done?
    ensures Inv(Effect(s, actor, cmd))
  {
    RoleChangeKeepsInv(s, cmd.campaign, cmd.target, cmd.role);
  }

  // ---------- notes change ----------

  lemma PutNote(s: State, id: ContentId, note: Content)
    requires Inv(s) && ValidNote(note, s.campaigns)
    ensures Inv(s.(contents := s.contents[id := note]))
  {
    assert AllNotes(s.contents[id := note], s.campaigns);
  }

  // ---------- sheets change ----------

  ghost predicate MayAttach(sheets: map<SheetId, Sheet>, id: SheetId, sheet: Sheet, maxAttached: nat) {
    || (id in sheets && sheets[id].campaign == sheet.campaign)
    || sheet.campaign.None?
    || |Attached(sheets, sheet.campaign.value)| < maxAttached
  }

  lemma PutAttaches(sheets: map<SheetId, Sheet>, id: SheetId, sheet: Sheet, maxAttached: nat)
    requires WithinAttachments(sheets, maxAttached) && MayAttach(sheets, id, sheet, maxAttached)
    ensures WithinAttachments(sheets[id := sheet], maxAttached)
  {
    var b := sheets[id := sheet];
    forall c ensures |Attached(b, c)| <= maxAttached {
      if sheet.campaign == Some(c) && !(id in sheets && sheets[id].campaign == sheet.campaign) {
        assert Attached(b, c) == Attached(sheets, c) + {id};
      } else {
        assert Attached(b, c) <= Attached(sheets, c);
        Smaller(Attached(b, c), Attached(sheets, c));
      }
    }
  }

  lemma PutSheet(s: State, id: SheetId, sheet: Sheet)
    requires Inv(s) && ValidSheet(sheet, s.campaigns) && MayAttach(s.sheets, id, sheet, s.limits.maxAttached)
    ensures Inv(s.(sheets := s.sheets[id := sheet]))
  {
    PutAttaches(s.sheets, id, sheet, s.limits.maxAttached);
    assert AllSheets(s.sheets[id := sheet], s.campaigns);
  }

  lemma NewSheetIsValid(c: CampaignId, campaigns: map<CampaignId, Campaign>, state: SheetState, users: set<UserId>)
    requires c in campaigns && AllActive(campaigns[c], users)
    ensures ValidSheet(NewSheet(c, campaigns[c].version, state, users), campaigns)
  {
  }

  lemma AdoptedIsValid(sheet: Sheet, c: CampaignId, actor: UserId, campaigns: map<CampaignId, Campaign>)
    requires ValidSheet(sheet, campaigns) && sheet.campaign.None? && c in campaigns
    requires ActiveIn(campaigns[c], actor) && sheet.version == campaigns[c].version
    ensures ValidSheet(Adopted(sheet, c, actor), campaigns)
  {
    var r := Adopted(sheet, c, actor);
    forall i | 0 <= i < |r.placements|
      ensures r.placements[i].generation <= r.generation && (!r.placements[i].ended <==> i == |r.placements| - 1)
    {
      if i < |sheet.placements| {
        assert r.placements[i] == sheet.placements[i];
      }
    }
    assert Controlled(r, c, campaigns[c]);
  }

  lemma {:induction false} DesigneesAreActive(campaign: Campaign, sheet: Sheet, users: set<UserId>,
      designees: seq<UserId>)
    requires DesigneesVerdict(campaign, sheet, users, designees).Done?
    ensures forall i ::
      0 <= i < |designees| ==>
      ActiveIn(campaign, designees[i]) && designees[i] !in users && designees[i] !in sheet.designations
  {
    if |designees| > 0 {
      DesigneesAreActive(campaign, sheet, users, designees[1..]);
      forall i | 0 <= i < |designees|
        ensures ActiveIn(campaign, designees[i]) && designees[i] !in users && designees[i] !in sheet.designations
      {
        assert i > 0 ==> designees[i] == designees[1..][i - 1];
      }
    }
  }

  lemma AssignedIsValid(sheet: Sheet, c: CampaignId, users: set<UserId>, designees: seq<UserId>, actor: UserId,
      campaigns: map<CampaignId, Campaign>)
    requires ValidSheet(sheet, campaigns) && sheet.campaign == Some(c)
    requires AllActive(campaigns[c], users) && ActiveIn(campaigns[c], actor)
    requires sheet.returnOwner.Some? ==> sheet.returnOwner.value in users
    requires DesigneesVerdict(campaigns[c], sheet, users, designees).Done?
    ensures ValidSheet(Assigned(sheet, c, users, AsSet(designees), actor), campaigns)
  {
    DesigneesAreActive(campaigns[c], sheet, users, designees);
    var r := Assigned(sheet, c, users, AsSet(designees), actor);
    assert Controlled(r, c, campaigns[c]);
    forall u | u in r.designations
      ensures r.designations[u].campaign == c && ActiveIn(campaigns[c], u) &&
        ActiveIn(campaigns[c], r.designations[u].designator)
    {
      if u !in AsSet(designees) {
        assert u in sheet.designations && r.designations[u] == sheet.designations[u];
      }
    }
  }

  lemma ClaimedIsValid(sheet: Sheet, c: CampaignId, actor: UserId, campaigns: map<CampaignId, Campaign>)
    requires ValidSheet(sheet, campaigns) && sheet.campaign == Some(c) && ActiveIn(campaigns[c], actor)
    ensures ValidSheet(Claimed(sheet, c, actor), campaigns)
  {
    var r := Claimed(sheet, c, actor);
    assert Controlled(r, c, campaigns[c]);
    assert Designated(r, c, campaigns[c]);
  }

  /** The sheet changes, the campaign is bumped. */
  lemma PlaceSheet(s: State, c: CampaignId, id: SheetId, sheet: Sheet)
    requires Inv(s) && c in s.campaigns && ValidSheet(sheet, s.campaigns) && sheet.campaign == Some(c)
    requires (id in s.sheets && s.sheets[id].campaign == Some(c)) || |Attached(s.sheets, c)| < s.limits.maxAttached
    ensures Inv(PutBumped(s, c).(sheets := s.sheets[id := sheet]))
  {
    BumpKeepsInv(s, c);
    SheetStaysValid(sheet, s.campaigns, PutBumped(s, c).campaigns);
    PutSheet(PutBumped(s, c), id, sheet);
  }

  lemma CreateSheetKeepsInv(s: State, actor: UserId, cmd: Command)
    requires Inv(s) && NewIds(s, cmd) && cmd.CreateInCampaign? && Verdict(s, actor, cmd).Done?
    ensures Inv(Effect(s, actor, cmd))
  {
    var c := cmd.campaign;
    var users := Controllers(s, actor, c, cmd.requested);
    NewSheetIsValid(c, s.campaigns, cmd.state, users);
    PlaceSheet(s, c, cmd.sheet, NewSheet(c, s.campaigns[c].version, cmd.state, users));
  }

  lemma AdoptKeepsInv(s: State, c: CampaignId, id: SheetId, actor: UserId)
    requires Inv(s) && c in s.campaigns && ActiveIn(s.campaigns[c], actor) &&
      |Attached(s.sheets, c)| < s.limits.maxAttached
    requires id in s.sheets && s.sheets[id].campaign.None? && s.sheets[id].version == s.campaigns[c].version
    ensures Inv(PutBumped(s, c).(sheets := s.sheets[id := Adopted(s.sheets[id], c, actor)]))
  {
    var sheet := s.sheets[id];
    assert ValidSheet(sheet, s.campaigns);
    AdoptedIsValid(sheet, c, actor, s.campaigns);
    PlaceSheet(s, c, id, Adopted(sheet, c, actor));
  }

  lemma AssignKeepsInv(s: State, c: CampaignId, id: SheetId, users: seq<UserId>, designees: seq<UserId>, actor: UserId)
    requires Inv(s) && c in s.campaigns && ActiveIn(s.campaigns[c], actor) && AllActive(s.campaigns[c], AsSet(users))
    requires id in s.sheets && s.sheets[id].campaign == Some(c)
    requires s.sheets[id].returnOwner.Some? ==> s.sheets[id].returnOwner.value in users
    requires DesigneesVerdict(s.campaigns[c], s.sheets[id], AsSet(users), designees).Done?
    ensures Inv(PutBumped(s, c).(
      sheets := s.sheets[id := Assigned(s.sheets[id], c, AsSet(users), AsSet(designees), actor)]))
  {
    var sheet := s.sheets[id];
    assert ValidSheet(sheet, s.campaigns);
    AssignedIsValid(sheet, c, AsSet(users), designees, actor, s.campaigns);
    PlaceSheet(s, c, id, Assigned(sheet, c, AsSet(users), AsSet(designees), actor));
  }

  lemma ClaimKeepsInv(s: State, c: CampaignId, id: SheetId, actor: UserId)
    requires Inv(s) && c in s.campaigns && ActiveIn(s.campaigns[c], actor) && id in s.sheets &&
      s.sheets[id].campaign == Some(c)
    ensures Inv(PutBumped(s, c).(sheets := s.sheets[id := Claimed(s.sheets[id], c, actor)]))
  {
    var sheet := s.sheets[id];
    assert ValidSheet(sheet, s.campaigns);
    ClaimedIsValid(sheet, c, actor, s.campaigns);
    PlaceSheet(s, c, id, Claimed(sheet, c, actor));
  }

  lemma PlacementCommandKeepsInv(s: State, actor: UserId, cmd: Command)
    requires Inv(s) && (cmd.AdoptSheet? || cmd.AssignControllers? || cmd.ClaimSheet?) && Verdict(s, actor, cmd).Done?
    ensures Inv(Effect(s, actor, cmd))
  {
    if cmd.AdoptSheet? {
      AdoptKeepsInv(s, cmd.campaign, cmd.sheet, actor);
    } else if cmd.AssignControllers? {
      AssignKeepsInv(s, cmd.campaign, cmd.sheet, cmd.users, cmd.designees, actor);
    } else {
      ClaimKeepsInv(s, cmd.campaign, cmd.sheet, actor);
    }
  }

  lemma NoteCommandKeepsInv(s: State, actor: UserId, cmd: Command)
    requires Inv(s) && NewIds(s, cmd) && Verdict(s, actor, cmd).Done?
    requires cmd.CreateContent? || cmd.ReplaceGrants?
    ensures Inv(Effect(s, actor, cmd))
  {
    match cmd
    case CreateContent(c, id, audience, grants) => PutNote(s, id, NewNote(s, actor, c, audience, grants));
    case ReplaceGrants(id, grants, _) =>
      assert ValidNote(s.contents[id], s.campaigns);
      PutNote(s, id, s.contents[id].(grants := grants, revision := s.contents[id].revision + 1));
  }

  // ---------- every step ----------

  lemma CommandKeepsInv(s: State, actor: UserId, cmd: Command)
    requires Inv(s) && NewIds(s, cmd)
    ensures Inv(After(s, actor, cmd))
  {
    if Verdict(s, actor, cmd).Done? {
      match cmd
      case CreateCampaign(_, _) => CreateKeepsInv(s, actor, cmd);
      case UpdateMetadata(_, _) => CampaignRowKeepsInv(s, actor, cmd);
      case SetLifecycle(_, _, _) => CampaignRowKeepsInv(s, actor, cmd);
      case ChangeRole(_, _, _, _) => RoleKeepsInv(s, actor, cmd);
      case RemoveMember(c, target, _) => RemovalKeepsInv(s, c, target);
      case IssueInvitation(_, _, _, _, _, _) => IssueKeepsInv(s, actor, cmd);
      case AcceptInvitation(_, _, _, _, _) => AcceptKeepsInv(s, actor, cmd);
      case DeclineInvitation(_, _, _, _, _) => DeclineKeepsInv(s, actor, cmd);
      case RotateInvitation(_, _, _, _, _, _) => RotateKeepsInv(s, actor, cmd);
      case RevokeInvitation(_, _, _, _) => RevokeKeepsInv(s, actor, cmd);
      case CreateContent(_, _, _, _) => NoteCommandKeepsInv(s, actor, cmd);
      case ReplaceGrants(_, _, _) => NoteCommandKeepsInv(s, actor, cmd);
      case CreateInCampaign(_, _, _, _, _, _, _) => CreateSheetKeepsInv(s, actor, cmd);
      case AdoptSheet(_, _, _, _, _) => PlacementCommandKeepsInv(s, actor, cmd);
      case AssignControllers(_, _, _, _, _, _, _) => PlacementCommandKeepsInv(s, actor, cmd);
      case ClaimSheet(_, _, _, _, _) => PlacementCommandKeepsInv(s, actor, cmd);
    }
  }

  /** Edits made elsewhere keep who holds and controls the sheet. */
  lemma EditKeepsInv(s: State, id: SheetId, sheet: Sheet)
    requires Inv(s) && id in s.sheets
    requires sheet ==
      s.sheets[id].(state := sheet.state, archived := sheet.archived, revision := sheet.revision, owner := sheet.owner)
    requires sheet.owner.Some? <==> s.sheets[id].owner.Some?
    ensures Inv(s.(sheets := s.sheets[id := sheet]))
  {
    assert ValidSheet(s.sheets[id], s.campaigns);
    if sheet.campaign.Some? {
      var c := sheet.campaign.value;
      assert Controlled(sheet, c, s.campaigns[c]) && Designated(sheet, c, s.campaigns[c]);
    }
    PutSheet(s, id, sheet);
  }

  lemma SheetStepKeepsInv(s: State, step: Step)
    requires Inv(s) && Enabled(s, step) && (step.StartSheet? || step.EditSheet? || step.TransferSheet?)
    ensures Inv(Next(s, step))
  {
    var sheet := Next(s, step).sheets[step.id];
    if step.StartSheet? {
      PutSheet(s, step.id, sheet);
    } else {
      assert ValidSheet(s.sheets[step.id], s.campaigns);
      EditKeepsInv(s, step.id, sheet);
    }
  }

  lemma NoteStepKeepsInv(s: State, step: Step)
    requires Inv(s) && Enabled(s, step) && step.EditNote?
    ensures Inv(Next(s, step))
  {
    assert ValidNote(s.contents[step.id], s.campaigns);
    PutNote(s, step.id, Next(s, step).contents[step.id]);
  }

  lemma StepKeepsInv(s: State, step: Step)
    requires Inv(s) && Enabled(s, step)
    ensures Inv(Next(s, step))
  {
    match step
    case Do(actor, cmd) => CommandKeepsInv(s, actor, cmd);
    case EditNote(_, _, _) => NoteStepKeepsInv(s, step);
    case _ => SheetStepKeepsInv(s, step);
  }

  lemma {:induction false} RunKeepsInv(s: State, steps: seq<Step>)
    requires Inv(s) && IsRun(s, steps)
    ensures Inv(Final(s, steps))
    decreases |steps|
  {
    if |steps| > 0 {
      StepKeepsInv(s, steps[0]);
      RunKeepsInv(Next(s, steps[0]), steps[1..]);
    }
  }

  lemma StartIsValid(limits: Limits)
    requires limits.maxMembers >= 1
    ensures Inv(Start(limits))
  {
    forall c ensures |Attached(map[], c)| <= limits.maxAttached {
      assert Attached(map[], c) == {};
    }
  }
}
