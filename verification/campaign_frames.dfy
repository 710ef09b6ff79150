/**
 * What a guarded command reads and writes. Its statements touch rows of one campaign only, the one whose row it
 * locks; so nothing done under another campaign's lock changes what it decides or what it writes.
 */
module CampaignFrames {
  import opened Wrappers
  import opened Policy
  import opened CampaignRows
  import opened CampaignInvariants

  /** Commands whose receipts live in the campaigns' table; placement has its own claims. */
  predicate Guarded(cmd: Command) {
    !cmd.CreateInCampaign? && !cmd.AdoptSheet? && !cmd.AssignControllers? && !cmd.ClaimSheet?
  }

  /** The campaign row a command locks first. Creating a campaign has none to lock. */
  function LockOf(s: State, cmd: Command): Option<CampaignId> {
    if cmd.CreateCampaign? then None
    else if cmd.ReplaceGrants? then (if cmd.content in s.contents then Some(s.contents[cmd.content].campaign) else None)
    else Some(cmd.campaign)
  }

  /** The campaign row that anything else locks before it writes. A sheet outside campaigns needs none. */
  function StepLock(s: State, step: Step): Option<CampaignId> {
    match step
    case Do(_, cmd) => LockOf(s, cmd)
    case StartSheet(_, _, _, _) => None
    case TransferSheet(_, _) => None
    case EditSheet(id, _, _) => if id in s.sheets then s.sheets[id].campaign else None
    case EditNote(id, _, _) => if id in s.contents then Some(s.contents[id].campaign) else None
  }

  // ---------- the rows a command writes, table by table ----------

  ghost function CampaignRowsOf(s: State, actor: UserId, cmd: Command): map<CampaignId, Campaign>
    requires Verdict(s, actor, cmd).Done?
  {
    if OnNote(cmd) then map[] else map[cmd.campaign := CampaignAfter(s, actor, cmd)]
  }

  ghost function InvitationRowsOf(s: State, actor: UserId, cmd: Command): map<InvitationId, Invitation>
    requires Verdict(s, actor, cmd).Done?
  {
    match cmd
    case IssueInvitation(c, id, role, hash, expires, _) =>
      map[id := Invitation(c, role, hash, expires, Pending, 1, None, None)]
    case AcceptInvitation(c, hash, _, _, _) =>
      var id := WithHash(s.invitations, hash);
      var member := Joined(MemberOf(s.campaigns, c, actor), s.invitations[id].role);
      map[id := Consumed(s.invitations[id], Accepted, actor, Some(member.generation))]
    case DeclineInvitation(_, hash, _, _, _) =>
      var id := WithHash(s.invitations, hash);
      map[id := Consumed(s.invitations[id], Declined, actor, None)]
    case RotateInvitation(_, id, hash, expires, _, _) => map[id := Rotated(s.invitations[id], hash, expires)]
    case RevokeInvitation(_, id, _, _) =>
      if s.invitations[id].status.Pending? then map[id := RevokedInvitation(s.invitations[id])] else map[]
    case _ => map[]
  }

  function RevokedRows(contents: map<ContentId, Content>, c: CampaignId, u: UserId): map<ContentId, Content> {
    map k | k in contents && contents[k].campaign == c :: Revoking(contents[k], c, u)
  }

  function ReleasedRows(sheets: map<SheetId, Sheet>, c: CampaignId, u: UserId): map<SheetId, Sheet> {
    map k | k in sheets && sheets[k].campaign == Some(c) :: Released(sheets[k], c, u)
  }

  ghost function ContentRowsOf(s: State, actor: UserId, cmd: Command): map<ContentId, Content>
    requires Verdict(s, actor, cmd).Done?
  {
    match cmd
    case RemoveMember(c, target, _) => RevokedRows(s.contents, c, target)
    case CreateContent(c, id, audience, grants) => map[id := NewNote(s, actor, c, audience, grants)]
    case ReplaceGrants(id, grants, _) =>
      map[id := s.contents[id].(grants := grants, revision := s.contents[id].revision + 1)]
    case _ => map[]
  }

  ghost function SheetRowsOf(s: State, actor: UserId, cmd: Command): map<SheetId, Sheet>
    requires Verdict(s, actor, cmd).Done? && Guarded(cmd)
  {
    match cmd
    case RemoveMember(c, target, _) => ReleasedRows(s.sheets, c, target)
    case _ => map[]
  }

  lemma RemovalRows(s: State, c: CampaignId, u: UserId)
    requires AllSheets(s.sheets, s.campaigns)
    ensures (map k | k in s.contents :: Revoking(s.contents[k], c, u)) == s.contents + RevokedRows(s.contents, c, u)
    ensures (map k | k in s.sheets :: Released(s.sheets[k], c, u)) == s.sheets + ReleasedRows(s.sheets, c, u)
  {
    forall k | k in s.sheets && s.sheets[k].campaign != Some(c) ensures Released(s.sheets[k], c, u) == s.sheets[k] {
      ReleaseElsewhere(s.sheets[k], c, u, s.campaigns);
    }
  }

  lemma CampaignsAndInvitationsMerge(s: State, actor: UserId, cmd: Command)
    requires Guarded(cmd) && Verdict(s, actor, cmd).Done?
    ensures CampaignsAfter(s, actor, cmd) == s.campaigns + CampaignRowsOf(s, actor, cmd)
    ensures InvitationsAfter(s, actor, cmd) == s.invitations + InvitationRowsOf(s, actor, cmd)
  {
  }

  lemma ContentsMerge(s: State, actor: UserId, cmd: Command)
    requires AllSheets(s.sheets, s.campaigns) && Guarded(cmd) && Verdict(s, actor, cmd).Done?
    ensures ContentsAfter(s, actor, cmd) == s.contents + ContentRowsOf(s, actor, cmd)
  {
    if cmd.RemoveMember? {
      RemovalRows(s, cmd.campaign, cmd.target);
    }
  }

  lemma SheetsMerge(s: State, actor: UserId, cmd: Command)
    requires AllSheets(s.sheets, s.campaigns) && Guarded(cmd) && Verdict(s, actor, cmd).Done?
    ensures SheetsAfter(s, actor, cmd) == s.sheets + SheetRowsOf(s, actor, cmd)
  {
    if cmd.RemoveMember? {
      RemovalRows(s, cmd.campaign, cmd.target);
    } else {
      assert s.sheets + map[] == s.sheets;
    }
  }

  ghost function Merged(s: State, cmd: Command, campaigns: map<CampaignId, Campaign>,
      invitations: map<InvitationId, Invitation>, contents: map<ContentId, Content>,
      sheets: map<SheetId, Sheet>): State
  {
    State(s.limits, s.campaigns + campaigns, s.invitations + invitations, s.contents + contents, s.sheets + sheets,
      MintedAfter(s, cmd))
  }

  /** Writing those rows over the tables is the command's effect: no row of another campaign changes. */
  lemma RowsAreTheEffect(s: State, actor: UserId, cmd: Command)
    requires AllSheets(s.sheets, s.campaigns) && Guarded(cmd) && Verdict(s, actor, cmd).Done?
    ensures Effect(s, actor, cmd) ==
      Merged(s, cmd, CampaignRowsOf(s, actor, cmd), InvitationRowsOf(s, actor, cmd), ContentRowsOf(s, actor, cmd),
        SheetRowsOf(s, actor, cmd))
  {
    CampaignsAndInvitationsMerge(s, actor, cmd);
    ContentsMerge(s, actor, cmd);
    SheetsMerge(s, actor, cmd);
  }

  // ---------- one campaign's part of the tables ----------

  ghost predicate HasInvitation(s: State, i: InvitationId, c: CampaignId) {
    i in s.invitations && s.invitations[i].campaign == c
  }

  ghost predicate HasContent(s: State, k: ContentId, c: CampaignId) { k in s.contents && s.contents[k].campaign == c }

  ghost predicate HasSheet(s: State, k: SheetId, c: CampaignId) { k in s.sheets && s.sheets[k].campaign == Some(c) }

  ghost predicate SameInvitations(s: State, t: State, c: CampaignId) {
    forall i {:trigger HasInvitation(s, i, c)} {:trigger HasInvitation(t, i, c)} ::
      (HasInvitation(s, i, c) <==> HasInvitation(t, i, c)) &&
      (HasInvitation(s, i, c) ==> t.invitations[i] == s.invitations[i])
  }

  ghost predicate SameContents(s: State, t: State, c: CampaignId) {
    forall k {:trigger HasContent(s, k, c)} {:trigger HasContent(t, k, c)} ::
      (HasContent(s, k, c) <==> HasContent(t, k, c)) && (HasContent(s, k, c) ==> t.contents[k] == s.contents[k])
  }

  ghost predicate SameSheets(s: State, t: State, c: CampaignId) {
    forall k {:trigger HasSheet(s, k, c)} {:trigger HasSheet(t, k, c)} ::
      (HasSheet(s, k, c) <==> HasSheet(t, k, c)) && (HasSheet(s, k, c) ==> t.sheets[k] == s.sheets[k])
  }

  /** Campaign c, its invitations, its notes and its sheets are the same in both. */
  ghost predicate Agree(s: State, t: State, c: CampaignId) {
    && s.limits == t.limits && c in s.campaigns && c in t.campaigns && s.campaigns[c] == t.campaigns[c]
    && SameInvitations(s, t, c) && SameContents(s, t, c) && SameSheets(s, t, c)
  }

  // ---------- a command looks at its own campaign only ----------

  lemma TokenFrame(s: State, t: State, c: CampaignId, hash: TokenHash)
    requires Agree(s, t, c) && UniqueHashes(t.invitations)
    requires HashInUse(s.invitations, hash) && s.invitations[WithHash(s.invitations, hash)].campaign == c
    ensures HashInUse(t.invitations, hash) && WithHash(t.invitations, hash) == WithHash(s.invitations, hash)
    ensures t.invitations[WithHash(t.invitations, hash)] == s.invitations[WithHash(s.invitations, hash)]
  {
    var i := WithHash(s.invitations, hash);
    assert HasInvitation(s, i, c);
    assert t.invitations[i].hash == hash;
  }

  lemma VerdictFrame(s: State, t: State, actor: UserId, cmd: Command, c: CampaignId)
    requires Agree(s, t, c) && UniqueHashes(t.invitations) && Guarded(cmd) && LockOf(s, cmd) == Some(c)
    requires Verdict(s, actor, cmd).Done?
    ensures Verdict(t, actor, cmd).Done? && LockOf(t, cmd) == Some(c)
  {
    if ByToken(cmd) {
      TokenFrame(s, t, c, cmd.hash);
    } else if cmd.RotateInvitation? || cmd.RevokeInvitation? {
      assert HasInvitation(s, cmd.invitation, c);
    } else if cmd.ReplaceGrants? {
      assert HasContent(s, cmd.content, c);
    }
  }

  lemma RowsFrame(s: State, t: State, actor: UserId, cmd: Command, c: CampaignId)
    requires Agree(s, t, c) && UniqueHashes(t.invitations) && Guarded(cmd) && LockOf(s, cmd) == Some(c)
    requires Verdict(s, actor, cmd).Done? && Verdict(t, actor, cmd).Done?
    ensures CampaignRowsOf(t, actor, cmd) == CampaignRowsOf(s, actor, cmd)
    ensures InvitationRowsOf(t, actor, cmd) == InvitationRowsOf(s, actor, cmd)
    ensures ContentRowsOf(t, actor, cmd) == ContentRowsOf(s, actor, cmd)
    ensures SheetRowsOf(t, actor, cmd) == SheetRowsOf(s, actor, cmd)
  {
    if ByToken(cmd) {
      TokenFrame(s, t, c, cmd.hash);
    } else if cmd.RotateInvitation? || cmd.RevokeInvitation? {
      assert HasInvitation(s, cmd.invitation, c);
    } else if cmd.ReplaceGrants? {
      assert HasContent(s, cmd.content, c);
    } else if cmd.RemoveMember? {
      RemovalFrame(s, t, c, cmd.target);
    }
  }

  lemma RemovalFrame(s: State, t: State, c: CampaignId, u: UserId)
    requires SameContents(s, t, c) && SameSheets(s, t, c)
    ensures RevokedRows(s.contents, c, u) == RevokedRows(t.contents, c, u)
    ensures ReleasedRows(s.sheets, c, u) == ReleasedRows(t.sheets, c, u)
  {
    assert forall k :: k in RevokedRows(s.contents, c, u) <==> HasContent(s, k, c);
    assert forall k :: k in RevokedRows(t.contents, c, u) <==> HasContent(t, k, c);
    assert forall k :: k in ReleasedRows(s.sheets, c, u) <==> HasSheet(s, k, c);
    assert forall k :: k in ReleasedRows(t.sheets, c, u) <==> HasSheet(t, k, c);
  }

  // ---------- and writes there only ----------

  lemma CommandAgrees(s: State, actor: UserId, cmd: Command, c: CampaignId)
    requires Inv(s) && NewIds(s, cmd) && Verdict(s, actor, cmd).Done? && c in s.campaigns && LockOf(s, cmd) != Some(c)
    ensures Agree(s, Effect(s, actor, cmd), c)
  {
    var t := Effect(s, actor, cmd);
    InvitationsAgree(s, actor, cmd, c);
    ContentsAgree(s, actor, cmd, c);
    SheetsAgree(s, actor, cmd, c);
  }

  lemma InvitationsAgree(s: State, actor: UserId, cmd: Command, c: CampaignId)
    requires NewIds(s, cmd) && Verdict(s, actor, cmd).Done? && LockOf(s, cmd) != Some(c)
    ensures SameInvitations(s, Effect(s, actor, cmd), c)
  {
  }

  lemma ContentsAgree(s: State, actor: UserId, cmd: Command, c: CampaignId)
    requires NewIds(s, cmd) && Verdict(s, actor, cmd).Done? && LockOf(s, cmd) != Some(c)
    ensures SameContents(s, Effect(s, actor, cmd), c)
  {
  }

  lemma RemovalAgrees(s: State, d: CampaignId, u: UserId, c: CampaignId, t: State)
    requires AllSheets(s.sheets, s.campaigns) && c != d
    requires t.sheets == map k | k in s.sheets :: Released(s.sheets[k], d, u)
    ensures SameSheets(s, t, c)
  {
    forall k ensures (HasSheet(s, k, c) <==> HasSheet(t, k, c)) && (HasSheet(s, k, c) ==> t.sheets[k] == s.sheets[k]) {
      if k in s.sheets && s.sheets[k].campaign != Some(d) {
        ReleaseElsewhere(s.sheets[k], d, u, s.campaigns);
      }
    }
  }

  lemma SheetsAgree(s: State, actor: UserId, cmd: Command, c: CampaignId)
    requires Inv(s) && NewIds(s, cmd) && Verdict(s, actor, cmd).Done? && LockOf(s, cmd) != Some(c)
    ensures SameSheets(s, Effect(s, actor, cmd), c)
  {
    if cmd.RemoveMember? {
      RemovalAgrees(s, cmd.campaign, cmd.target, c, Effect(s, actor, cmd));
    } else {
      PlacementAgrees(s, actor, cmd, c);
    }
  }

  lemma PlacementAgrees(s: State, actor: UserId, cmd: Command, c: CampaignId)
    requires NewIds(s, cmd) && Verdict(s, actor, cmd).Done? && LockOf(s, cmd) != Some(c) && !cmd.RemoveMember?
    ensures SameSheets(s, Effect(s, actor, cmd), c)
  {
  }

  lemma EditAgrees(s: State, step: Step, c: CampaignId)
    requires Enabled(s, step) && c in s.campaigns && StepLock(s, step) != Some(c) && !step.Do?
    ensures Agree(s, Next(s, step), c)
  {
    var t := Next(s, step);
    assert SameInvitations(s, t, c);
    if step.EditNote? {
      assert SameSheets(s, t, c);
    } else {
      assert SameContents(s, t, c);
    }
  }

  /** The frame: whatever locks another campaign, or none, leaves this one's part of the tables as it was. */
  lemma StepAgrees(s: State, step: Step, c: CampaignId)
    requires Inv(s) && Enabled(s, step) && c in s.campaigns && StepLock(s, step) != Some(c)
    ensures Agree(s, Next(s, step), c)
  {
    if step.Do? {
      if Verdict(s, step.actor, step.command).Done? {
        CommandAgrees(s, step.actor, step.command, c);
        assert Next(s, step) == Effect(s, step.actor, step.command);
      } else {
        assert Next(s, step) == s;
      }
    } else {
      EditAgrees(s, step, c);
    }
  }

  /** Campaigns stay, and a note stays in its campaign. */
  ghost predicate PlacesStay(s: State, t: State) {
    && (forall c {:trigger c in t.campaigns} {:trigger c in s.campaigns} :: c in s.campaigns ==> c in t.campaigns)
    && (forall k {:trigger t.contents[k]} {:trigger s.contents[k]} ::
         k in s.contents ==> k in t.contents && t.contents[k].campaign == s.contents[k].campaign)
  }

  lemma StepKeepsPlaces(s: State, step: Step)
    requires Enabled(s, step)
    ensures PlacesStay(s, Next(s, step))
  {
  }
}
